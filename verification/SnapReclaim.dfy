/** Reclamation is exact and prompt.  A collection keeps exactly the retired lists that some load of its
    scan returned; and with no other thread in the cell, one completed write or one read on its way out
    keeps only what the thread's own reads hold and what a reader of another cell has announced by mistake. */
module SnapReclaim {
  import opened HandlerList
  import opened HazardDomain
  import opened SnapCell
  import opened SnapInvariant
  import opened SnapStable
  import opened SnapQuiet
  import opened SnapLock
  import opened SnapSafety
  import opened SnapLabels
  import opened SnapTouch
  import opened SnapWait
  import opened SnapWalks

  // ----- what a scan finds ----------------------------------------------------------------------

  /** Between these states a scan loads a slot and finds `x` there. */
  ghost predicate Loads(s: State, s': State, t: Tid, x: Addr) {
    && Walks(s, t, Scanner) && Walks(s', t, Scanner) && LoadsSlot(s, s', t)
    && x != NULL && SlotAt(s.sh.dom, Cursor(s, t, Scanner), Index(s, t, Scanner)).ptr == x
  }

  /** The load a scan makes at state `k` returns `x`. */
  ghost predicate LoadReturns(run: seq<State>, k: nat, t: Tid, x: Addr) {
    k + 1 < |run| && Loads(run[k], run[k + 1], t, x)
  }

  lemma {:induction false} QuietFound(sh: Shared, t: Tid, th: Thread, q: QuietStep)
    requires CanQuiet(sh, t, th, q) && (q.ScanSlot? || q.ScanRecord?)
    ensures var op, p := DoQuiet(sh, t, th, q).op, SlotAt(sh.dom, th.op.cursor, th.op.k).ptr;
            && op.Scanning? && (op.k == th.op.k + 1 <==> q.ScanSlot?)
            && op.found == th.op.found + (if q.ScanSlot? && p != NULL then [p] else [])
  {
  }

  lemma {:induction false} NextFound(s: State, s': State, t: Tid)
    requires NextState(s, s') && Walks(s, t, Scanner) && Walks(s', t, Scanner)
    ensures var p := SlotAt(s.sh.dom, Cursor(s, t, Scanner), Index(s, t, Scanner)).ptr;
            s'.threads[t].op.found == s.threads[t].op.found + (if LoadsSlot(s, s', t) && p != NULL then [p] else [])
  {
    hide CanThread, DoThread, Do, Can, CanQuiet, DoQuiet, SlotAt;
    if s' != s {
      var u, step :| CanStep(s, u, step) && s' == DoStep(s, u, step);
      if u == t && !step.CloseCell? {
        ScannerSteps(s.sh, t, s.threads[t], step);
        QuietOf(s.sh, t, s.threads[t], step);
        QuietFound(s.sh, t, s.threads[t], step.q);
      }
    }
  }

  /** A scan has found exactly what its loads returned. */
  lemma {:induction false} FoundIsLoaded(run: seq<State>, i: nat, j: nat, t: Tid, x: Addr)
    requires IsRun(run) && OneWalk(run, i, j, t, Scanner) && run[i].threads[t].op.found == []
    ensures x in run[j].threads[t].op.found <==> exists k :: i <= k < j && LoadReturns(run, k, t, x)
  {
    hide NextState, LoadReturns;
    if i < j {
      FoundIsLoaded(run, i, j - 1, t, x);
      assert NextState(run[j - 1], run[j - 1 + 1]);
      NextFound(run[j - 1], run[j], t);
      LastLoad(run, j - 1, t, x);
    }
  }

  lemma {:induction false} LastLoad(run: seq<State>, k: nat, t: Tid, x: Addr)
    requires k + 1 < |run| && Walks(run[k], t, Scanner) && Walks(run[k + 1], t, Scanner)
    ensures LoadReturns(run, k, t, x) <==>
              && LoadsSlot(run[k], run[k + 1], t) && x != NULL
              && SlotAt(run[k].sh.dom, Cursor(run[k], t, Scanner), Index(run[k], t, Scanner)).ptr == x
  {
  }

  lemma {:induction false} SplitExactly(
    retired: seq<Addr>, found: seq<Addr>, kept: seq<Addr>, freed: seq<Addr>, x: Addr)
    requires IsSplit(retired, found, kept, freed)
    ensures x in kept <==> x in retired && x in found
    ensures x in freed <==> x in retired && x !in found
  {
    assert x in multiset(kept) + multiset(freed) <==> x in multiset(retired);
  }

  /** What the collection at the end of a scan keeps is exactly the retired lists some load of the scan
      returned, and it frees exactly the others. */
  lemma {:induction false} CollectionIsExact(
    run: seq<State>, i: nat, j: nat, t: Tid, kept: seq<Addr>, freed: seq<Addr>, x: Addr)
    requires IsRun(run) && OneWalk(run, i, j, t, Scanner) && run[i].threads[t].op.found == []
    requires CanCollect(run[j].sh, t, run[j].threads[t], kept, freed)
    ensures var retired := run[j].sh.cells[run[j].threads[t].op.c].retired;
            && (x in kept <==> x in retired && exists k :: i <= k < j && LoadReturns(run, k, t, x))
            && (x in freed <==> x in retired && !exists k :: i <= k < j && LoadReturns(run, k, t, x))
  {
    hide IsRun, LoadReturns, IsSplit;
    FoundIsLoaded(run, i, j, t, x);
    SplitExactly(run[j].sh.cells[run[j].threads[t].op.c].retired, run[j].threads[t].op.found, kept, freed, x);
  }

  /** Hence it empties the retired vector if and only if no load returned a retired list. */
  lemma {:induction false} EmptiesIffNothingLoaded(
    run: seq<State>, i: nat, j: nat, t: Tid, kept: seq<Addr>, freed: seq<Addr>)
    requires IsRun(run) && OneWalk(run, i, j, t, Scanner) && run[i].threads[t].op.found == []
    requires CanCollect(run[j].sh, t, run[j].threads[t], kept, freed)
    ensures kept == [] <==>
              forall x, k :: x in run[j].sh.cells[run[j].threads[t].op.c].retired && i <= k < j ==>
                  !LoadReturns(run, k, t, x)
  {
    hide IsRun, LoadReturns, IsSplit;
    var retired := run[j].sh.cells[run[j].threads[t].op.c].retired;
    forall x ensures x in kept <==> x in retired && exists k :: i <= k < j && LoadReturns(run, k, t, x) {
      CollectionIsExact(run, i, j, t, kept, freed, x);
    }
    assert kept != [] ==> kept[0] in kept;
  }

  // ----- nobody else is in the cell --------------------------------------------------------------

  /** A read's `release` before it has the lock. */
  predicate OnTheWayOut(op: Op) { (op.Unpinning? && !op.unwinding) || op.Checking? || op.TryLocking? }

  /** From a write's `lock` or a read's `release` to the unlock. */
  predicate Reclaims(op: Op, c: Cid) {
    && (OnTheWayOut(op) || op.Locking? || op.Writing? || op.ScanStart? || op.Scanning? || op.Storing? || op.Unlocking?)
    && op.c == c
  }

  /** No other thread is inside a call, a read or a dispatch of the cell. */
  ghost predicate Alone(s: State, t: Tid, c: Cid) {
    t in s.threads && c in s.sh.cells && forall u :: u in s.threads && u != t ==> !UsesCell(s.threads[u], c)
  }

  /** The slot holds what the thread announced without having validated it, in a call of another cell. */
  ghost predicate StrayAnnouncement(th: Thread, slot: Slot, k: nat, c: Cid) {
    slot.guard.Claimed? && (th.op.Validating? || th.op.Announcing?) && th.op.k == k && th.op.call.c != c
  }

  /** The slot holds the list of a read of the cell the thread is inside. */
  ghost predicate OwnRead(th: Thread, slot: Slot, k: nat, c: Cid) {
    && slot.guard.Validated? && slot.guard.depth < |th.frames|
    && var f := th.frames[slot.guard.depth]; f.Hazard? && f.c == c && f.k == k && f.version == slot.guard.version
  }

  /** A slot in use is a slot of the thread that owns its record. */
  lemma {:induction false} SlotHasOwner(d: Domain, r: Rid, k: nat) returns (u: Tid)
    requires Inv(d) && SlotAt(d, r, k) != EMPTY
    ensures u in d.locals && OwnSlot(d, u, k) == SlotAt(d, r, k)
  {
    hide ChainInv, CountInv;
    assert RecordOk(d.recs[r], r, d.locals);
    u := d.recs[r].owner.tid;
    assert LocalOk(d.locals[u], u, d.recs);
  }

  lemma {:induction false} ThreadBacks(s: State, u: Tid)
    requires StateInv(s) && u in s.sh.dom.locals
    ensures u in s.threads && PinsBacked(s.sh.dom, u, s.threads[u])
  {
    hide SharedInv, ThreadOk, PinsBacked;
  }

  lemma {:induction false} WhoseSlot(s: State, t: Tid, c: Cid, u: Tid, k: nat)
    requires Alone(s, t, c) && s.threads[t].op.Scanning? && u in s.threads
    requires PinsBacked(s.sh.dom, u, s.threads[u]) && OwnSlot(s.sh.dom, u, k) != EMPTY
    ensures var th, slot := s.threads[u], OwnSlot(s.sh.dom, u, k);
            || (u != t && StrayAnnouncement(th, slot, k, c)) || (u == t && OwnRead(th, slot, k, c))
            || (slot.guard.Validated? && slot.guard.cell != c)
  {
    var th, slot := s.threads[u], OwnSlot(s.sh.dom, u, k);
    assert SlotBacked(th, slot, k);
    if slot.guard.Validated? && slot.guard.depth < |th.frames| {
      assert u != t ==> FrameUses(th.frames[slot.guard.depth], slot.guard.cell);
    }
  }

  lemma {:induction false} OtherCells(sh: Shared, r: Rid, k: nat, c: Cid)
    requires CellsInv(sh.cells, sh.heap) && SlotsInv(sh.dom, sh.heap) && c in sh.cells
    requires SlotAt(sh.dom, r, k).guard.Validated? && SlotAt(sh.dom, r, k).guard.cell != c
    ensures SlotAt(sh.dom, r, k).ptr !in sh.cells[c].retired
  {
    assert Protected(SlotAt(sh.dom, r, k), sh.heap) && CellOk(c, sh.cells[c], sh.heap);
  }

  /** Then a slot that holds a retired list of the cell is a read of the thread itself, or an announcement not
      yet validated by a thread that calls another cell. */
  lemma {:induction false} WhoHoldsRetired(s: State, t: Tid, c: Cid, r: Rid, k: nat) returns (u: Tid)
    requires StateInv(s) && Alone(s, t, c) && s.threads[t].op.Scanning?
    requires SlotAt(s.sh.dom, r, k).ptr in s.sh.cells[c].retired && SlotAt(s.sh.dom, r, k).ptr != NULL
    ensures u in s.threads && OwnSlot(s.sh.dom, u, k) == SlotAt(s.sh.dom, r, k)
    ensures var th, slot := s.threads[u], SlotAt(s.sh.dom, r, k);
            (u != t && StrayAnnouncement(th, slot, k, c)) || (u == t && OwnRead(th, slot, k, c))
  {
    hide StateInv, SharedInv, Inv, HeapInv, CellsInv, SlotsInv, PinsBacked, StrayAnnouncement, OwnRead, UsesCell;
    TheActor(s, t);
    DomPart(s.sh);
    SlotsPart(s.sh);
    u := SlotHasOwner(s.sh.dom, r, k);
    ThreadBacks(s, u);
    WhoseSlot(s, t, c, u, k);
    if SlotAt(s.sh.dom, r, k).guard.Validated? && SlotAt(s.sh.dom, r, k).guard.cell != c {
      OtherCells(s.sh, r, k, c);
    }
  }

  // ----- who touches the cell ----------------------------------------------------------------------

  /** The words of a cell that reclamation is about. */
  predicate SameWork(x: Cell, y: Cell) {
    && y.lock == x.lock && y.retired == x.retired && y.retiredLen == x.retiredLen && y.current == x.current
    && Hist(y) == Hist(x)
  }

  ghost predicate LeavesAlone(cells: map<Cid, Cell>, after: map<Cid, Cell>, c: Cid) {
    c in cells ==> c in after && SameWork(cells[c], after[c])
  }

  /** A step on the cell of an operation or a frame is taken inside the cell. */
  lemma {:induction false} WorksInside(sh: Shared, u: Tid, th: Thread, step: SnapCell.Step, c: Cid)
    requires CanThread(sh, u, th, step) && WorksOn(sh, u, th, step) == Some(c) && !OnNamed(step)
    ensures UsesCell(th, c)
  {
    hide IsSplit, Can, CanQuiet;
    if OnFrame(step) { assert FrameUses(TopFrame(th), c); }
  }

  lemma {:induction false} DrawsInside(sh: Shared, u: Tid, th: Thread, step: SnapCell.Step)
    requires CanThread(sh, u, th, step) && step.DrawId?
    ensures OpUses(DoThread(sh, u, th, step).1.op, step.c)
  {
  }

  lemma {:induction false} OpensNew(sh: Shared, u: Tid, th: Thread, step: SnapCell.Step)
    requires CanThread(sh, u, th, step) && step.OpenCell?
    ensures step.c !in sh.cells
  {
  }

  lemma {:induction false} CallbackLeaves(sh: Shared, u: Tid, th: Thread, step: SnapCell.Step)
    requires CanThread(sh, u, th, step) && step.SetCallback?
    ensures LeavesAlone(sh.cells, DoThread(sh, u, th, step).0.cells, step.c)
  {
  }

  /** A thread that is not inside the cell, before or after, leaves it alone. */
  lemma {:induction false} OutsiderLeaves(sh: Shared, u: Tid, th: Thread, step: SnapCell.Step, c: Cid)
    requires CanThread(sh, u, th, step) && !UsesCell(th, c) && !UsesCell(DoThread(sh, u, th, step).1, c)
    ensures LeavesAlone(sh.cells, DoThread(sh, u, th, step).0.cells, c)
  {
    hide CanThread, DoThread, FramesUse, OpUses;
    ThreadTouches(sh, u, th, step);
    if c in sh.cells && WorksOn(sh, u, th, step) == Some(c) {
      if !OnNamed(step) {
        WorksInside(sh, u, th, step, c);
      } else if step.DrawId? {
        DrawsInside(sh, u, th, step);
      } else if step.SetCallback? {
        CallbackLeaves(sh, u, th, step);
      } else {
        OpensNew(sh, u, th, step);
      }
    }
  }

  // ----- one completed write, one read on its way out -----------------------------------------------

  /** What there was when the work began, and whether it began with a read's `release`. */
  datatype Work = Work(reading: bool, before: nat, retired: seq<Addr>, current: Addr)

  /** The lists the work may free: what was retired, and what a write retires. */
  function Candidates(w: Work): seq<Addr> { if w.reading then w.retired else w.retired + [w.current] }

  ghost function WorkAt(s: State, t: Tid, c: Cid): Work
    requires t in s.threads && c in s.sh.cells
  {
    var x := s.sh.cells[c];
    Work(OnTheWayOut(s.threads[t].op), |Hist(x)|, x.retired, x.current)
  }

  /** Where the work stands with one address: `hit` says that a load has returned it. */
  ghost predicate Stage(y: Cell, op: Op, c: Cid, w: Work, x: Addr, hit: bool) {
    var due := w.reading || |Hist(y)| > w.before;
    var exact := x in y.retired <==> x in Candidates(w) && hit;
    && (Reclaims(op, c) || op.Idle?)
    && (OnTheWayOut(op) ==> w.reading)
    && (op.Locking? || op.Writing? ==> |Hist(y)| == w.before && !w.reading && y.current == w.current)
    && (OnTheWayOut(op) || op.Locking? ==> y.lock.Nobody? && y.retiredLen == |y.retired|)
    && (OnTheWayOut(op) || op.Locking? || op.Writing? ==> y.retired == w.retired && !hit)
    && (op.ScanStart? ==> y.retired == Candidates(w) && !hit)
    && (op.Scanning? ==> y.retired == Candidates(w) && (x in op.found <==> hit))
    && (op.Storing? ==> exact)
    && (op.Unlocking? && due ==> exact && y.retiredLen == |y.retired|)
    && (op.Idle? && due ==> exact && y.retiredLen == |y.retired| && y.lock.Nobody?)
  }

  lemma {:induction false} StageQuiet(
    sh: Shared, t: Tid, th: Thread, q: QuietStep, c: Cid, w: Work, x: Addr, hit: bool)
    requires c in sh.cells && Reclaims(th.op, c) && Stage(sh.cells[c], th.op, c, w, x, hit) && CanQuiet(sh, t, th, q)
    ensures var found := q.ScanSlot? && x != NULL && SlotAt(sh.dom, th.op.cursor, th.op.k).ptr == x;
            Stage(sh.cells[c], DoQuiet(sh, t, th, q).op, c, w, x, hit || found)
  {
  }

  predicate ReclaimStep(step: SnapCell.Step) {
    step.Unpin? || step.TryLock? || step.Collect? || step.StoreLen? || step.Unlock? || step.Lock? || step.Write?
  }

  lemma {:induction false} ReclaimSteps(sh: Shared, t: Tid, th: Thread, step: SnapCell.Step, c: Cid)
    requires Reclaims(th.op, c) && CanThread(sh, t, th, step) && !step.Quiet?
    ensures ReclaimStep(step)
    ensures th.op.Scanning? ==> !DoThread(sh, t, th, step).1.op.Scanning?
  {
    hide CanQuiet, Can, IsSplit, MoveOut, Apply;
  }

  lemma {:induction false} StageWrite(sh: Shared, t: Tid, th: Thread, a: Addr, c: Cid, w: Work, x: Addr, hit: bool)
    requires c in sh.cells && Reclaims(th.op, c) && Stage(sh.cells[c], th.op, c, w, x, hit) && CanWrite(sh, t, th, a)
    ensures var r := DoWrite(sh, t, th, a);
            c in r.0.cells && Stage(r.0.cells[c], r.1.op, c, w, x, hit) && w.before <= |Hist(r.0.cells[c])|
  {
    hide Apply;
  }

  lemma {:induction false} StageCollect(
    sh: Shared, t: Tid, th: Thread, step: SnapCell.Step, c: Cid, w: Work, x: Addr, hit: bool)
    requires c in sh.cells && Reclaims(th.op, c) && Stage(sh.cells[c], th.op, c, w, x, hit)
    requires CanThread(sh, t, th, step) && step.Collect?
    ensures var r := DoThread(sh, t, th, step);
            c in r.0.cells && Stage(r.0.cells[c], r.1.op, c, w, x, hit) && Hist(r.0.cells[c]) == Hist(sh.cells[c])
  {
    hide MoveOut, IsSplit;
    SplitExactly(sh.cells[c].retired, th.op.found, step.kept, step.freed, x);
  }

  lemma {:induction false} StageLock(
    sh: Shared, t: Tid, th: Thread, step: SnapCell.Step, c: Cid, w: Work, x: Addr, hit: bool)
    requires c in sh.cells && Reclaims(th.op, c) && Stage(sh.cells[c], th.op, c, w, x, hit)
    requires CanThread(sh, t, th, step) && (step.Unpin? || step.TryLock? || step.Lock?)
    ensures var r := DoThread(sh, t, th, step);
            c in r.0.cells && Stage(r.0.cells[c], r.1.op, c, w, x, hit) && Hist(r.0.cells[c]) == Hist(sh.cells[c])
  {
  }

  lemma {:induction false} StageUnlock(
    sh: Shared, t: Tid, th: Thread, step: SnapCell.Step, c: Cid, w: Work, x: Addr, hit: bool)
    requires c in sh.cells && Reclaims(th.op, c) && Stage(sh.cells[c], th.op, c, w, x, hit)
    requires CanThread(sh, t, th, step) && (step.StoreLen? || step.Unlock?)
    ensures var r := DoThread(sh, t, th, step);
            c in r.0.cells && Stage(r.0.cells[c], r.1.op, c, w, x, hit) && Hist(r.0.cells[c]) == Hist(sh.cells[c])
  {
  }

  lemma {:induction false} StageLoud(
    sh: Shared, t: Tid, th: Thread, step: SnapCell.Step, c: Cid, w: Work, x: Addr, hit: bool)
    requires c in sh.cells && Reclaims(th.op, c) && Stage(sh.cells[c], th.op, c, w, x, hit)
    requires CanThread(sh, t, th, step) && ReclaimStep(step) && w.before <= |Hist(sh.cells[c])|
    ensures var r := DoThread(sh, t, th, step);
            c in r.0.cells && Stage(r.0.cells[c], r.1.op, c, w, x, hit) && w.before <= |Hist(r.0.cells[c])|
  {
    if step.Write? {
      hide Stage, DoWrite, CanWrite;
      StageWrite(sh, t, th, step.a, c, w, x, hit);
    } else {
      hide CanThread, DoThread, Stage;
      if step.Collect? {
        StageCollect(sh, t, th, step, c, w, x, hit);
      } else if step.StoreLen? || step.Unlock? {
        StageUnlock(sh, t, th, step, c, w, x, hit);
      } else {
        StageLock(sh, t, th, step, c, w, x, hit);
      }
    }
  }

  lemma {:induction false} SameStage(y: Cell, z: Cell, op: Op, c: Cid, w: Work, x: Addr, hit: bool)
    requires Stage(y, op, c, w, x, hit) && SameWork(y, z)
    ensures Stage(z, op, c, w, x, hit)
  {
  }

  /** With the thread where it was, or not in a scan before and after, nothing is loaded. */
  lemma {:induction false} NoLoad(s: State, s': State, t: Tid, x: Addr)
    requires t in s.threads && t in s'.threads
    requires s'.threads[t].op == s.threads[t].op || !s.threads[t].op.Scanning? || !s'.threads[t].op.Scanning?
    ensures !Loads(s, s', t, x)
  {
  }

  lemma {:induction false} NextStage(s: State, s': State, t: Tid, c: Cid, w: Work, x: Addr, hit: bool)
    requires StateInv(s) && NextState(s, s') && Alone(s, t, c) && Alone(s', t, c)
    requires Reclaims(s.threads[t].op, c) && Stage(s.sh.cells[c], s.threads[t].op, c, w, x, hit)
    requires w.before <= |Hist(s.sh.cells[c])|
    ensures Stage(s'.sh.cells[c], s'.threads[t].op, c, w, x, hit || Loads(s, s', t, x))
    ensures w.before <= |Hist(s'.sh.cells[c])|
  {
    hide StateInv, CanThread, DoThread, Do, Can, Stage, FramesUse, Loads;
    if s' == s {
      NoLoad(s, s', t, x);
    } else {
      var u, step :| CanStep(s, u, step) && s' == DoStep(s, u, step);
      if u == t {
        OwnStage(s, s', t, step, c, w, x, hit);
      } else {
        NoLoad(s, s', t, x);
        if !step.Spawn? && !step.CloseCell? {
          assert s'.threads[u] == DoThread(s.sh, u, s.threads[u], step).1;
          OutsiderLeaves(s.sh, u, s.threads[u], step, c);
          SameStage(s.sh.cells[c], s'.sh.cells[c], s.threads[t].op, c, w, x, hit);
        } else {
          assert OpUses(s.threads[t].op, c);
        }
      }
    }
  }

  lemma {:induction false} LoadsWhat(s: State, s': State, t: Tid, q: QuietStep, x: Addr)
    requires t in s.threads && t in s.sh.dom.locals && CanQuiet(s.sh, t, s.threads[t], q)
    requires s'.sh == s.sh && t in s'.threads && s'.threads[t] == DoQuiet(s.sh, t, s.threads[t], q)
    ensures var op := s.threads[t].op;
            Loads(s, s', t, x) <==> q.ScanSlot? && x != NULL && SlotAt(s.sh.dom, op.cursor, op.k).ptr == x
  {
  }

  lemma {:induction false} OwnStage(
    s: State, s': State, t: Tid, step: SnapCell.Step, c: Cid, w: Work, x: Addr, hit: bool)
    requires StateInv(s) && t in s.threads && c in s.sh.cells && CanStep(s, t, step) && s' == DoStep(s, t, step)
    requires Reclaims(s.threads[t].op, c) && Stage(s.sh.cells[c], s.threads[t].op, c, w, x, hit)
    requires w.before <= |Hist(s.sh.cells[c])|
    ensures c in s'.sh.cells && t in s'.threads
    ensures Stage(s'.sh.cells[c], s'.threads[t].op, c, w, x, hit || Loads(s, s', t, x))
    ensures w.before <= |Hist(s'.sh.cells[c])|
  {
    hide StateInv, Inv, ThreadOk, CanThread, DoThread, Do, Can, Stage, CanQuiet, DoQuiet, Loads, SlotAt;
    var th := s.threads[t];
    if step.Quiet? {
      EachThread(s, t);
      ThreadOp(s.sh, t, th) by { hide OpOk, AcqOk; }
      QuietOf(s.sh, t, th, step);
      StageQuiet(s.sh, t, th, step.q, c, w, x, hit);
      LoadsWhat(s, s', t, step.q, x);
    } else {
      ReclaimSteps(s.sh, t, th, step, c);
      StageLoud(s.sh, t, th, step, c, w, x, hit);
      NoLoad(s, s', t, x);
    }
  }

  /** From state `a` on, with no other thread in the cell, thread `t` is inside one operation that ends at `e`. */
  ghost predicate WorksAlone(run: seq<State>, a: nat, e: nat, t: Tid, c: Cid) {
    && a < e < |run| && (forall k :: a <= k <= e ==> Alone(run[k], t, c))
    && (forall k :: a <= k < e ==> !run[k].threads[t].op.Idle?) && run[e].threads[t].op.Idle?
  }

  lemma {:induction false} Throughout(run: seq<State>, a: nat, k: nat, e: nat, t: Tid, c: Cid)
    requires WorksAlone(run, a, e, t, c) && a <= k <= e
    ensures Alone(run[k], t, c) && t in run[k].threads && c in run[k].sh.cells
    ensures k < e <==> !run[k].threads[t].op.Idle?
    ensures a < e
  {
  }

  /** Some load in these steps has returned the address. */
  ghost predicate HasLoaded(run: seq<State>, a: nat, k: nat, t: Tid, x: Addr) {
    exists j :: a <= j < k && LoadReturns(run, j, t, x)
  }

  lemma {:induction false} OneMoreLoad(run: seq<State>, a: nat, k: nat, t: Tid, x: Addr)
    requires a <= k && k + 1 < |run|
    ensures HasLoaded(run, a, k + 1, t, x) <==> HasLoaded(run, a, k, t, x) || Loads(run[k], run[k + 1], t, x)
  {
    hide Loads;
    if Loads(run[k], run[k + 1], t, x) { assert LoadReturns(run, k, t, x); }
  }

  lemma {:induction false} StageAt(run: seq<State>, a: nat, k: nat, e: nat, t: Tid, c: Cid, w: Work, x: Addr)
    requires IsRun(run) && WorksAlone(run, a, e, t, c) && a <= k <= e
    requires w.before == |Hist(run[a].sh.cells[c])| && Stage(run[a].sh.cells[c], run[a].threads[t].op, c, w, x, false)
    ensures Stage(run[k].sh.cells[c], run[k].threads[t].op, c, w, x, HasLoaded(run, a, k, t, x))
    ensures w.before <= |Hist(run[k].sh.cells[c])|
  {
    hide NextState, StateInv, Stage, Alone, Reclaims, Loads, HasLoaded;
    Throughout(run, a, k, e, t, c);
    if a < k {
      Throughout(run, a, k - 1, e, t, c);
      StageAt(run, a, k - 1, e, t, c, w, x);
      AtWork(run[k - 1].sh.cells[c], run[k - 1].threads[t].op, c, w, x, HasLoaded(run, a, k - 1, t, x));
      RunKept(run, k - 1);
      assert NextState(run[k - 1], run[k - 1 + 1]);
      NextStage(run[k - 1], run[k], t, c, w, x, HasLoaded(run, a, k - 1, t, x));
      OneMoreLoad(run, a, k - 1, t, x);
    } else {
      NothingYet(run, a, t, x);
    }
  }

  lemma {:induction false} AtWork(y: Cell, op: Op, c: Cid, w: Work, x: Addr, hit: bool)
    requires Stage(y, op, c, w, x, hit) && !op.Idle?
    ensures Reclaims(op, c)
  {
  }

  lemma {:induction false} NothingYet(run: seq<State>, a: nat, t: Tid, x: Addr)
    ensures !HasLoaded(run, a, a, t, x)
  {
  }

  // ----- from the end of a read, from the call of a write ----------------------------------------------

  /** A read of the cell under a hazard ends, not by unwinding, or a `load_arc_if` has decided on its reference. */
  ghost predicate EndsRead(s: State, l: Label, t: Tid, c: Cid) {
    && l.Did? && l.t == t && t in s.threads
    && var th := s.threads[t];
       || (l.step == Quiet(LeaveHazard(false)) && th.frames != [] && TopFrame(th).Hazard? && TopFrame(th).c == c)
       || (l.step.Clone? && th.op.Cloning? && th.op.call.c == c)
  }

  /** The end of a read, or the whole of a write that takes effect: it begins with the label `m`, the lock free,
      and is over at state `e`, with no other thread in the cell meanwhile. */
  ghost predicate WholeWork(run: seq<State>, labels: seq<Label>, m: nat, e: nat, t: Tid, c: Cid) {
    && Labels(run, labels) && m < |labels| && WorksAlone(run, m + 1, e, t, c)
    && c in run[m].sh.cells && run[m].sh.cells[c].lock.Nobody?
    && (|| EndsRead(run[m], labels[m], t, c)
        || (AsksFor(run[m], labels[m], t, c).Some? && |Hist(run[e].sh.cells[c])| > |Hist(run[m].sh.cells[c])|))
  }

  lemma {:induction false} ReadIsReleased(s: State, l: Label, s': State, t: Tid, c: Cid)
    requires LabelOk(s, l, s') && EndsRead(s, l, t, c)
    ensures s'.sh.cells == s.sh.cells && t in s'.threads
    ensures s'.threads[t].op.Unpinning? && s'.threads[t].op.c == c && !s'.threads[t].op.unwinding
  {
  }

  lemma {:induction false} WriteIsCalled(s: State, l: Label, s': State, t: Tid, c: Cid)
    requires LabelOk(s, l, s') && AsksFor(s, l, t, c).Some?
    ensures c in s.sh.cells && c in s'.sh.cells && t in s'.threads
    ensures SameWork(s.sh.cells[c], s'.sh.cells[c])
    ensures s'.threads[t].op.Locking? && s'.threads[t].op.c == c
  {
  }

  lemma {:induction false} FirstStage(run: seq<State>, labels: seq<Label>, m: nat, e: nat, t: Tid, c: Cid, x: Addr)
    requires IsRun(run) && WholeWork(run, labels, m, e, t, c)
    ensures m + 1 < e < |run| && t in run[m + 1].threads && c in run[m + 1].sh.cells && WorksAlone(run, m + 1, e, t, c)
    ensures SameWork(run[m].sh.cells[c], run[m + 1].sh.cells[c])
    ensures var w := WorkAt(run[m + 1], t, c);
            && w.before == |Hist(run[m + 1].sh.cells[c])| && w.reading == EndsRead(run[m], labels[m], t, c)
            && Stage(run[m + 1].sh.cells[c], run[m + 1].threads[t].op, c, w, x, false)
  {
    hide IsRun, StateInv, SharedInv, ActorOk, Alone, LabelOk, EndsRead, AsksFor;
    Throughout(run, m + 1, m + 1, e, t, c);
    LabelAt(run, labels, m);
    if EndsRead(run[m], labels[m], t, c) {
      ReadIsReleased(run[m], labels[m], run[m + 1], t, c);
    } else {
      WriteIsCalled(run[m], labels[m], run[m + 1], t, c);
    }
    RunKept(run, m + 1);
    TheActor(run[m + 1], t);
    SettledPart(run[m + 1].sh, c);
  }

  /** The lists the work may free: those retired when it begins, and the one a write replaces. */
  ghost function MayFree(run: seq<State>, labels: seq<Label>, m: nat, t: Tid, c: Cid): seq<Addr>
    requires m < |labels| && m < |run| && c in run[m].sh.cells
  {
    var x := run[m].sh.cells[c];
    if EndsRead(run[m], labels[m], t, c) then x.retired else x.retired + [x.current]
  }

  /** When the work is done the lock is free, the length word is right, and the retired vector holds exactly
      the lists the work might have freed that some load of its scan returned. */
  lemma {:induction false} ReclaimIsExact(run: seq<State>, labels: seq<Label>, m: nat, e: nat, t: Tid, c: Cid, x: Addr)
    requires IsRun(run) && WholeWork(run, labels, m, e, t, c)
    ensures var y := run[e].sh.cells[c]; y.lock.Nobody? && y.retiredLen == |y.retired|
    ensures x in run[e].sh.cells[c].retired <==>
              x in MayFree(run, labels, m, t, c) && exists k :: m < k < e && LoadReturns(run, k, t, x)
  {
    hide IsRun, Alone, LoadReturns, EndsRead, AsksFor, LabelOk;
    FirstStage(run, labels, m, e, t, c, x);
    Throughout(run, m + 1, e, e, t, c);
    StageAt(run, m + 1, e, e, t, c, WorkAt(run[m + 1], t, c), x);
  }

  /** And each of these loads was of a read the thread itself was inside, or of an announcement that a thread
      calling another cell had not validated. */
  lemma {:induction false} KeptIsHeld(
    run: seq<State>, labels: seq<Label>, m: nat, e: nat, t: Tid, c: Cid, x: Addr, k: nat) returns (u: Tid)
    requires IsRun(run) && WholeWork(run, labels, m, e, t, c)
    requires x in run[e].sh.cells[c].retired && m < k < e && LoadReturns(run, k, t, x)
    ensures u in run[k].threads
    ensures var th, i := run[k].threads[u], Index(run[k], t, Scanner);
            && OwnSlot(run[k].sh.dom, u, i) == SlotAt(run[k].sh.dom, Cursor(run[k], t, Scanner), i)
            && (|| (u != t && StrayAnnouncement(th, OwnSlot(run[k].sh.dom, u, i), i, c))
                || (u == t && OwnRead(th, OwnSlot(run[k].sh.dom, u, i), i, c)))
  {
    hide IsRun, StateInv, Alone, StrayAnnouncement, OwnRead, EndsRead, AsksFor, LabelOk;
    ReclaimIsExact(run, labels, m, e, t, c, x);
    FirstStage(run, labels, m, e, t, c, x);
    StageAt(run, m + 1, k, e, t, c, WorkAt(run[m + 1], t, c), x);
    Throughout(run, m + 1, k, e, t, c);
    RunKept(run, k);
    u := WhoHoldsRetired(run[k], t, c, Cursor(run[k], t, Scanner), Index(run[k], t, Scanner));
  }

  /** The thread is not inside a hazard read of the cell and no announcement anywhere is still unvalidated. */
  ghost predicate NothingHeld(s: State, t: Tid, c: Cid) {
    && (forall u :: u in s.threads ==> !s.threads[u].op.Validating? && !s.threads[u].op.Announcing?)
    && t in s.threads
    && (forall i :: 0 <= i < |s.threads[t].frames| && s.threads[t].frames[i].Hazard? ==> s.threads[t].frames[i].c != c)
  }

  /** With nothing held meanwhile the work leaves the retired vector empty. */
  lemma {:induction false} ReclaimEmptiesRetired(run: seq<State>, labels: seq<Label>, m: nat, e: nat, t: Tid, c: Cid)
    requires IsRun(run) && WholeWork(run, labels, m, e, t, c)
    requires forall k :: m < k < e ==> NothingHeld(run[k], t, c)
    ensures var y := run[e].sh.cells[c]; y.retired == [] && y.retiredLen == 0 && y.lock.Nobody?
  {
    hide IsRun, WorksAlone, NothingHeld, EndsRead, AsksFor, LabelOk;
    FirstStage(run, labels, m, e, t, c, NULL);
    Throughout(run, m + 1, e, e, t, c);
    var retired := run[e].sh.cells[c].retired;
    var x := if retired == [] then NULL else retired[0];
    ReclaimIsExact(run, labels, m, e, t, c, x);
    if retired != [] {
      var k :| m < k < e && LoadReturns(run, k, t, x);
      var u := KeptIsHeld(run, labels, m, e, t, c, x, k);
      assert NothingHeld(run[k], t, c);
      HeldMeanwhile(run[k], t, c, u, Index(run[k], t, Scanner));
    }
  }

  lemma {:induction false} HeldMeanwhile(s: State, t: Tid, c: Cid, u: Tid, k: nat)
    requires u in s.threads && (u == t ==> OwnRead(s.threads[u], OwnSlot(s.sh.dom, u, k), k, c))
    requires u != t ==> StrayAnnouncement(s.threads[u], OwnSlot(s.sh.dom, u, k), k, c)
    ensures !NothingHeld(s, t, c)
  {
  }

  // ----- a reader that sees something retired scans ---------------------------------------------------------

  /** Not scanned yet: it is on its way to the lock with something to free, or has it. */
  ghost predicate WillScan(y: Cell, op: Op, c: Cid) {
    && Reclaims(op, c)
    && (op.ScanStart? || (OnTheWayOut(op) && y.lock.Nobody? && y.retired != [] && y.retiredLen == |y.retired|))
  }

  ghost predicate ScanNext(y: Cell, op: Op, c: Cid) { WillScan(y, op, c) || (op.Scanning? && op.c == c) }

  lemma {:induction false} QuietScan(sh: Shared, t: Tid, th: Thread, q: QuietStep, c: Cid)
    requires c in sh.cells && CanQuiet(sh, t, th, q) && WillScan(sh.cells[c], th.op, c)
    ensures ScanNext(sh.cells[c], DoQuiet(sh, t, th, q).op, c)
  {
  }

  lemma {:induction false} LoudScan(sh: Shared, t: Tid, th: Thread, step: SnapCell.Step, c: Cid)
    requires c in sh.cells && CanThread(sh, t, th, step) && WillScan(sh.cells[c], th.op, c) && ReclaimStep(step)
    ensures var r := DoThread(sh, t, th, step); c in r.0.cells && ScanNext(r.0.cells[c], r.1.op, c)
  {
    hide IsSplit, MoveOut, DoWrite;
  }

  lemma {:induction false} OwnScan(sh: Shared, t: Tid, th: Thread, step: SnapCell.Step, c: Cid)
    requires c in sh.cells && CanThread(sh, t, th, step) && WillScan(sh.cells[c], th.op, c)
    ensures var r := DoThread(sh, t, th, step); c in r.0.cells && ScanNext(r.0.cells[c], r.1.op, c)
  {
    hide CanThread, DoThread, CanQuiet, DoQuiet, ScanNext;
    if step.Quiet? {
      QuietOf(sh, t, th, step);
      QuietScan(sh, t, th, step.q, c);
    } else {
      ReclaimSteps(sh, t, th, step, c);
      LoudScan(sh, t, th, step, c);
    }
  }

  lemma {:induction false} NextWillScan(s: State, s': State, t: Tid, c: Cid)
    requires NextState(s, s') && Alone(s, t, c) && Alone(s', t, c) && WillScan(s.sh.cells[c], s.threads[t].op, c)
    ensures ScanNext(s'.sh.cells[c], s'.threads[t].op, c)
  {
    hide CanThread, DoThread, Do, Can, FramesUse;
    if s' != s {
      var u, step :| CanStep(s, u, step) && s' == DoStep(s, u, step);
      if u == t {
        OwnScan(s.sh, t, s.threads[t], step, c);
      } else if !step.Spawn? && !step.CloseCell? {
        assert s'.threads[u] == DoThread(s.sh, u, s.threads[u], step).1;
        OutsiderLeaves(s.sh, u, s.threads[u], step, c);
      } else {
        assert OpUses(s.threads[t].op, c);
      }
    }
  }

  lemma {:induction false} ScanComes(run: seq<State>, a: nat, e: nat, t: Tid, c: Cid) returns (k: nat)
    requires IsRun(run) && WorksAlone(run, a, e, t, c) && WillScan(run[a].sh.cells[c], run[a].threads[t].op, c)
    ensures a < k < e && run[k].threads[t].op.Scanning? && run[k].threads[t].op.c == c
    decreases e - a
  {
    hide NextState, Alone, WillScan;
    Throughout(run, a, a, e, t, c);
    Throughout(run, a, a + 1, e, t, c);
    assert NextState(run[a], run[a + 1]);
    NextWillScan(run[a], run[a + 1], t, c);
    NotIdleYet(run[a + 1].sh.cells[c], run[a + 1].threads[t].op, c);
    k := a + 1;
    if !run[k].threads[t].op.Scanning? { k := ScanComes(run, a + 1, e, t, c); }
  }

  lemma {:induction false} NotIdleYet(y: Cell, op: Op, c: Cid)
    ensures WillScan(y, op, c) ==> !op.Idle? && !op.Scanning?
  {
  }

  /** A read that ends, not by unwinding, with something retired and the lock free always scans. */
  lemma {:induction false} ReadAlwaysScans(run: seq<State>, labels: seq<Label>, m: nat, e: nat, t: Tid, c: Cid)
    returns (k: nat)
    requires IsRun(run) && WholeWork(run, labels, m, e, t, c)
    requires EndsRead(run[m], labels[m], t, c) && run[m].sh.cells[c].retiredLen != 0
    ensures m < k < e && run[k].threads[t].op.Scanning? && run[k].threads[t].op.c == c
  {
    hide IsRun, Alone, LabelOk, EndsRead, AsksFor;
    FirstStage(run, labels, m, e, t, c, NULL);
    LabelAt(run, labels, m);
    ReadIsReleased(run[m], labels[m], run[m + 1], t, c);
    k := ScanComes(run, m + 1, e, t, c);
  }

  // ----- a reader that sees nothing retired takes no lock ------------------------------------------------------

  /** Leaving without the lock: dropping the announcement, then one look at the length word. */
  predicate LeavesLightly(op: Op, c: Cid) { ((op.Unpinning? && !op.unwinding) || op.Checking?) && op.c == c }

  lemma {:induction false} LightStep(sh: Shared, t: Tid, th: Thread, step: SnapCell.Step, c: Cid)
    requires CanThread(sh, t, th, step) && LeavesLightly(th.op, c) && c in sh.cells && sh.cells[c].retiredLen == 0
    ensures var th' := DoThread(sh, t, th, step).1;
            th'.frames == th.frames && (LeavesLightly(th'.op, c) || (th.op.Checking? && th'.op.Idle?))
  {
    hide Do, Can, Unref, Apply, IsSplit, MoveOut, StoreSlot, FreeSlot;
  }

  lemma {:induction false} NextLight(s: State, s': State, t: Tid, c: Cid)
    requires NextState(s, s') && t in s.threads && LeavesLightly(s.threads[t].op, c)
    requires c in s.sh.cells && s.sh.cells[c].retiredLen == 0
    ensures t in s'.threads && (LeavesLightly(s'.threads[t].op, c) || s'.threads[t].op.Idle?)
  {
    hide CanThread, DoThread, Do, Can;
    if s' != s {
      var u, step :| CanStep(s, u, step) && s' == DoStep(s, u, step);
      if u == t { LightStep(s.sh, t, s.threads[t], step, c); }
    }
  }

  /** A read that ends, not by unwinding, while nothing is retired is over without its thread ever being at the
      lock, whoever else is in the cell. */
  lemma {:induction false} ReadTakesNoLock(run: seq<State>, labels: seq<Label>, m: nat, e: nat, t: Tid, c: Cid)
    requires IsRun(run) && Labels(run, labels) && m < |labels| && m < e < |run| && EndsRead(run[m], labels[m], t, c)
    requires forall k :: m < k <= e ==>
               t in run[k].threads && c in run[k].sh.cells && run[k].sh.cells[c].retiredLen == 0
    requires forall k :: m < k < e ==> !run[k].threads[t].op.Idle?
    ensures LeavesLightly(run[e].threads[t].op, c) || run[e].threads[t].op.Idle?
  {
    hide NextState, LabelOk, EndsRead;
    if e == m + 1 {
      LabelAt(run, labels, m);
      ReadIsReleased(run[m], labels[m], run[e], t, c);
    } else {
      ReadTakesNoLock(run, labels, m, e - 1, t, c);
      assert NextState(run[e - 1], run[e - 1 + 1]);
      NextLight(run[e - 1], run[e], t, c);
    }
  }
}
