/** No thread is ever stuck on its own account: the accesses the steps are guarded by (a list being
    allocated, a slot being owned, a counter being positive) always succeed, so a thread inside an
    operation has a step unless the writer lock is taken or a waiter still has someone to wait for. */
module SnapProgress {
  import opened HazardDomain
  import opened SnapCell
  import opened SnapInvariant
  import opened SnapStable
  import opened SnapQuiet
  import opened SnapReader
  import opened SnapLock
  import opened SnapUser
  import opened SnapHeap
  import opened SnapSafety
  import opened SnapWait
  import opened SnapResults

  /** The waits the source makes on purpose: for the mutex, and for the fallback readers to leave. */
  predicate Blocked(sh: Shared, op: Op) {
    match op
    case Locking(c, _) => c in sh.cells && sh.cells[c].lock.By?
    case FbLocking(call, _) => call.c in sh.cells && sh.cells[call.c].lock.By?
    case WaitCopy(w) => w.c in sh.cells && sh.cells[w.c].lock.By?
    case WaitCheck(w) => w.c in sh.cells && !w.onFallback && sh.cells[w.c].fallbackReaders > 0
    case _ => false
  }

  // ----- fresh addresses and partitions -------------------------------------------------------

  lemma {:induction false} AFreshOne(s: set<nat>) returns (n: nat)
    ensures n != 0 && n !in s
  {
    var m := Above(s);
    n := m + 1;
  }

  lemma {:induction false} Above(s: set<nat>) returns (m: nat)
    ensures forall x :: x in s ==> x <= m
  {
    if s == {} {
      m := 0;
    } else {
      var x :| x in s;
      m := Above(s - {x});
      assert forall y :: y in s ==> y == x || y in s - {x};
      if m < x { m := x; }
    }
  }

  lemma {:induction false} SplitExists(retired: seq<Addr>, found: seq<Addr>) returns (kept: seq<Addr>, freed: seq<Addr>)
    ensures IsSplit(retired, found, kept, freed)
  {
    if retired == [] {
      kept, freed := [], [];
    } else {
      var n := |retired| - 1;
      kept, freed := SplitExists(retired[..n], found);
      assert retired == retired[..n] + [retired[n]];
      if retired[n] in found { kept := kept + [retired[n]]; } else { freed := freed + [retired[n]]; }
    }
  }

  // ----- one group of operations after another --------------------------------------------------

  predicate SlotOp(op: Op) { op.Validating? || op.Announcing? || op.Cloning? || op.Unpinning? || op.Loading? }

  lemma {:induction false} SlotProgress(sh: Shared, t: Tid, th: Thread) returns (step: SnapCell.Step)
    requires SharedInv(sh) && ThreadOk(sh, t, th) && SlotOp(th.op)
    ensures CanThread(sh, t, th, step) && Helps(sh, t, th, step)
  {
    hide SharedInv, ThreadOk, HeapInv, CellsInv, SlotsInv, Inv, LocksOk, ScanOk, WaitOk, PendingOk, OpOwns;
    ThreadOp(sh, t, th);
    DomPart(sh);
    SlotsPart(sh);
    if th.op.Cloning? {
      ClonedIsAllocated(sh, t, th);
      step := Clone(true);
    } else if th.op.Unpinning? {
      OwnRecord(sh.dom, t, th.op.k);
      step := Unpin;
    } else {
      assert OpenIn(sh.cells, th.op.call.c);
      CurrentIsAllocated(sh, th.op.call.c);
      if th.op.Loading? {
        step := Quiet(LoadCurrent(sh.cells[th.op.call.c].current));
      } else {
        OwnRecord(sh.dom, t, th.op.k);
        step := if th.op.Announcing? then Announce
                else if sh.cells[th.op.call.c].current == th.op.p then Validate else Quiet(Mismatch);
      }
    }
  }

  /** A call makes no needless detour: it loads the current list, and pushes its record when it can. */
  predicate Helps(sh: Shared, t: Tid, th: Thread, step: SnapCell.Step) {
    && (th.op.Loading? && th.op.call.c in sh.cells ==> step == Quiet(LoadCurrent(sh.cells[th.op.call.c].current)))
    && (th.op.Pinning? && t in sh.dom.locals && sh.dom.locals[t].acq.Pushing?
        && sh.dom.locals[t].acq.expected == sh.dom.head ==>
          step == Hazards(Publish))
  }

  lemma {:induction false} PinningProgress(sh: Shared, t: Tid, th: Thread) returns (step: SnapCell.Step)
    requires Inv(sh.dom) && t in sh.dom.locals && AcqOk(sh.dom.locals[t], th) && th.op.Pinning?
    ensures CanThread(sh, t, th, step) && Helps(sh, t, th, step)
  {
    hide CountInv;
    var d := sh.dom;
    var l := d.locals[t];
    assert LocalOk(l, t, d.recs);
    if !l.tls {
      step := Quiet(PinFails);
    } else {
      match l.acq
      case Resting =>
        if l.record == NULL {
          step := Hazards(Enter);
        } else {
          HasRecord(d, t);
          step := if FreeSlot(sh, t) < SLOTS then Pin else Quiet(PinFails);
        }
      case Entering => step := Hazards(LoadHead);
      case Walking(r) =>
        if r == NULL {
          var rid := AFreshOne(d.recs.Keys);
          step := Hazards(Allocate(rid, d.head));
        } else {
          step := Hazards(if d.recs[r].inUse then Skip else Claim);
        }
      case Pushing(_, expected) => step := Hazards(if expected == d.head then Publish else Retry);
      case Clearing(_) => assert false;
    }
  }

  lemma {:induction false} ExitProgress(sh: Shared, t: Tid, th: Thread) returns (step: SnapCell.Step)
    requires Inv(sh.dom) && t in sh.dom.locals && AcqOk(sh.dom.locals[t], th) && th.op.Exiting?
    ensures CanThread(sh, t, th, step)
  {
    var d := sh.dom;
    var l := d.locals[t];
    assert LocalOk(l, t, d.recs) && RecordOk(d.recs[l.record], l.record, d.locals);
    step := Hazards(if l.acq.k < SLOTS then ClearSlot else Release);
  }

  lemma {:induction false} TellProgress(sh: Shared, t: Tid, th: Thread) returns (step: SnapCell.Step)
    requires ThreadOk(sh, t, th) && th.op.Telling?
    ensures CanThread(sh, t, th, step)
  {
    hide ThreadOk, LocksOk, ScanOk, WaitOk, PendingOk, OpOwns;
    ThreadOp(sh, t, th);
    assert OpenIn(sh.cells, th.op.c);
    step := Tell;
  }

  predicate LockOp(op: Op) {
    op.Checking? || op.TryLocking? || op.ScanStart? || op.Scanning? || op.Storing? || op.Unlocking? || op.Locking?
        || op.Writing?
  }

  lemma {:induction false} LockPart(sh: Shared, t: Tid, n: nat, op: Op)
    requires OpOk(sh, t, n, op) && LockOp(op)
    ensures OpenIn(sh.cells, op.c) && (op.Scanning? ==> op.k <= SLOTS)
  {
    assert OpenIn(sh.cells, op.c);
  }

  lemma {:induction false} ScanProgress(sh: Shared, t: Tid, th: Thread) returns (step: SnapCell.Step)
    requires th.op.Scanning? && OpenIn(sh.cells, th.op.c) && th.op.k <= SLOTS
    ensures CanThread(sh, t, th, step)
  {
    hide IsSplit;
    if th.op.cursor != NULL {
      step := Quiet(if th.op.k < SLOTS then ScanSlot else ScanRecord);
    } else {
      var kept, freed := SplitExists(sh.cells[th.op.c].retired, th.op.found);
      step := Collect(kept, freed);
    }
  }

  lemma {:induction false} WriteProgress(sh: Shared, t: Tid, th: Thread) returns (step: SnapCell.Step)
    requires SharedInv(sh) && th.op.Writing? && OpenIn(sh.cells, th.op.c)
    ensures CanThread(sh, t, th, step)
  {
    hide SharedInv, HeapInv, CellsInv, SlotsInv;
    SlotsPart(sh);
    CurrentIsAllocated(sh, th.op.c);
    var a := AFreshOne(sh.heap.Keys);
    step := Write(a);
  }

  lemma {:induction false} LockProgress(sh: Shared, t: Tid, th: Thread) returns (step: SnapCell.Step)
    requires SharedInv(sh) && ThreadOk(sh, t, th) && LockOp(th.op) && !Blocked(sh, th.op)
    ensures CanThread(sh, t, th, step)
  {
    hide SharedInv, ThreadOk, OpOk;
    ThreadOp(sh, t, th);
    LockPart(sh, t, |th.frames|, th.op);
    if th.op.Scanning? {
      step := ScanProgress(sh, t, th);
    } else if th.op.Writing? {
      step := WriteProgress(sh, t, th);
    } else {
      step := if th.op.Checking? then Quiet(CheckRetired) else if th.op.TryLocking? then TryLock
              else if th.op.ScanStart? then Quiet(StartScan) else if th.op.Storing? then StoreLen
              else if th.op.Unlocking? then Unlock else Lock;
    }
  }

  predicate FallbackOp(op: Op) { op.Counting? || op.FbLocking? || op.FbCloning? || op.FbUnlocking? }

  lemma {:induction false} FallbackProgress(sh: Shared, t: Tid, th: Thread) returns (step: SnapCell.Step)
    requires SharedInv(sh) && ThreadOk(sh, t, th) && FallbackOp(th.op) && !Blocked(sh, th.op)
    ensures CanThread(sh, t, th, step)
  {
    hide SharedInv, ThreadOk, HeapInv, CellsInv, SlotsInv, StrongInv, LocksOk, WaitOk, ScanOk, PendingOk;
    ThreadOp(sh, t, th);
    SlotsPart(sh);
    HandlesPart(sh);
    assert OpenIn(sh.cells, th.op.call.c);
    CurrentIsAllocated(sh, th.op.call.c);
    step := if th.op.Counting? then Count else if th.op.FbLocking? then FbLock else if th.op.FbCloning?
        then FbClone else FbUnlock;
  }

  lemma {:induction false} WaitPart(sh: Shared, t: Tid, n: nat, op: Op)
    requires OpOk(sh, t, n, op) && InWait(op)
    ensures op.w.c in sh.cells && (op.WaitScan? ==> op.todo != [] && op.k <= SLOTS)
  {
  }

  lemma {:induction false} WaitProgress(sh: Shared, t: Tid, th: Thread) returns (q: QuietStep)
    requires ThreadOk(sh, t, th) && InWait(th.op) && !Blocked(sh, th.op)
    ensures CanQuiet(sh, t, th, q)
  {
    hide ThreadOk, OpOk;
    ThreadOp(sh, t, th);
    var op := th.op;
    WaitPart(sh, t, |th.frames|, op);
    if op.WaitCheck? {
      q := SeeNoFallback;
    } else if op.WaitCopy? {
      q := CopyRetired;
    } else if op.WaitNext? {
      q := if op.todo == [] then WaitReturns else StartOthers;
    } else if op.cursor == NULL {
      q := OthersDone;
    } else {
      q := if op.cursor == sh.dom.locals[t].record || op.k == SLOTS then OthersRecord else OthersSlot;
    }
  }

  lemma {:induction false} QuietProgress(sh: Shared, t: Tid, th: Thread, q: QuietStep)
    requires CanQuiet(sh, t, th, q)
    ensures CanThread(sh, t, th, Quiet(q))
  {
    hide CanQuiet;
  }

  /** The step that takes a thread on in what is on top of its stack: a dispatch calls its next handler, any
      other frame comes to its end. */
  predicate Finishes(f: Frame, step: SnapCell.Step) {
    if IsRead(f) && !Complete(f) then step.CallHandler?
    else
      match f
      case Hazard(_, _, _, _, _, _, _, _) => step == Quiet(LeaveHazard(false))
      case Fallback(_, _, _, _, _, _, _, _, _) => step == FbRelease(false)
      case Leaving(_, _) => step.Uncount?
      case Dropping(_) => step.DropOne?
      case Handler(_, _) => step == HandlerEnds(false)
      case Body(_, _) => step == FinishBody(true)
      case Callback(_, _) => step == CallbackEnds(false)
  }

  /** Between operations a thread can finish whatever is on top of its stack. */
  lemma {:induction false} FrameProgress(sh: Shared, t: Tid, th: Thread) returns (step: SnapCell.Step)
    requires SharedInv(sh) && ThreadOk(sh, t, th) && Top(th)
    ensures CanThread(sh, t, th, step)
    ensures Finishes(TopFrame(th), step)
  {
    hide SharedInv, ThreadOk, CountersInv;
    var f, n := TopFrame(th), |th.frames| - 1;
    Frames(sh, t, th);
    assert FrameOk(sh, t, n, f);
    if IsRead(f) { ReaderSees(sh, t, th, n); }
    if f.Leaving? {
      CountersPart(sh);
      SomeoneCounted(sh, f.c, f.tok);
    }
    step := if IsRead(f) && !Complete(f) then CallHandler
            else if f.Hazard? then Quiet(LeaveHazard(false)) else if f.Fallback? then FbRelease(false)
            else if f.Leaving? then Uncount else if f.Dropping? then DropOne
            else if f.Handler? then HandlerEnds(false) else if f.Callback?
                then CallbackEnds(false) else FinishBody(true);
  }

  lemma {:induction false} SomeoneCounted(sh: Shared, c: Cid, tok: Tok)
    requires CountersInv(sh.cells, sh.nextTok) && c in sh.cells && tok in sh.cells[c].counted
    ensures sh.cells[c].fallbackReaders > 0
  {
    assert CounterOk(sh.cells[c], sh.nextTok);
    assert sh.cells[c].counted != map[];
  }

  lemma {:induction false} OpProgress(sh: Shared, t: Tid, th: Thread) returns (step: SnapCell.Step)
    requires SharedInv(sh) && ThreadOk(sh, t, th) && !th.op.Idle? && !Blocked(sh, th.op)
    ensures CanThread(sh, t, th, step) && Helps(sh, t, th, step)
  {
    hide SharedInv, ThreadOk, CanThread, CanQuiet, Inv, AcqOk, Blocked;
    DomPart(sh);
    ThreadOp(sh, t, th);
    if SlotOp(th.op) {
      step := SlotProgress(sh, t, th);
    } else if th.op.Pinning? {
      step := PinningProgress(sh, t, th);
    } else if th.op.Exiting? {
      step := ExitProgress(sh, t, th);
    } else if th.op.Telling? {
      step := TellProgress(sh, t, th);
    } else if LockOp(th.op) {
      step := LockProgress(sh, t, th);
    } else if FallbackOp(th.op) {
      step := FallbackProgress(sh, t, th);
    } else {
      var q := WaitProgress(sh, t, th);
      QuietProgress(sh, t, th, q);
      step := Quiet(q);
    }
  }

  /** In every state of every run, a thread that is inside an operation or a frame has a step of its own,
      unless it waits for the writer lock or for fallback readers. */
  lemma {:induction false} NoThreadIsStuck(run: seq<State>, j: nat, t: Tid) returns (step: SnapCell.Step)
    requires IsRun(run) && j < |run| && t in run[j].threads && !Blocked(run[j].sh, run[j].threads[t].op)
    requires !run[j].threads[t].op.Idle? || run[j].threads[t].frames != []
    ensures CanStep(run[j], t, step) && CanThread(run[j].sh, t, run[j].threads[t], step)
    ensures Helps(run[j].sh, t, run[j].threads[t], step)
    ensures run[j].threads[t].op.Idle? ==> Finishes(TopFrame(run[j].threads[t]), step)
  {
    hide IsRun, StateInv, SharedInv, ActorOk, ThreadOk, Blocked, Finishes;
    var sh, th := run[j].sh, run[j].threads[t];
    RunKept(run, j);
    TheActor(run[j], t);
    ActorThread(sh, t, th);
    if th.op.Idle? { step := FrameProgress(sh, t, th); } else { step := OpProgress(sh, t, th); }
  }
}
