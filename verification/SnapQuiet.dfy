/** Steps that change only the acting thread's operation keep the invariant. */
module SnapQuiet {
  import opened HazardDomain
  import opened SnapCell
  import opened SnapInvariant
  import opened SnapStable

  /** Everything a step of `t` has to deliver. */
  ghost predicate Good(sh: Shared, after: Shared, t: Tid, th: Thread, gone: set<Cid>) {
    && SharedInv(after)
    && after.dom.locals.Keys == sh.dom.locals.Keys + {t}
    && Guarantee(sh, after, t, gone)
    && ActorOk(after, t, th)
  }

  lemma {:induction false} CellRefl(x: Cell, u: Tid)
    ensures CellG(x, x, u)
  {
  }

  lemma {:induction false} CellsRefl(cells: map<Cid, Cell>, u: Tid)
    ensures CellsG(cells, cells, u, {})
  {
    forall c | c in cells ensures CellG(cells[c], cells[c], u) { CellRefl(cells[c], u); }
  }

  lemma {:induction false} DomRefl(d: Domain, u: Tid, cells: map<Cid, Cell>)
    ensures DomG(d, d, u) && SlotsG(d, d, cells)
  {
  }

  lemma {:induction false} NoChange(sh: Shared, u: Tid)
    ensures Guarantee(sh, sh, u, {})
  {
    CellsRefl(sh.cells, u);
    DomRefl(sh.dom, u, sh.cells);
  }

  /** The part of `ThreadOk` about the operation on top of `n` frames. */
  ghost predicate OpOk(sh: Shared, t: Tid, n: nat, op: Op) {
    && OpReads(sh.cells, op)
    && OpPins(sh.dom, t, n, op)
    && LocksOk(sh.cells, |sh.dom.chain|, t, op)
    && (op.Storing? || op.Unlocking? ==> Takes(sh.heap, t, n, op.freed))
    && OpOwns(sh, t, n, op)
    && PendingOk(sh.cells, t, op)
    && ScanOk(sh.dom, sh.cells, op)
    && WaitOk(sh.dom, sh.cells, t, op)
    && (forall c :: OpUses(op, c) ==> OpenIn(sh.cells, c))
  }

  /** Operations that answer for no slot, no taken list and no one-shot body. */
  predicate Light(op: Op) {
    && !op.Validating? && !op.Announcing? && !op.Cloning? && !op.Unpinning?
    && !op.Storing? && !op.Unlocking? && !op.Locking? && !op.Writing? && !op.Exiting?
  }

  /** The acting thread moves on to another operation, the shared state as it is. */
  lemma {:induction false} NewOp(sh: Shared, t: Tid, th: Thread, op: Op)
    requires ActorOk(sh, t, th) && OpOk(sh, t, |th.frames|, op)
    requires AcqOk(sh.dom.locals[t], th.(op := op))
    requires PinsBacked(sh.dom, t, th.(op := op))
    requires !th.op.Storing? && !th.op.Unlocking? && !th.op.Locking? && !th.op.Writing?
    ensures ActorOk(sh, t, th.(op := op))
  {
    var th' := th.(op := op);
    assert forall i :: 0 <= i < |th'.frames| ==> th'.frames[i] == th.frames[i];
    assert CallsOk(sh.cells, th') && PinsOk(sh.dom, t, th') && TakesOk(sh.heap, t, th') && OwnsOk(sh, t, th')
        && UsesOk(sh.cells, th');
  }

  lemma {:induction false} LightBacked(d: Domain, t: Tid, th: Thread, op: Op)
    requires PinsBacked(d, t, th) && Light(th.op)
    ensures PinsBacked(d, t, th.(op := op))
  {
    var th' := th.(op := op);
    forall k | OwnSlot(d, t, k) != EMPTY ensures SlotBacked(th', OwnSlot(d, t, k), k) {
      assert SlotBacked(th, OwnSlot(d, t, k), k);
    }
  }

  /** A light operation gives way to any operation that is itself in order. */
  lemma {:induction false} LightOp(sh: Shared, t: Tid, th: Thread, op: Op)
    requires SharedInv(sh) && ActorOk(sh, t, th) && Light(th.op) && !op.Exiting?
    requires th.op.Pinning? && !op.Pinning? ==> t in sh.dom.locals && sh.dom.locals[t].acq.Resting?
    requires OpOk(sh, t, |th.frames|, op)
    ensures Good(sh, sh, t, th.(op := op), {})
  {
    NoChange(sh, t);
    LightBacked(sh.dom, t, th, op);
    NewOp(sh, t, th, op);
  }

  lemma {:induction false} ThreadOp(sh: Shared, t: Tid, th: Thread)
    requires ThreadOk(sh, t, th)
    ensures OpOk(sh, t, |th.frames|, th.op) && t in sh.dom.locals && AcqOk(sh.dom.locals[t], th)
  {
  }

  /** `ThreadOp` for the thread whose step it is. */
  lemma {:induction false} CurrentOp(sh: Shared, t: Tid, th: Thread)
    requires ActorOk(sh, t, th)
    ensures OpOk(sh, t, |th.frames|, th.op) && t in sh.dom.locals && AcqOk(sh.dom.locals[t], th)
  {
    hide ThreadOk;
    ThreadOp(sh, t, th);
  }

  lemma {:induction false} DomPart(sh: Shared)
    requires SharedInv(sh)
    ensures Inv(sh.dom)
  {
  }

  lemma {:induction false} SlotsPart(sh: Shared)
    requires SharedInv(sh)
    ensures HeapInv(sh.heap, sh.cells) && CellsInv(sh.cells, sh.heap) && SlotsInv(sh.dom, sh.heap)
  {
  }

  lemma {:induction false} CountersPart(sh: Shared)
    requires SharedInv(sh)
    ensures CountersInv(sh.cells, sh.nextTok)
  {
  }

  // ----- starting calls ----------------------------------------------------------

  predicate StartsCall(q: QuietStep) {
    q.BeginRead? || q.LoadCurrent? || q.PinFails? || q.CheckRetired? || q.BeginWrite? || q.BeginWait?
  }

  lemma {:induction false} StartOp(sh: Shared, t: Tid, th: Thread, q: QuietStep)
    requires OpOk(sh, t, |th.frames|, th.op) && CanQuiet(sh, t, th, q) && StartsCall(q)
    ensures OpOk(sh, t, |th.frames|, DoQuiet(sh, t, th, q).op)
  {
    if q.CheckRetired? { assert OpenIn(sh.cells, th.op.c); }
    if q.LoadCurrent? || q.PinFails? { assert OpenIn(sh.cells, th.op.call.c); }
  }

  lemma {:induction false} StartKept(sh: Shared, t: Tid, th: Thread, q: QuietStep)
    requires SharedInv(sh) && ActorOk(sh, t, th) && CanQuiet(sh, t, th, q) && StartsCall(q)
    ensures Good(sh, sh, t, DoQuiet(sh, t, th, q), {})
  {
    hide Good, SharedInv, ActorOk, OpOk, Inv;
    CurrentOp(sh, t, th);
    StartOp(sh, t, th, q);
    if q.PinFails? { PinFailsRests(sh, t, th); }
    LightOp(sh, t, th, DoQuiet(sh, t, th, q).op);
  }

  /** A thread without live thread-local storage is acquiring nothing. */
  lemma {:induction false} PinFailsRests(sh: Shared, t: Tid, th: Thread)
    requires SharedInv(sh) && t in sh.dom.locals && AcqOk(sh.dom.locals[t], th) && CanQuiet(sh, t, th, PinFails)
    ensures sh.dom.locals[t].acq.Resting?
  {
    assert LocalOk(sh.dom.locals[t], t, sh.dom.recs);
  }

  /** No published record is ahead of the head. */
  lemma {:induction false} HeadIsNewest(d: Domain)
    requires Inv(d)
    ensures RankOf(d, d.head) == |d.chain| - 1
    ensures forall r :: RankOf(d, r) <= |d.chain| - 1
    ensures CursorOk(d, d.head)
  {
    if |d.chain| > 0 { assert Linked(d.recs, d.chain, |d.chain| - 1); }
    forall r ensures RankOf(d, r) <= |d.chain| - 1 {
      if r in d.recs { assert Ranked(d.recs[r], r, d.chain); }
    }
  }

  /** Moving to `next` goes down one rank. */
  lemma {:induction false} NextIsOlder(d: Domain, r: Rid)
    requires Inv(d) && RankOf(d, r) >= 0
    ensures RankOf(d, NextOf(d, r)) == RankOf(d, r) - 1
    ensures CursorOk(d, NextOf(d, r))
    ensures forall q :: RankOf(d, q) == RankOf(d, r) ==> q == r
  {
    var i := d.recs[r].rank;
    assert Ranked(d.recs[r], r, d.chain);
    assert Linked(d.recs, d.chain, i);
    if i > 0 { assert Linked(d.recs, d.chain, i - 1); }
    forall q | RankOf(d, q) == i ensures q == r {
      assert Ranked(d.recs[q], q, d.chain);
    }
  }

  // ----- the writer's scan ---------------------------------------------------------

  lemma {:induction false} StartScanOp(sh: Shared, t: Tid, th: Thread)
    requires OpOk(sh, t, |th.frames|, th.op) && CanQuiet(sh, t, th, StartScan) && Inv(sh.dom)
    ensures OpOk(sh, t, |th.frames|, DoQuiet(sh, t, th, StartScan).op)
  {
    hide Inv;
    HeadIsNewest(sh.dom);
    assert OpenIn(sh.cells, th.op.c);
  }

  lemma {:induction false} StartScanKept(sh: Shared, t: Tid, th: Thread)
    requires SharedInv(sh) && ActorOk(sh, t, th) && CanQuiet(sh, t, th, StartScan)
    ensures Good(sh, sh, t, DoQuiet(sh, t, th, StartScan), {})
  {
    hide Good, SharedInv, ActorOk, OpOk, Inv, HeapInv, CellsInv, SlotsInv, CountersInv;
    CurrentOp(sh, t, th);
    DomPart(sh);
    StartScanOp(sh, t, th);
    LightOp(sh, t, th, DoQuiet(sh, t, th, StartScan).op);
  }

  lemma {:induction false} ScanSlotFound(
    d: Domain, heap: map<Addr, Obj>, cells: map<Cid, Cell>, op: Op, found: seq<Addr>)
    requires HeapInv(heap, cells) && SlotsInv(d, heap) && op.Scanning? && ScanOk(d, cells, op) && op.cursor != NULL
    requires found == op.found
             + (if SlotAt(d, op.cursor, op.k).ptr != NULL then [SlotAt(d, op.cursor, op.k).ptr] else [])
    ensures FoundAll(d, op.c, |Hist(cells[op.c])| - 1, op.cursor, op.k + 1, found)
  {
    var floor := |Hist(cells[op.c])| - 1;
    forall r, k | Passed(d, op.cursor, op.k + 1, r, k) && Older(SlotAt(d, r, k), op.c, floor)
      ensures SlotAt(d, r, k).ptr in found
    {
      if r == op.cursor && k == op.k {
        assert Protected(SlotAt(d, r, k), heap) && ObjOk(SlotAt(d, r, k).ptr, heap[SlotAt(d, r, k).ptr], cells);
      } else {
        assert Passed(d, op.cursor, op.k, r, k);
      }
    }
  }

  lemma {:induction false} ScanSlotOp(sh: Shared, t: Tid, th: Thread)
    requires OpOk(sh, t, |th.frames|, th.op) && CanQuiet(sh, t, th, ScanSlot) && HeapInv(sh.heap, sh.cells)
    requires SlotsInv(sh.dom, sh.heap)
    ensures OpOk(sh, t, |th.frames|, DoQuiet(sh, t, th, ScanSlot).op)
  {
    hide HeapInv, SlotsInv, FoundAll;
    ScanSlotFound(sh.dom, sh.heap, sh.cells, th.op, DoQuiet(sh, t, th, ScanSlot).op.found);
    assert OpenIn(sh.cells, th.op.c);
  }

  lemma {:induction false} ScanSlotKept(sh: Shared, t: Tid, th: Thread)
    requires SharedInv(sh) && ActorOk(sh, t, th) && CanQuiet(sh, t, th, ScanSlot)
    ensures Good(sh, sh, t, DoQuiet(sh, t, th, ScanSlot), {})
  {
    hide Good, SharedInv, ActorOk, OpOk, Inv, HeapInv, CellsInv, SlotsInv, CountersInv;
    CurrentOp(sh, t, th);
    SlotsPart(sh);
    ScanSlotOp(sh, t, th);
    LightOp(sh, t, th, DoQuiet(sh, t, th, ScanSlot).op);
  }

  lemma {:induction false} ScanRecordOp(sh: Shared, t: Tid, th: Thread)
    requires OpOk(sh, t, |th.frames|, th.op) && CanQuiet(sh, t, th, ScanRecord) && Inv(sh.dom)
    ensures OpOk(sh, t, |th.frames|, DoQuiet(sh, t, th, ScanRecord).op)
  {
    hide Inv;
    NextIsOlder(sh.dom, th.op.cursor);
    PassedNext(sh.dom, th.op.cursor, NextOf(sh.dom, th.op.cursor));
    assert OpenIn(sh.cells, th.op.c);
  }

  lemma {:induction false} ScanRecordKept(sh: Shared, t: Tid, th: Thread)
    requires SharedInv(sh) && ActorOk(sh, t, th) && CanQuiet(sh, t, th, ScanRecord)
    ensures Good(sh, sh, t, DoQuiet(sh, t, th, ScanRecord), {})
  {
    hide Good, SharedInv, ActorOk, OpOk, Inv, HeapInv, CellsInv, SlotsInv, CountersInv;
    CurrentOp(sh, t, th);
    DomPart(sh);
    ScanRecordOp(sh, t, th);
    LightOp(sh, t, th, DoQuiet(sh, t, th, ScanRecord).op);
  }

  /** Having passed every slot of a record and all newer records is standing at the start of the next. */
  lemma {:induction false} PassedNext(d: Domain, cursor: Rid, next: Rid)
    requires Inv(d) && RankOf(d, cursor) >= 0 && next == NextOf(d, cursor)
    ensures forall r, k :: Passed(d, next, 0, r, k) && SlotAt(d, r, k) != EMPTY ==> Passed(d, cursor, SLOTS, r, k)
  {
    NextIsOlder(d, cursor);
    forall r, k | Passed(d, next, 0, r, k) && SlotAt(d, r, k) != EMPTY ensures Passed(d, cursor, SLOTS, r, k) {
      if r == cursor { assert RecordOk(d.recs[r], r, d.locals); }
    }
  }

  // ----- the waiter -------------------------------------------------------------

  lemma {:induction false} SeeNoFallbackOp(sh: Shared, t: Tid, th: Thread)
    requires OpOk(sh, t, |th.frames|, th.op) && CanQuiet(sh, t, th, SeeNoFallback) && CountersInv(sh.cells, sh.nextTok)
    ensures OpOk(sh, t, |th.frames|, DoQuiet(sh, t, th, SeeNoFallback).op)
  {
    assert CounterOk(sh.cells[th.op.w.c], sh.nextTok);
    assert OpenIn(sh.cells, th.op.w.c);
  }

  lemma {:induction false} SeeNoFallbackKept(sh: Shared, t: Tid, th: Thread)
    requires SharedInv(sh) && ActorOk(sh, t, th) && CanQuiet(sh, t, th, SeeNoFallback)
    ensures Good(sh, sh, t, DoQuiet(sh, t, th, SeeNoFallback), {})
  {
    hide Good, SharedInv, ActorOk, OpOk, Inv, HeapInv, CellsInv, SlotsInv, CountersInv;
    CurrentOp(sh, t, th);
    CountersPart(sh);
    SeeNoFallbackOp(sh, t, th);
    LightOp(sh, t, th, DoQuiet(sh, t, th, SeeNoFallback).op);
  }

  /** Every old announcement of the cell names a retired list. */
  lemma {:induction false} OldAreRetired(sh: Shared, c: Cid, floor: int, r: Rid, k: nat)
    requires HeapInv(sh.heap, sh.cells) && SlotsInv(sh.dom, sh.heap) && c in sh.cells && floor < |Hist(sh.cells[c])|
    requires Older(SlotAt(sh.dom, r, k), c, floor)
    ensures SlotAt(sh.dom, r, k).ptr in sh.cells[c].retired
  {
    var s := SlotAt(sh.dom, r, k);
    assert Protected(s, sh.heap) && ObjOk(s.ptr, sh.heap[s.ptr], sh.cells);
  }

  lemma {:induction false} CopyRetiredOp(sh: Shared, t: Tid, th: Thread)
    requires OpOk(sh, t, |th.frames|, th.op) && CanQuiet(sh, t, th, CopyRetired) && HeapInv(sh.heap, sh.cells)
    requires SlotsInv(sh.dom, sh.heap)
    ensures OpOk(sh, t, |th.frames|, DoQuiet(sh, t, th, CopyRetired).op)
  {
    hide HeapInv, SlotsInv;
    var w := th.op.w;
    var todo := sh.cells[w.c].retired;
    forall r, k | IsOther(sh.dom, t, r) && Older(SlotAt(sh.dom, r, k), w.c, w.floor)
      ensures SlotAt(sh.dom, r, k).ptr in todo
    {
      OldAreRetired(sh, w.c, w.floor, r, k);
    }
    assert OpenIn(sh.cells, w.c);
  }

  lemma {:induction false} CopyRetiredKept(sh: Shared, t: Tid, th: Thread)
    requires SharedInv(sh) && ActorOk(sh, t, th) && CanQuiet(sh, t, th, CopyRetired)
    ensures Good(sh, sh, t, DoQuiet(sh, t, th, CopyRetired), {})
  {
    hide Good, SharedInv, ActorOk, OpOk, Inv, HeapInv, CellsInv, SlotsInv, CountersInv;
    CurrentOp(sh, t, th);
    SlotsPart(sh);
    CopyRetiredOp(sh, t, th);
    LightOp(sh, t, th, DoQuiet(sh, t, th, CopyRetired).op);
  }

  lemma {:induction false} StartOthersOp(sh: Shared, t: Tid, th: Thread)
    requires OpOk(sh, t, |th.frames|, th.op) && CanQuiet(sh, t, th, StartOthers) && Inv(sh.dom)
    ensures OpOk(sh, t, |th.frames|, DoQuiet(sh, t, th, StartOthers).op)
  {
    hide Inv;
    HeadIsNewest(sh.dom);
    assert OpenIn(sh.cells, th.op.w.c);
  }

  lemma {:induction false} StartOthersKept(sh: Shared, t: Tid, th: Thread)
    requires SharedInv(sh) && ActorOk(sh, t, th) && CanQuiet(sh, t, th, StartOthers)
    ensures Good(sh, sh, t, DoQuiet(sh, t, th, StartOthers), {})
  {
    hide Good, SharedInv, ActorOk, OpOk, Inv, HeapInv, CellsInv, SlotsInv, CountersInv;
    CurrentOp(sh, t, th);
    DomPart(sh);
    StartOthersOp(sh, t, th);
    LightOp(sh, t, th, DoQuiet(sh, t, th, StartOthers).op);
  }

  /** A slot that does not hold `todo[0]` joins the passed ones. */
  lemma {:induction false} OthersSlotPassed(d: Domain, t: Tid, w: Waiter, todo: seq<Addr>, cursor: Rid, j: nat)
    requires todo != [] && OthersIn(d, t, w, todo) && PassedIn(d, t, w, cursor, j, todo[1..])
    requires SlotAt(d, cursor, j).ptr != todo[0]
    ensures PassedIn(d, t, w, cursor, j + 1, todo[1..])
  {
    forall r, k | IsOther(d, t, r) && Older(SlotAt(d, r, k), w.c, w.floor) && Passed(d, cursor, j + 1, r, k)
      ensures SlotAt(d, r, k).ptr in todo[1..]
    {
      if r == cursor && k == j {
        assert SlotAt(d, r, k).ptr in todo && todo == [todo[0]] + todo[1..];
      } else {
        assert Passed(d, cursor, j, r, k);
      }
    }
  }

  lemma {:induction false} OthersSlotOp(sh: Shared, t: Tid, th: Thread)
    requires OpOk(sh, t, |th.frames|, th.op) && CanQuiet(sh, t, th, OthersSlot)
    ensures OpOk(sh, t, |th.frames|, DoQuiet(sh, t, th, OthersSlot).op)
  {
    hide PassedIn, OthersIn;
    var op := th.op;
    if !DoQuiet(sh, t, th, OthersSlot).op.hit { OthersSlotPassed(sh.dom, t, op.w, op.todo, op.cursor, op.k); }
    assert OpenIn(sh.cells, op.w.c);
  }

  lemma {:induction false} OthersSlotKept(sh: Shared, t: Tid, th: Thread)
    requires SharedInv(sh) && ActorOk(sh, t, th) && CanQuiet(sh, t, th, OthersSlot)
    ensures Good(sh, sh, t, DoQuiet(sh, t, th, OthersSlot), {})
  {
    hide Good, SharedInv, ActorOk, OpOk, Inv, HeapInv, CellsInv, SlotsInv, CountersInv;
    CurrentOp(sh, t, th);
    OthersSlotOp(sh, t, th);
    LightOp(sh, t, th, DoQuiet(sh, t, th, OthersSlot).op);
  }

  lemma {:induction false} OthersRecordOp(sh: Shared, t: Tid, th: Thread)
    requires OpOk(sh, t, |th.frames|, th.op) && CanQuiet(sh, t, th, OthersRecord) && Inv(sh.dom)
    ensures OpOk(sh, t, |th.frames|, DoQuiet(sh, t, th, OthersRecord).op)
  {
    hide Inv;
    NextIsOlder(sh.dom, th.op.cursor);
    PassedNext(sh.dom, th.op.cursor, NextOf(sh.dom, th.op.cursor));
    assert OpenIn(sh.cells, th.op.w.c);
  }

  lemma {:induction false} OthersRecordKept(sh: Shared, t: Tid, th: Thread)
    requires SharedInv(sh) && ActorOk(sh, t, th) && CanQuiet(sh, t, th, OthersRecord)
    ensures Good(sh, sh, t, DoQuiet(sh, t, th, OthersRecord), {})
  {
    hide Good, SharedInv, ActorOk, OpOk, Inv, HeapInv, CellsInv, SlotsInv, CountersInv;
    CurrentOp(sh, t, th);
    DomPart(sh);
    OthersRecordOp(sh, t, th);
    LightOp(sh, t, th, DoQuiet(sh, t, th, OthersRecord).op);
  }

  lemma {:induction false} OthersDoneOp(sh: Shared, t: Tid, th: Thread)
    requires OpOk(sh, t, |th.frames|, th.op) && CanQuiet(sh, t, th, OthersDone) && Inv(sh.dom)
    ensures OpOk(sh, t, |th.frames|, DoQuiet(sh, t, th, OthersDone).op)
  {
    hide Inv;
    var d, op := sh.dom, th.op;
    if !op.hit {
      forall r, k | IsOther(d, t, r) && Older(SlotAt(d, r, k), op.w.c, op.w.floor)
        ensures SlotAt(d, r, k).ptr in op.todo[1..]
      {
        AllPassed(d, r, k);
      }
    }
    assert OpenIn(sh.cells, op.w.c);
  }

  lemma {:induction false} OthersDoneKept(sh: Shared, t: Tid, th: Thread)
    requires SharedInv(sh) && ActorOk(sh, t, th) && CanQuiet(sh, t, th, OthersDone)
    ensures Good(sh, sh, t, DoQuiet(sh, t, th, OthersDone), {})
  {
    hide Good, SharedInv, ActorOk, OpOk, Inv, HeapInv, CellsInv, SlotsInv, CountersInv;
    CurrentOp(sh, t, th);
    DomPart(sh);
    OthersDoneOp(sh, t, th);
    LightOp(sh, t, th, DoQuiet(sh, t, th, OthersDone).op);
  }

  /** A walk that has reached the end has passed every announcement. */
  lemma {:induction false} AllPassed(d: Domain, r: Rid, k: nat)
    requires Inv(d) && SlotAt(d, r, k) != EMPTY
    ensures Passed(d, NULL, 0, r, k)
  {
    assert RecordOk(d.recs[r], r, d.locals) && Ranked(d.recs[r], r, d.chain);
  }

  lemma {:induction false} WaitReturnsKept(sh: Shared, t: Tid, th: Thread)
    requires SharedInv(sh) && ActorOk(sh, t, th) && CanQuiet(sh, t, th, WaitReturns)
    ensures Good(sh, sh, t, DoQuiet(sh, t, th, WaitReturns), {})
  {
    hide Good, SharedInv, ActorOk;
    LightOp(sh, t, th, Idle);
  }

  // ----- the two quiet steps that keep hold of a slot -----------------------------

  lemma {:induction false} MismatchBacked(d: Domain, t: Tid, th: Thread, op: Op)
    requires PinsBacked(d, t, th) && th.op.Validating? && op.Announcing? && op.k == th.op.k
    ensures PinsBacked(d, t, th.(op := op))
  {
    var th' := th.(op := op);
    forall k | OwnSlot(d, t, k) != EMPTY ensures SlotBacked(th', OwnSlot(d, t, k), k) {
      assert SlotBacked(th, OwnSlot(d, t, k), k);
    }
  }

  lemma {:induction false} CurrentIsAllocated(sh: Shared, c: Cid)
    requires HeapInv(sh.heap, sh.cells) && CellsInv(sh.cells, sh.heap) && OpenIn(sh.cells, c)
    ensures sh.cells[c].current != NULL && sh.cells[c].current in sh.heap
    ensures var o := sh.heap[sh.cells[c].current];
            o.cell == c && o.place.Current? && |Hist(sh.cells[c])| > 0 && o.version == |Hist(sh.cells[c])| - 1
            && o.list == Hist(sh.cells[c])[o.version]
  {
    var x := sh.cells[c];
    assert CellOk(c, x, sh.heap);
    assert ObjOk(x.current, sh.heap[x.current], sh.cells);
  }

  lemma {:induction false} MismatchKept(sh: Shared, t: Tid, th: Thread)
    requires SharedInv(sh) && ActorOk(sh, t, th) && CanQuiet(sh, t, th, Mismatch)
    ensures Good(sh, sh, t, DoQuiet(sh, t, th, Mismatch), {})
  {
    hide SharedInv, HeapInv, CellsInv, SlotsInv, PinsBacked, Guarantee;
    var op' := DoQuiet(sh, t, th, Mismatch).op;
    SlotsPart(sh);
    assert OpenIn(sh.cells, th.op.call.c);
    CurrentIsAllocated(sh, th.op.call.c);
    NoChange(sh, t);
    MismatchBacked(sh.dom, t, th, op');
    NewOp(sh, t, th, op');
  }

  /** Dropping the top frame leaves the frames below in order. */
  lemma {:induction false} PopFrames(sh: Shared, t: Tid, th: Thread, op: Op)
    requires ThreadOk(sh, t, th) && th.frames != [] && OpOk(sh, t, |th.frames| - 1, op)
    requires AcqOk(sh.dom.locals[t], Pop(th, op))
    ensures ThreadOk(sh, t, Pop(th, op))
  {
    var th' := Pop(th, op);
    assert forall i :: 0 <= i < |th'.frames| ==> th'.frames[i] == th.frames[i];
    assert CallsOk(sh.cells, th') && PinsOk(sh.dom, t, th') && TakesOk(sh.heap, t, th') && OwnsOk(sh, t, th')
        && UsesOk(sh.cells, th');
  }

  lemma {:induction false} LeaveBacked(d: Domain, t: Tid, th: Thread, th': Thread)
    requires PinsBacked(d, t, th) && Top(th) && TopFrame(th).Hazard?
    requires th'.frames == th.frames[..|th.frames| - 1] && th'.op.Unpinning?
    requires th'.op.c == TopFrame(th).c && th'.op.k == TopFrame(th).k && th'.op.version == TopFrame(th).version
    ensures PinsBacked(d, t, th')
  {
    forall k | OwnSlot(d, t, k) != EMPTY ensures SlotBacked(th', OwnSlot(d, t, k), k) {
      assert SlotBacked(th, OwnSlot(d, t, k), k);
    }
  }

  /** Popping a frame that answers for no one-shot body and no taken list. */
  lemma {:induction false} PopAnswers(heap: map<Addr, Obj>, cells: map<Cid, Cell>, t: Tid, th: Thread, op: Op)
    requires Answers(heap, cells, t, th) && Top(th) && !TopFrame(th).Body? && !TopFrame(th).Dropping?
    ensures Answers(heap, cells, t, Pop(th, op))
  {
    var th' := Pop(th, op);
    forall c, id | c in cells && id in cells[c].log.running && cells[c].log.running[id] == t
      ensures RunBacked(th', c, id)
    {
      assert RunBacked(th, c, id);
    }
  }

  lemma {:induction false} LeaveHazardKept(sh: Shared, t: Tid, th: Thread, unwinding: bool)
    requires SharedInv(sh) && ActorOk(sh, t, th) && CanQuiet(sh, t, th, LeaveHazard(unwinding))
    ensures Good(sh, sh, t, DoQuiet(sh, t, th, LeaveHazard(unwinding)), {})
  {
    hide SharedInv, PinsBacked, Guarantee, Answers;
    var f := TopFrame(th);
    var op' := Unpinning(f.c, f.a, f.k, f.version, unwinding);
    var n := |th.frames| - 1;
    assert FramePins(sh.dom, t, n, th.frames[n]) && OpenIn(sh.cells, th.frames[n].c);
    NoChange(sh, t);
    PopFrames(sh, t, th, op');
    LeaveBacked(sh.dom, t, th, Pop(th, op'));
    PopAnswers(sh.heap, sh.cells, t, th, op');
  }

  lemma {:induction false} QuietKept(sh: Shared, t: Tid, th: Thread, q: QuietStep)
    requires SharedInv(sh) && ActorOk(sh, t, th) && CanQuiet(sh, t, th, q)
    ensures Good(sh, sh, t, DoQuiet(sh, t, th, q), {})
  {
    hide SharedInv, ActorOk, Good, CanQuiet, DoQuiet;
    match q
    case Mismatch => MismatchKept(sh, t, th);
    case LeaveHazard(unwinding) => LeaveHazardKept(sh, t, th, unwinding);
    case StartScan => StartScanKept(sh, t, th);
    case ScanSlot => ScanSlotKept(sh, t, th);
    case ScanRecord => ScanRecordKept(sh, t, th);
    case SeeNoFallback => SeeNoFallbackKept(sh, t, th);
    case CopyRetired => CopyRetiredKept(sh, t, th);
    case StartOthers => StartOthersKept(sh, t, th);
    case OthersSlot => OthersSlotKept(sh, t, th);
    case OthersRecord => OthersRecordKept(sh, t, th);
    case OthersDone => OthersDoneKept(sh, t, th);
    case WaitReturns => WaitReturnsKept(sh, t, th);
    case _ => StartKept(sh, t, th, q);
  }
}
