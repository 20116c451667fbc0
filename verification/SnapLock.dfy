/** Steps that change one cell's words (its lock, counters and registry history) keep the invariant. */
module SnapLock {
  import opened HazardDomain
  import opened SnapCell
  import opened SnapInvariant
  import opened SnapStable
  import opened SnapQuiet
  import opened SnapReader
  import L = RegistryLog

  // ----- the shared state -----------------------------------------------------------

  /** The lists a cell holds, and where they are, stay the same. */
  predicate SameLists(x: Cell, y: Cell) {
    && y.open == x.open && y.current == x.current && y.retired == x.retired
    && y.home == x.home && y.frees == x.frees && Hist(y) == Hist(x)
  }

  ghost predicate CellOnly(sh: Shared, c: Cid, y: Cell, after: Shared) {
    && c in sh.cells && SameLists(sh.cells[c], y)
    && after == sh.(cells := sh.cells[c := y], nextTok := after.nextTok) && sh.nextTok <= after.nextTok
  }

  lemma {:induction false} CellHeap(sh: Shared, c: Cid, y: Cell, after: Shared)
    requires CellOnly(sh, c, y, after) && HeapInv(sh.heap, sh.cells) && CellsInv(sh.cells, sh.heap)
    ensures HeapInv(after.heap, after.cells) && CellsInv(after.cells, after.heap)
  {
    forall a | a in after.heap ensures ObjOk(a, after.heap[a], after.cells) {
      assert ObjOk(a, sh.heap[a], sh.cells);
    }
    forall b | b in after.cells ensures CellOk(b, after.cells[b], after.heap) {
      assert CellOk(b, sh.cells[b], sh.heap);
      if b == c {
        forall v | 0 <= v < |y.home| ensures HomeOk(b, y, v, after.heap) { assert HomeOk(b, sh.cells[b], v, sh.heap); }
      }
    }
  }

  lemma {:induction false} CellWords(sh: Shared, c: Cid, y: Cell, after: Shared)
    requires CellOnly(sh, c, y, after)
    requires LogsInv(sh.cells) && SettledInv(sh.cells, |sh.dom.chain|) && CountersInv(sh.cells, sh.nextTok)
    requires L.LogInv(y.log) && CounterOk(y, after.nextTok) && (y.lock.Nobody? ==> Settled(y, |sh.dom.chain|))
    ensures LogsInv(after.cells) && SettledInv(after.cells, |after.dom.chain|)
    ensures CountersInv(after.cells, after.nextTok)
  {
    hide L.LogInv;
    forall b | b in after.cells ensures CounterOk(after.cells[b], after.nextTok) {
      assert b != c ==> CounterOk(sh.cells[b], sh.nextTok);
    }
  }

  lemma {:induction false} WordsPart(sh: Shared)
    requires SharedInv(sh)
    ensures LogsInv(sh.cells) && SettledInv(sh.cells, |sh.dom.chain|) && CountersInv(sh.cells, sh.nextTok)
  {
  }

  lemma {:induction false} CellGuarantee(sh: Shared, c: Cid, y: Cell, after: Shared, t: Tid)
    requires CellOnly(sh, c, y, after) && CellG(sh.cells[c], y, t)
    ensures Guarantee(sh, after, t, {})
  {
    DomRefl(sh.dom, t, sh.cells);
    assert CellsG(sh.cells, after.cells, t, {}) by {
      forall b | b in sh.cells ensures CellG(sh.cells[b], after.cells[b], t) {
        if b != c { CellRefl(sh.cells[b], t); }
      }
    }
  }

  lemma {:induction false} CellShared(sh: Shared, c: Cid, y: Cell, after: Shared, t: Tid)
    requires SharedInv(sh) && t in sh.dom.locals && CellOnly(sh, c, y, after) && CellG(sh.cells[c], y, t)
    requires L.LogInv(y.log) && CounterOk(y, after.nextTok) && (y.lock.Nobody? ==> Settled(y, |sh.dom.chain|))
    ensures SharedInv(after) && Guarantee(sh, after, t, {}) && after.dom.locals.Keys == sh.dom.locals.Keys + {t}
  {
    hide Inv, HeapInv, CellsInv, LogsInv, SettledInv, CountersInv, StrongInv, SlotsInv, Guarantee, CellG, L.LogInv;
    hide CounterOk, Settled, HandleOk;
    CellHeap(sh, c, y, after);
    CellWords(sh, c, y, after);
    CellGuarantee(sh, c, y, after, t);
    forall tok | tok in after.handles ensures tok < after.nextTok && HandleOk(after.handles[tok], after.heap) {
      assert tok < sh.nextTok;
    }
  }

  // ----- the acting thread ------------------------------------------------------------

  /** The frame is counted among the cell's fallback readers. */
  predicate CountsIn(f: Frame, c: Cid) { (f.Fallback? || f.Leaving?) && f.c == c }

  /** The frame's own count, if it has one, is untouched. */
  predicate SameCount(x: Cell, y: Cell, c: Cid, f: Frame) {
    CountsIn(f, c) && f.tok in x.counted ==>
      f.tok in y.counted && y.counted[f.tok] == x.counted[f.tok]
  }

  /** A change of the log that writes nothing and draws nothing, or of the words about panics. */
  lemma {:induction false} LogWords(x: Cell, nextTok: Tok, t: Tid, y: Cell)
    requires CounterOk(x, nextTok) && y == x.(log := y.log, panics := y.panics, callback := y.callback)
    requires y.log.hist == x.log.hist && y.log.drawn == x.log.drawn && y.log.pending == x.log.pending
    requires forall id :: id in y.log.running && y.log.running[id] != t ==>
               id in x.log.running && x.log.running[id] == y.log.running[id]
    ensures CellG(x, y, t) && CounterOk(y, nextTok) && SameLists(x, y)
    ensures forall c, f :: SameCount(x, y, c, f)
  {
  }

  lemma {:induction false} CellFrame(sh: Shared, c: Cid, y: Cell, after: Shared, t: Tid, i: nat, f: Frame)
    requires FrameOk(sh, t, i, f) && CellOnly(sh, c, y, after) && SameCount(sh.cells[c], y, c, f)
    ensures FrameOk(after, t, i, f)
  {
    hide Takes;
  }

  lemma {:induction false} CellFrames(sh: Shared, c: Cid, y: Cell, after: Shared, t: Tid, th: Thread)
    requires ThreadOk(sh, t, th) && CellOnly(sh, c, y, after)
    requires forall i :: 0 <= i < |th.frames| ==> SameCount(sh.cells[c], y, c, th.frames[i])
    ensures forall i :: 0 <= i < |th.frames| ==> FrameOk(after, t, i, th.frames[i])
  {
    hide FrameOk, CellOnly, SameCount, ThreadOk;
    Frames(sh, t, th);
    forall i | 0 <= i < |th.frames| ensures FrameOk(after, t, i, th.frames[i]) {
      CellFrame(sh, c, y, after, t, i, th.frames[i]);
    }
  }

  /** Reads stay on the stack where they were. */
  ghost predicate KeepsPins(frames: seq<Frame>, frames': seq<Frame>) {
    forall i :: 0 <= i < |frames| && frames[i].Hazard? ==> i < |frames'| && SamePin(frames[i], frames'[i])
  }

  predicate SamePin(f: Frame, g: Frame)
    requires f.Hazard?
  {
    g.Hazard? && g.k == f.k && g.c == f.c && g.version == f.version
  }

  predicate NoSlotOp(op: Op) {
    !op.Validating? && !op.Announcing? && !op.Cloning? && !op.Unpinning?
  }

  lemma {:induction false} FramesBacked(d: Domain, t: Tid, th: Thread, th': Thread)
    requires PinsBacked(d, t, th) && NoSlotOp(th.op) && KeepsPins(th.frames, th'.frames)
    ensures PinsBacked(d, t, th')
  {
    forall k | OwnSlot(d, t, k) != EMPTY ensures SlotBacked(th', OwnSlot(d, t, k), k) {
      assert SlotBacked(th, OwnSlot(d, t, k), k);
    }
  }

  /** Lists taken out stay on the stack, possibly moving from the operation to a frame. */
  lemma {:induction false} TakenStay(
    heap: map<Addr, Obj>, cells: map<Cid, Cell>, after: map<Cid, Cell>, t: Tid, th: Thread, th': Thread)
    requires Answers(heap, cells, t, th)
    requires forall i, a :: TakenBacked(th, i, a) ==> TakenBacked(th', i, a)
    requires forall c, id :: c in after && id in after[c].log.running && after[c].log.running[id] == t ==>
             RunBacked(th', c, id)
    ensures Answers(heap, after, t, th')
  {
  }

  lemma {:induction false} CellGood(sh: Shared, c: Cid, y: Cell, after: Shared, t: Tid, th: Thread, th': Thread)
    requires SharedInv(sh) && ActorOk(sh, t, th) && CellOnly(sh, c, y, after) && CellG(sh.cells[c], y, t)
    requires L.LogInv(y.log) && CounterOk(y, after.nextTok) && (y.lock.Nobody? ==> Settled(y, |sh.dom.chain|))
    requires forall i :: 0 <= i < |th'.frames| ==> FrameOk(after, t, i, th'.frames[i])
    requires OpOk(after, t, |th'.frames|, th'.op) && t in sh.dom.locals && AcqOk(sh.dom.locals[t], th')
    requires NoSlotOp(th.op) && KeepsPins(th.frames, th'.frames)
    requires Answers(after.heap, after.cells, t, th')
    ensures Good(sh, after, t, th', {})
  {
    hide SharedInv, Guarantee, CellG, L.LogInv, CounterOk, Settled, FrameOk, OpOk, AcqOk, Answers, ThreadOk, PinsBacked;
    hide KeepsPins;
    CellShared(sh, c, y, after, t);
    Assemble(after, t, th');
    FramesBacked(sh.dom, t, th, th');
  }

  lemma {:induction false} LogPart(sh: Shared, c: Cid)
    requires LogsInv(sh.cells) && CountersInv(sh.cells, sh.nextTok) && c in sh.cells
    ensures L.LogInv(sh.cells[c].log) && CounterOk(sh.cells[c], sh.nextTok)
    ensures Hist(sh.cells[c]) != []
  {
  }

  lemma {:induction false} SameRunning(heap: map<Addr, Obj>, cells: map<Cid, Cell>, c: Cid, y: Cell, t: Tid, th: Thread)
    requires Answers(heap, cells, t, th) && c in cells && y.log.running == cells[c].log.running
    ensures Answers(heap, cells[c := y], t, th)
  {
  }

  /** A step that changes only a cell's lock or its length word. */
  lemma {:induction false} LockGood(sh: Shared, c: Cid, y: Cell, after: Shared, t: Tid, th: Thread, th': Thread)
    requires SharedInv(sh) && ActorOk(sh, t, th) && c in sh.cells
    requires y == sh.cells[c].(lock := y.lock, retiredLen := y.retiredLen) && after == SetCell(sh, c, y)
    requires sh.cells[c].lock.Nobody? || sh.cells[c].lock == By(t)
    requires y.lock.Nobody? ==> Settled(y, |sh.dom.chain|)
    requires NoSlotOp(th.op) && !th.op.Exiting? && !th.op.Pinning? && !th'.op.Exiting? && !th'.op.Pinning?
    requires th.frames <= th'.frames
    requires forall i :: |th.frames| <= i < |th'.frames| ==> FrameOk(after, t, i, th'.frames[i])
    requires OpOk(after, t, |th'.frames|, th'.op)
    requires Answers(sh.heap, sh.cells, t, th')
    ensures Good(sh, after, t, th', {})
  {
    hide SharedInv, L.LogInv, Settled, FrameOk, OpOk, Answers, Good, LogsInv, SettledInv, CountersInv, ThreadOk;
    WordsPart(sh);
    LogPart(sh, c);
    CurrentOp(sh, t, th);
    CellFrames(sh, c, y, after, t, th);
    SameRunning(sh.heap, sh.cells, c, y, t, th');
    CellGood(sh, c, y, after, t, th, th');
  }

  // ----- taking and releasing the writer lock -----------------------------------------

  lemma {:induction false} OpAnswers(sh: Shared, t: Tid, th: Thread, th': Thread)
    requires ActorOk(sh, t, th) && th.frames <= th'.frames
    requires !th.op.Storing? && !th.op.Unlocking? && !th.op.Locking? && !th.op.Writing?
    ensures Answers(sh.heap, sh.cells, t, th')
  {
    hide ThreadOk, PinsBacked;
    SameAnswers(sh.heap, sh.cells, t, th, th');
  }

  lemma {:induction false} TryLockKept(sh: Shared, t: Tid, th: Thread)
    requires SharedInv(sh) && ActorOk(sh, t, th) && CanTryLock(sh, t, th)
    ensures var r := DoTryLock(sh, t, th); Good(sh, r.0, t, r.1, {})
  {
    hide SharedInv, ActorOk, Good, Answers;
    var c := th.op.c;
    CurrentOp(sh, t, th);
    assert OpenIn(sh.cells, c);
    if sh.cells[c].lock.By? {
      LightOp(sh, t, th, Idle);
    } else {
      var r := DoTryLock(sh, t, th);
      OpAnswers(sh, t, th, r.1);
      LockGood(sh, c, r.0.cells[c], r.0, t, th, r.1);
    }
  }

  lemma {:induction false} StoreLenKept(sh: Shared, t: Tid, th: Thread)
    requires SharedInv(sh) && ActorOk(sh, t, th) && CanStoreLen(sh, t, th)
    ensures var r := DoStoreLen(sh, t, th); Good(sh, r.0, t, r.1, {})
  {
    hide SharedInv, ActorOk, Good, Takes;
    var c := th.op.c;
    var r := DoStoreLen(sh, t, th);
    CurrentOp(sh, t, th);
    assert OpenIn(sh.cells, c);
    ActorAnswers(sh, t, th);
    TakenStay(sh.heap, sh.cells, sh.cells, t, th, r.1);
    LockGood(sh, c, r.0.cells[c], r.0, t, th, r.1);
  }

  lemma {:induction false} ActorAnswers(sh: Shared, t: Tid, th: Thread)
    requires ActorOk(sh, t, th)
    ensures Answers(sh.heap, sh.cells, t, th)
  {
  }

  lemma {:induction false} UnlockKept(sh: Shared, t: Tid, th: Thread)
    requires SharedInv(sh) && ActorOk(sh, t, th) && CanUnlock(sh, t, th)
    ensures var r := DoUnlock(sh, t, th); Good(sh, r.0, t, r.1, {})
  {
    hide SharedInv, ActorOk, Good, Takes;
    var c := th.op.c;
    var r := DoUnlock(sh, t, th);
    CurrentOp(sh, t, th);
    ActorAnswers(sh, t, th);
    UnlockAnswers(sh.heap, sh.cells, t, th, r.1);
    LockGood(sh, c, r.0.cells[c], r.0, t, th, r.1);
  }

  lemma {:induction false} UnlockAnswers(heap: map<Addr, Obj>, cells: map<Cid, Cell>, t: Tid, th: Thread, th': Thread)
    requires Answers(heap, cells, t, th) && th.op.Unlocking?
    requires th' == if th.op.freed == [] then SetOp(th, Idle) else Push(th, Dropping(th.op.freed))
    ensures Answers(heap, cells, t, th')
  {
    forall c, id | c in cells && id in cells[c].log.running && cells[c].log.running[id] == t
      ensures RunBacked(th', c, id)
    {
      assert RunBacked(th, c, id);
    }
    TakenStay(heap, cells, cells, t, th, th');
  }

  lemma {:induction false} LockKept(sh: Shared, t: Tid, th: Thread)
    requires SharedInv(sh) && ActorOk(sh, t, th) && CanLock(sh, t, th)
    ensures var r := DoLock(sh, t, th); Good(sh, r.0, t, r.1, {})
  {
    hide SharedInv, ActorOk, Good;
    var c := th.op.c;
    var r := DoLock(sh, t, th);
    CurrentOp(sh, t, th);
    assert OpenIn(sh.cells, c);
    SettledPart(sh, c);
    ActorAnswers(sh, t, th);
    LockAnswers(sh.heap, sh.cells, t, th, r.1);
    LockGood(sh, c, r.0.cells[c], r.0, t, th, r.1);
  }

  lemma {:induction false} SettledPart(sh: Shared, c: Cid)
    requires SharedInv(sh) && c in sh.cells && sh.cells[c].lock.Nobody?
    ensures Settled(sh.cells[c], |sh.dom.chain|)
  {
  }

  lemma {:induction false} StillSettled(x: Cell, y: Cell, records: nat)
    requires Settled(x, records) && y.retired == x.retired && y.retiredLen == x.retiredLen
    ensures Settled(y, records)
  {
  }

  lemma {:induction false} LockAnswers(heap: map<Addr, Obj>, cells: map<Cid, Cell>, t: Tid, th: Thread, th': Thread)
    requires Answers(heap, cells, t, th) && th.op.Locking? && th' == SetOp(th, Writing(th.op.c, th.op.req))
    ensures Answers(heap, cells, t, th')
  {
    forall c, id | c in cells && id in cells[c].log.running && cells[c].log.running[id] == t
      ensures RunBacked(th', c, id)
    {
      assert RunBacked(th, c, id);
    }
    TakenStay(heap, cells, cells, t, th, th');
  }

  lemma {:induction false} FbLockKept(sh: Shared, t: Tid, th: Thread)
    requires SharedInv(sh) && ActorOk(sh, t, th) && CanFbLock(sh, t, th)
    ensures var r := DoFbLock(sh, t, th); Good(sh, r.0, t, r.1, {})
  {
    hide SharedInv, ActorOk, Good, Answers;
    var c := th.op.call.c;
    var r := DoFbLock(sh, t, th);
    CurrentOp(sh, t, th);
    assert OpenIn(sh.cells, c);
    SettledPart(sh, c);
    OpAnswers(sh, t, th, r.1);
    LockGood(sh, c, r.0.cells[c], r.0, t, th, r.1);
  }

  // ----- drawing ids ---------------------------------------------------------------

  lemma {:induction false} DrawWords(x: Cell, nextTok: Tok, t: Tid, once: bool, y: Cell)
    requires CounterOk(x, nextTok) && L.LogInv(x.log) && y == x.(log := L.Draw(x.log, t, once))
    ensures CellG(x, y, t) && CounterOk(y, nextTok) && SameLists(x, y) && L.LogInv(y.log)
    ensures y.log.drawn <= L.U64 ==> IsPending(y.log, x.log.nextId, t)
    ensures forall c, f :: SameCount(x, y, c, f)
  {
    hide L.LogInv;
    L.DrawKept(x.log, t, once);
  }

  lemma {:induction false} DrawIdKept(sh: Shared, t: Tid, th: Thread, c: Cid, priority: int, once: bool)
    requires SharedInv(sh) && ActorOk(sh, t, th) && CanDrawId(sh, t, th, c)
    ensures var r := DoDrawId(sh, t, th, c, priority, once); Good(sh, r.0, t, r.1, {})
  {
    hide SharedInv, ActorOk, Good, Answers, LogsInv, SettledInv, CountersInv, L.LogInv, ThreadOk, FrameOk, CellG;
    hide CounterOk, SameCount, IsPending;
    var r := DoDrawId(sh, t, th, c, priority, once);
    var x, y := sh.cells[c], r.0.cells[c];
    CurrentOp(sh, t, th);
    WordsPart(sh);
    LogPart(sh, c);
    DrawWords(x, sh.nextTok, t, once, y);
    if x.lock.Nobody? { SettledPart(sh, c); }
    ActorThread(sh, t, th);
    CellFrames(sh, c, y, r.0, t, th);
    OpAnswers(sh, t, th, r.1);
    SameRunning(sh.heap, sh.cells, c, y, t, r.1);
    CellGood(sh, c, y, r.0, t, th, r.1);
  }

  lemma {:induction false} ActorThread(sh: Shared, t: Tid, th: Thread)
    requires ActorOk(sh, t, th)
    ensures ThreadOk(sh, t, th)
  {
  }

  // ----- the fallback reader's count -----------------------------------------------

  lemma {:induction false} CountWords(x: Cell, tok: Tok, t: Tid, n: nat, y: Cell)
    requires CounterOk(x, tok)
    requires y == x.(fallbackReaders := x.fallbackReaders + 1, counted := x.counted[tok := Counted(t, n, Waiting)])
    ensures CellG(x, y, t) && CounterOk(y, tok + 1) && SameLists(x, y)
    ensures forall c, f :: SameCount(x, y, c, f)
  {
  }

  lemma {:induction false} CountKept(sh: Shared, t: Tid, th: Thread)
    requires SharedInv(sh) && ActorOk(sh, t, th) && CanCount(sh, t, th)
    ensures var r := DoCount(sh, t, th); Good(sh, r.0, t, r.1, {})
  {
    hide SharedInv, ActorOk, Good, Answers, OpOk, ThreadOk;
    CurrentOp(sh, t, th);
    if !th.op.call.Borrows() {
      CountingOp(sh, t, |th.frames|, th.op, sh, 0);
      LightOp(sh, t, th, FbLocking(th.op.call, 0));
    } else {
      CountBorrow(sh, t, th);
    }
  }

  lemma {:induction false} CountingOp(sh: Shared, t: Tid, n: nat, op: Op, after: Shared, tok: Tok)
    requires OpOk(sh, t, n, op) && op.Counting? && op.call.c in after.cells && op.call.c in sh.cells
    requires SameLists(sh.cells[op.call.c], after.cells[op.call.c])
    requires op.call.Borrows() ==> IsCounted(after.cells, op.call.c, tok, Counted(t, n, Waiting))
    ensures OpOk(after, t, n, FbLocking(op.call, tok))
  {
    assert OpenIn(sh.cells, op.call.c);
  }

  /** The new count disturbs nothing the thread already stands on. */
  lemma {:induction false} CountedThread(sh: Shared, t: Tid, th: Thread, y: Cell, after: Shared, th': Thread)
    requires ActorOk(sh, t, th) && th.op.Counting? && CellOnly(sh, th.op.call.c, y, after) && th'.frames == th.frames
    requires y.log == sh.cells[th.op.call.c].log && forall c, f :: SameCount(sh.cells[th.op.call.c], y, c, f)
    ensures forall i :: 0 <= i < |th.frames| ==> FrameOk(after, t, i, th.frames[i])
    ensures Answers(after.heap, after.cells, t, th')
  {
    hide ActorOk, ThreadOk, FrameOk, SameCount, Answers;
    ActorThread(sh, t, th);
    CellFrames(sh, th.op.call.c, y, after, t, th);
    OpAnswers(sh, t, th, th');
    SameRunning(sh.heap, sh.cells, th.op.call.c, y, t, th');
  }

  lemma {:induction false} CountBorrow(sh: Shared, t: Tid, th: Thread)
    requires SharedInv(sh) && ActorOk(sh, t, th) && CanCount(sh, t, th) && th.op.call.Borrows()
    ensures var r := DoCount(sh, t, th); Good(sh, r.0, t, r.1, {})
  {
    hide SharedInv, ActorOk, Good, Answers, OpOk, LogsInv, SettledInv, CountersInv, L.LogInv, FrameOk, CellG, CounterOk;
    hide SameCount, Settled;
    var r := DoCount(sh, t, th);
    var c := th.op.call.c;
    var x, y := sh.cells[c], r.0.cells[c];
    CurrentOp(sh, t, th);
    CountingOp(sh, t, |th.frames|, th.op, r.0, sh.nextTok);
    WordsPart(sh);
    LogPart(sh, c);
    CountWords(x, sh.nextTok, t, |th.frames|, y);
    if x.lock.Nobody? { SettledPart(sh, c); StillSettled(x, y, |sh.dom.chain|); }
    CountedThread(sh, t, th, y, r.0, r.1);
    CellGood(sh, c, y, r.0, t, th, r.1);
  }

  /** Counts of other frames are other counts: each records its frame's depth. */
  lemma {:induction false} OtherCounts(sh: Shared, t: Tid, th: Thread, c: Cid, tok: Tok, n: nat)
    requires ThreadOk(sh, t, th) && n <= |th.frames|
    requires c in sh.cells && tok in sh.cells[c].counted && sh.cells[c].counted[tok].depth == n
    ensures forall i :: 0 <= i < |th.frames| && i != n && CountsIn(th.frames[i], c) ==> th.frames[i].tok != tok
  {
    hide CallsOk, PinsOk, LocksOk, TakesOk, PendingOk, ScanOk, WaitOk, UsesOk;
    forall i | 0 <= i < |th.frames| && i != n && CountsIn(th.frames[i], c)
      ensures th.frames[i].tok != tok
    {
      assert FrameOwns(sh, t, i, th.frames[i]);
    }
  }

  lemma {:induction false} UncountWords(x: Cell, tok: Tok, nextTok: Tok, t: Tid, y: Cell)
    requires CounterOk(x, nextTok) && tok in x.counted && x.counted[tok].tid == t && x.fallbackReaders > 0
    requires y == x.(fallbackReaders := x.fallbackReaders - 1, counted := x.counted - {tok})
    ensures CellG(x, y, t) && CounterOk(y, nextTok) && SameLists(x, y)
  {
    assert x.counted.Keys == y.counted.Keys + {tok};
  }

  lemma {:induction false} UncountKept(sh: Shared, t: Tid, th: Thread)
    requires SharedInv(sh) && ActorOk(sh, t, th) && CanUncount(sh, t, th)
    ensures var r := DoUncount(sh, t, th); Good(sh, r.0, t, r.1, {})
  {
    hide SharedInv, ActorOk, Good, Answers, OpOk, LogsInv, SettledInv, CountersInv, L.LogInv, ThreadOk, FrameOk, CellG;
    hide CounterOk;
    var r := DoUncount(sh, t, th);
    var f, n := TopFrame(th), |th.frames| - 1;
    var c := f.c;
    var x, y := sh.cells[c], r.0.cells[c];
    CurrentOp(sh, t, th);
    ActorThread(sh, t, th);
    LeavingIsCounted(sh, t, th);
    OtherCounts(sh, t, th, c, f.tok, n);
    WordsPart(sh);
    LogPart(sh, c);
    UncountWords(x, f.tok, sh.nextTok, t, y);
    if x.lock.Nobody? { SettledPart(sh, c); }
    BelowOk(sh, t, th);
    CellFrames(sh, c, y, r.0, t, th.(frames := th.frames[..n]));
    IdleOp(r.0, t, n);
    ActorAnswers(sh, t, th);
    PopAnswers(sh.heap, sh.cells, t, th, Idle);
    DepthIrrelevant(sh.heap, sh.cells, t, Pop(th, Idle), r.1);
    SameRunning(sh.heap, sh.cells, c, y, t, r.1);
    CellGood(sh, c, y, r.0, t, th, r.1);
  }

  lemma {:induction false} LeavingIsCounted(sh: Shared, t: Tid, th: Thread)
    requires ThreadOk(sh, t, th) && Top(th) && TopFrame(th).Leaving?
    ensures IsCounted(sh.cells, TopFrame(th).c, TopFrame(th).tok, Counted(t, |th.frames| - 1, Done))
    ensures OpenIn(sh.cells, TopFrame(th).c)
  {
    Frames(sh, t, th);
    assert FrameOk(sh, t, |th.frames| - 1, th.frames[|th.frames| - 1]);
  }

  /** The frames below the top one are in order by themselves. */
  lemma {:induction false} BelowOk(sh: Shared, t: Tid, th: Thread)
    requires ThreadOk(sh, t, th) && Top(th)
    ensures ThreadOk(sh, t, th.(frames := th.frames[..|th.frames| - 1]))
  {
    hide OpOk, ThreadOk;
    Frames(sh, t, th);
    var th' := th.(frames := th.frames[..|th.frames| - 1]);
    ThreadOp(sh, t, th);
    Assemble(sh, t, th') by { IdleOp(sh, t, |th'.frames|); }
  }

  lemma {:induction false} IdleOp(sh: Shared, t: Tid, n: nat)
    ensures OpOk(sh, t, n, Idle)
  {
  }

  lemma {:induction false} DepthIrrelevant(heap: map<Addr, Obj>, cells: map<Cid, Cell>, t: Tid, th: Thread, th': Thread)
    requires Answers(heap, cells, t, th) && th'.frames == th.frames && th'.op == th.op
    ensures Answers(heap, cells, t, th')
  {
    assert forall c, id :: RunBacked(th, c, id) == RunBacked(th', c, id);
  }
}
