/** What one thread's step may do to the state the others rely on, and that their part of the
    invariant survives it. */
module SnapStable {
  import opened HazardDomain
  import opened SnapCell
  import opened SnapInvariant
  import L = RegistryLog

  // ----- guarantees -------------------------------------------------------------

  /** Other threads keep their record and its slots; published records keep their place. */
  ghost predicate DomG(d: Domain, e: Domain, u: Tid) {
    && (forall t :: t != u && t in d.locals ==> t in e.locals && e.locals[t] == d.locals[t])
    && (forall t, k :: t != u && t in d.locals ==> OwnSlot(e, t, k) == OwnSlot(d, t, k))
    && |d.chain| <= |e.chain|
    && (forall r :: RankKept(d, e, r))
  }

  ghost predicate RankKept(d: Domain, e: Domain, r: Rid) {
    && (RankOf(d, r) >= 0 ==> RankOf(e, r) == RankOf(d, r))
    && (RankOf(d, r) < 0 && RankOf(e, r) >= 0 ==> forall k :: !SlotAt(e, r, k).guard.Validated?)
  }

  /** A slot that becomes validated announces the newest version. */
  ghost predicate SlotsG(d: Domain, e: Domain, cells: map<Cid, Cell>) {
    forall r, k :: SlotAt(e, r, k).guard.Validated? && SlotAt(e, r, k) != SlotAt(d, r, k) ==>
      SlotAt(e, r, k).guard.cell in cells
          && SlotAt(e, r, k).guard.version == |Hist(cells[SlotAt(e, r, k).guard.cell])| - 1
  }

  ghost predicate CellG(x: Cell, y: Cell, u: Tid) {
    && Hist(x) <= Hist(y)
    && (x.lock.By? && x.lock.tid != u ==>
          y.lock == x.lock && y.retired == x.retired && y.retiredLen == x.retiredLen && Hist(y) == Hist(x))
    && (forall tok :: tok in x.counted && x.counted[tok].tid != u ==>
        tok in y.counted && y.counted[tok] == x.counted[tok])
    && (forall tok :: tok in y.counted && y.counted[tok].phase.Reading? ==>
          (tok in x.counted && x.counted[tok] == y.counted[tok]) || y.counted[tok].phase.version == |Hist(x)| - 1)
    && x.log.drawn <= y.log.drawn
    && (y.log.drawn <= L.U64 ==>
          forall id :: id in x.log.pending && x.log.pending[id] != u ==> IsPending(y.log, id, x.log.pending[id]))
    && (forall id :: id in y.log.running && y.log.running[id] != u ==>
        id in x.log.running && x.log.running[id] == y.log.running[id])
  }

  ghost predicate CellsG(cells: map<Cid, Cell>, after: map<Cid, Cell>, u: Tid, gone: set<Cid>) {
    && (forall c :: c in cells ==> c in after)
    && (forall c :: c in cells && c !in gone ==> CellG(cells[c], after[c], u) && (cells[c].open ==> after[c].open))
    && (forall c, id :: c in after && id in after[c].log.running && after[c].log.running[id] != u ==>
          c in cells && id in cells[c].log.running && cells[c].log.running[id] == after[c].log.running[id])
  }

  ghost predicate HeapG(heap: map<Addr, Obj>, after: map<Addr, Obj>, u: Tid) {
    && (forall a :: a in heap && heap[a].place.Taken? && heap[a].place.tid != u ==>
          a in after && after[a].place == heap[a].place)
    && (forall a :: a in after && after[a].place.Taken? && after[a].place.tid != u ==>
          a in heap && heap[a].place == after[a].place)
  }

  ghost predicate HandlesG(handles: map<Tok, Handle>, after: map<Tok, Handle>, u: Tid) {
    forall tok :: tok in handles && handles[tok].holder.Held? && handles[tok].holder.tid != u ==>
      tok in after && after[tok] == handles[tok]
  }

  ghost predicate Guarantee(sh: Shared, after: Shared, u: Tid, gone: set<Cid>) {
    && DomG(sh.dom, after.dom, u)
    && SlotsG(sh.dom, after.dom, sh.cells)
    && CellsG(sh.cells, after.cells, u, gone)
    && HeapG(sh.heap, after.heap, u)
    && HandlesG(sh.handles, after.handles, u)
  }

  // ----- stability ---------------------------------------------------------------

  ghost predicate Avoids(th: Thread, gone: set<Cid>) {
    forall c :: c in gone ==> !UsesCell(th, c)
  }

  lemma {:induction false} FrameAvoids(th: Thread, gone: set<Cid>, i: nat)
    requires Avoids(th, gone) && i < |th.frames| && !th.frames[i].Dropping?
    ensures th.frames[i].c !in gone
  {
    assert FrameUses(th.frames[i], th.frames[i].c);
  }

  lemma {:induction false} OpAvoids(th: Thread, gone: set<Cid>, c: Cid)
    requires Avoids(th, gone) && OpUses(th.op, c)
    ensures c !in gone
  {
  }

  lemma {:induction false} CallsStable(sh: Shared, after: Shared, u: Tid, gone: set<Cid>, th: Thread)
    requires CellsG(sh.cells, after.cells, u, gone) && Avoids(th, gone) && CallsOk(sh.cells, th)
    ensures CallsOk(after.cells, th)
  {
    forall i | 0 <= i < |th.frames| ensures FrameReads(after.cells, th.frames[i]) {
      var f := th.frames[i];
      assert FrameReads(sh.cells, f);
      if f.Hazard? || f.Fallback? { FrameAvoids(th, gone, i); assert CellG(sh.cells[f.c], after.cells[f.c], u); }
    }
    OpReadsStable(sh.cells, after.cells, u, gone, th);
  }

  lemma {:induction false} HistGrows(
    cells: map<Cid, Cell>, after: map<Cid, Cell>, u: Tid, gone: set<Cid>, th: Thread, c: Cid)
    requires CellsG(cells, after, u, gone) && Avoids(th, gone) && OpUses(th.op, c) && c in cells
    ensures c in after && |Hist(cells[c])| <= |Hist(after[c])| && CellG(cells[c], after[c], u)
  {
    OpAvoids(th, gone, c);
    assert CellG(cells[c], after[c], u);
  }

  lemma {:induction false} OpReadsStable(
    cells: map<Cid, Cell>, after: map<Cid, Cell>, u: Tid, gone: set<Cid>, th: Thread)
    requires CellsG(cells, after, u, gone) && Avoids(th, gone) && OpReads(cells, th.op)
    ensures OpReads(after, th.op)
  {
    match th.op
    case Loading(call) => HistGrows(cells, after, u, gone, th, call.c);
    case Pinning(call, _) => HistGrows(cells, after, u, gone, th, call.c);
    case Validating(call, _, _) => HistGrows(cells, after, u, gone, th, call.c);
    case Announcing(call, _, _) => HistGrows(cells, after, u, gone, th, call.c);
    case Counting(call) => HistGrows(cells, after, u, gone, th, call.c);
    case FbLocking(call, _) => HistGrows(cells, after, u, gone, th, call.c);
    case FbCloning(call, _) => HistGrows(cells, after, u, gone, th, call.c);
    case Cloning(call, _, _, v) => HistGrows(cells, after, u, gone, th, call.c);
    case FbUnlocking(call, _, _, _, v) => HistGrows(cells, after, u, gone, th, call.c);
    case WaitCheck(w) => HistGrows(cells, after, u, gone, th, w.c);
    case WaitCopy(w) => HistGrows(cells, after, u, gone, th, w.c);
    case WaitNext(w, _) => HistGrows(cells, after, u, gone, th, w.c);
    case WaitScan(w, _, _, _, _) => HistGrows(cells, after, u, gone, th, w.c);
    case _ =>
  }

  lemma {:induction false} PinsStable(d: Domain, e: Domain, u: Tid, t: Tid, th: Thread)
    requires DomG(d, e, u) && t != u && PinsOk(d, t, th) && PinsBacked(d, t, th)
    ensures PinsOk(e, t, th) && PinsBacked(e, t, th)
  {
    assert forall k :: OwnSlot(e, t, k) == OwnSlot(d, t, k);
    forall i | 0 <= i < |th.frames| ensures FramePins(e, t, i, th.frames[i]) {
      assert FramePins(d, t, i, th.frames[i]);
    }
  }

  lemma {:induction false} LocksStable(sh: Shared, after: Shared, u: Tid, gone: set<Cid>, t: Tid, th: Thread)
    requires CellsG(sh.cells, after.cells, u, gone) && DomG(sh.dom, after.dom, u) && Avoids(th, gone) && t != u
    requires LocksOk(sh.cells, |sh.dom.chain|, t, th.op)
    ensures LocksOk(after.cells, |after.dom.chain|, t, th.op)
  {
    match th.op
    case Writing(c, _) => HistGrows(sh.cells, after.cells, u, gone, th, c);
    case ScanStart(c) => HistGrows(sh.cells, after.cells, u, gone, th, c);
    case Scanning(c, _, _, _) => HistGrows(sh.cells, after.cells, u, gone, th, c);
    case Storing(c, _) => HistGrows(sh.cells, after.cells, u, gone, th, c);
    case Unlocking(c, _) => HistGrows(sh.cells, after.cells, u, gone, th, c);
    case FbCloning(call, _) => HistGrows(sh.cells, after.cells, u, gone, th, call.c);
    case FbUnlocking(call, _, _, _, _) => HistGrows(sh.cells, after.cells, u, gone, th, call.c);
    case _ =>
  }

  lemma {:induction false} TakesStable(heap: map<Addr, Obj>, after: map<Addr, Obj>, u: Tid, t: Tid, th: Thread)
    requires HeapG(heap, after, u) && t != u && TakesOk(heap, t, th)
    ensures TakesOk(after, t, th)
  {
    forall i | 0 <= i < |th.frames| && th.frames[i].Dropping?
      ensures th.frames[i].rest != [] && Takes(after, t, i, th.frames[i].rest)
    {
      assert Takes(heap, t, i, th.frames[i].rest);
    }
  }

  lemma {:induction false} OwnsStable(sh: Shared, after: Shared, u: Tid, gone: set<Cid>, t: Tid, th: Thread)
    requires CellsG(sh.cells, after.cells, u, gone) && HandlesG(sh.handles, after.handles, u)
    requires Avoids(th, gone) && t != u && OwnsOk(sh, t, th)
    ensures OwnsOk(after, t, th)
  {
    forall i | 0 <= i < |th.frames| ensures FrameOwns(after, t, i, th.frames[i]) {
      var f := th.frames[i];
      assert FrameOwns(sh, t, i, f);
      if f.Leaving? || f.Fallback? { FrameAvoids(th, gone, i); assert CellG(sh.cells[f.c], after.cells[f.c], u); }
    }
    match th.op
    case FbLocking(call, _) => if call.Borrows() { HistGrows(sh.cells, after.cells, u, gone, th, call.c); }
    case FbCloning(call, _) => if call.Borrows() { HistGrows(sh.cells, after.cells, u, gone, th, call.c); }
    case FbUnlocking(call, _, _, _, _) => if call.Borrows() { HistGrows(sh.cells, after.cells, u, gone, th, call.c); }
    case _ =>
  }

  lemma {:induction false} PendingStable(
    cells: map<Cid, Cell>, after: map<Cid, Cell>, u: Tid, gone: set<Cid>, t: Tid, th: Thread)
    requires CellsG(cells, after, u, gone) && Avoids(th, gone) && t != u && PendingOk(cells, t, th.op)
    ensures PendingOk(after, t, th.op)
  {
    if (th.op.Locking? || th.op.Writing?) && th.op.req.Insert? {
      HistGrows(cells, after, u, gone, th, th.op.c);
    }
  }

  /** A position passed now was passed before, or its slot is empty of validated announcements. */
  lemma {:induction false} PassedBefore(d: Domain, e: Domain, u: Tid, cursor: Rid, j: nat, r: Rid, k: nat)
    requires DomG(d, e, u) && Inv(d) && CursorOk(d, cursor) && (cursor == NULL ==> j == 0)
    requires Passed(e, cursor, j, r, k) && SlotAt(e, r, k).guard.Validated?
    requires NULL !in e.recs
    ensures Passed(d, cursor, j, r, k)
    ensures RankOf(e, cursor) == RankOf(d, cursor)
  {
    assert RankKept(d, e, r) && RankKept(d, e, cursor);
  }

  lemma {:induction false} ScanStable(sh: Shared, after: Shared, u: Tid, gone: set<Cid>, t: Tid, th: Thread)
    requires Guarantee(sh, after, u, gone) && Avoids(th, gone) && t != u
    requires Inv(sh.dom) && Inv(after.dom) && LocksOk(sh.cells, |sh.dom.chain|, t, th.op)
    requires ScanOk(sh.dom, sh.cells, th.op)
    ensures ScanOk(after.dom, after.cells, th.op)
  {
    if th.op.Scanning? {
      var d, e, op := sh.dom, after.dom, th.op;
      HistGrows(sh.cells, after.cells, u, gone, th, op.c);
      var floor := |Hist(sh.cells[op.c])| - 1;
      assert RankKept(d, e, op.cursor);
      forall r, k | Passed(e, op.cursor, op.k, r, k) && Older(SlotAt(e, r, k), op.c, floor)
        ensures SlotAt(e, r, k).ptr in op.found
      {
        PassedBefore(d, e, u, op.cursor, op.k, r, k);
        assert SlotAt(e, r, k) == SlotAt(d, r, k);
      }
    }
  }

  lemma {:induction false} FallbackStable(x: Cell, y: Cell, u: Tid, floor: nat)
    requires CellG(x, y, u) && NoOldFallback(x, floor) && floor < |Hist(x)|
    ensures NoOldFallback(y, floor)
  {
  }

  lemma {:induction false} OthersStable(sh: Shared, after: Shared, u: Tid, t: Tid, w: Waiter, todo: seq<Addr>)
    requires DomG(sh.dom, after.dom, u) && SlotsG(sh.dom, after.dom, sh.cells) && t != u && t in sh.dom.locals
    requires WaiterOk(sh.cells, w) && OthersIn(sh.dom, t, w, todo)
    ensures OthersIn(after.dom, t, w, todo)
  {
    var d, e := sh.dom, after.dom;
    forall r, k | IsOther(e, t, r) && Older(SlotAt(e, r, k), w.c, w.floor) ensures SlotAt(e, r, k).ptr in todo {
      assert SlotAt(e, r, k) == SlotAt(d, r, k);
    }
  }

  lemma {:induction false} PassedStable(
    sh: Shared, after: Shared, u: Tid, t: Tid, w: Waiter, cursor: Rid, j: nat, rest: seq<Addr>)
    requires DomG(sh.dom, after.dom, u) && SlotsG(sh.dom, after.dom, sh.cells) && t != u && t in sh.dom.locals
    requires Inv(sh.dom) && Inv(after.dom) && CursorOk(sh.dom, cursor) && (cursor == NULL ==> j == 0)
    requires WaiterOk(sh.cells, w) && PassedIn(sh.dom, t, w, cursor, j, rest)
    ensures PassedIn(after.dom, t, w, cursor, j, rest)
  {
    var d, e := sh.dom, after.dom;
    forall r, k | IsOther(e, t, r) && Older(SlotAt(e, r, k), w.c, w.floor) && Passed(e, cursor, j, r, k)
      ensures SlotAt(e, r, k).ptr in rest
    {
      PassedBefore(d, e, u, cursor, j, r, k);
      assert SlotAt(e, r, k) == SlotAt(d, r, k);
    }
  }

  lemma {:induction false} WaitStable(sh: Shared, after: Shared, u: Tid, gone: set<Cid>, t: Tid, th: Thread)
    requires Guarantee(sh, after, u, gone) && Avoids(th, gone) && t != u && t in sh.dom.locals
    requires Inv(sh.dom) && Inv(after.dom) && OpReads(sh.cells, th.op)
    requires WaitOk(sh.dom, sh.cells, t, th.op)
    ensures WaitOk(after.dom, after.cells, t, th.op)
  {
    var op := th.op;
    if op.WaitCopy? || op.WaitNext? || op.WaitScan? {
      HistGrows(sh.cells, after.cells, u, gone, th, op.w.c);
      if !op.w.onFallback { FallbackStable(sh.cells[op.w.c], after.cells[op.w.c], u, op.w.floor); }
      if !op.WaitCopy? { OthersStable(sh, after, u, t, op.w, op.todo); }
      if op.WaitScan? {
        assert RankKept(sh.dom, after.dom, op.cursor);
        if !op.hit { PassedStable(sh, after, u, t, op.w, op.cursor, op.k, op.todo[1..]); }
      }
    }
  }

  lemma {:induction false} UsesStable(cells: map<Cid, Cell>, after: map<Cid, Cell>, u: Tid, gone: set<Cid>, th: Thread)
    requires CellsG(cells, after, u, gone) && Avoids(th, gone) && UsesOk(cells, th)
    ensures UsesOk(after, th)
  {
    forall i | 0 <= i < |th.frames| && !th.frames[i].Dropping? ensures OpenIn(after, th.frames[i].c) {
      FrameAvoids(th, gone, i);
      assert OpenIn(cells, th.frames[i].c);
    }
    forall c | OpUses(th.op, c) ensures OpenIn(after, c) {
      assert OpenIn(cells, c);
    }
  }

  /** A step of `u` that keeps its guarantee keeps every other thread's part of the invariant. */
  lemma {:induction false} OthersKept(sh: Shared, after: Shared, u: Tid, gone: set<Cid>, t: Tid, th: Thread)
    requires Guarantee(sh, after, u, gone) && Avoids(th, gone) && t != u
    requires Inv(sh.dom) && Inv(after.dom)
    requires ThreadOk(sh, t, th) && PinsBacked(sh.dom, t, th)
    ensures ThreadOk(after, t, th) && PinsBacked(after.dom, t, th)
  {
    CallsStable(sh, after, u, gone, th);
    PinsStable(sh.dom, after.dom, u, t, th);
    LocksStable(sh, after, u, gone, t, th);
    TakesStable(sh.heap, after.heap, u, t, th);
    OwnsStable(sh, after, u, gone, t, th);
    PendingStable(sh.cells, after.cells, u, gone, t, th);
    ScanStable(sh, after, u, gone, t, th);
    WaitStable(sh, after, u, gone, t, th);
    UsesStable(sh.cells, after.cells, u, gone, th);
  }

  /** A thread answers for the lists it has taken out and the one-shot bodies it is running. */
  ghost predicate Answers(heap: map<Addr, Obj>, cells: map<Cid, Cell>, u: Tid, th: Thread) {
    && (forall a :: a in heap && heap[a].place.Taken? && heap[a].place.tid == u ==>
        TakenBacked(th, heap[a].place.depth, a))
    && (forall c, id :: c in cells && id in cells[c].log.running && cells[c].log.running[id] == u ==>
        RunBacked(th, c, id))
  }

  /** The acting thread's part of the invariant. */
  ghost predicate ActorOk(after: Shared, u: Tid, th: Thread) {
    ThreadOk(after, u, th) && PinsBacked(after.dom, u, th) && Answers(after.heap, after.cells, u, th)
  }

  lemma {:induction false} ThreadsKept(s: State, after: Shared, u: Tid, th: Thread, gone: set<Cid>)
    requires StateInv(s) && Inv(after.dom) && Guarantee(s.sh, after, u, gone)
    requires forall t :: t in s.threads && t != u ==> Avoids(s.threads[t], gone)
    requires ThreadOk(after, u, th) && PinsBacked(after.dom, u, th)
    ensures ThreadsInv(after, s.threads[u := th])
  {
    var threads := s.threads[u := th];
    forall t | t in threads ensures ThreadOk(after, t, threads[t]) && PinsBacked(after.dom, t, threads[t]) {
      if t != u { OthersKept(s.sh, after, u, gone, t, s.threads[t]); }
    }
  }

  lemma {:induction false} TakenKept(
    heap: map<Addr, Obj>, after: map<Addr, Obj>, threads: map<Tid, Thread>, u: Tid, th: Thread)
    requires TakenInv(heap, threads) && HeapG(heap, after, u)
    requires forall a :: a in after && after[a].place.Taken? && after[a].place.tid == u ==>
             TakenBacked(th, after[a].place.depth, a)
    ensures TakenInv(after, threads[u := th])
  {
  }

  lemma {:induction false} RunningKept(
    cells: map<Cid, Cell>, after: map<Cid, Cell>, threads: map<Tid, Thread>, u: Tid, th: Thread, gone: set<Cid>)
    requires RunningInv(cells, threads) && CellsG(cells, after, u, gone)
    requires forall c, id :: c in after && id in after[c].log.running && after[c].log.running[id] == u ==>
             RunBacked(th, c, id)
    ensures RunningInv(after, threads[u := th])
  {
  }

  /** What a step has to show. */
  lemma {:induction false} StateKept(s: State, after: Shared, u: Tid, th: Thread, gone: set<Cid>)
    requires StateInv(s) && SharedInv(after)
    requires after.dom.locals.Keys == s.sh.dom.locals.Keys + {u}
    requires Guarantee(s.sh, after, u, gone)
    requires forall t :: t in s.threads && t != u ==> Avoids(s.threads[t], gone)
    requires ActorOk(after, u, th)
    ensures StateInv(State(after, s.threads[u := th]))
  {
    ThreadsKept(s, after, u, th, gone);
    TakenKept(s.sh.heap, after.heap, s.threads, u, th);
    RunningKept(s.sh.cells, after.cells, s.threads, u, th, gone);
  }
}
