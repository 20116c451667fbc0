/** The inductive invariant of the `SnapCell` machine.

    It is split by the part of the state each clause talks about: clauses on shared state alone,
    clauses tying one thread to the shared state (`ThreadOk`), and clauses saying which thread
    answers for a shared resource (`...Backed`). */
module SnapInvariant {
  import opened HandlerList
  import opened HazardDomain
  import opened SnapCell
  import L = RegistryLog

  // ----- shared state ----------------------------------------------------------

  /** An allocated list is the one version its address stands for, and its place is what the cell says. */
  ghost predicate ObjOk(a: Addr, o: Obj, cells: map<Cid, Cell>) {
    && a != NULL && o.cell in cells && o.strong >= 1
    && var x := cells[o.cell];
    && o.version < |x.home| && x.home[o.version] == a
    && o.version < |Hist(x)| && o.list == Hist(x)[o.version]
    && (o.place.Current? ==> x.open && x.current == a && o.version == |Hist(x)| - 1)
    && (o.place.Retired? ==> x.open && a in x.retired)
  }

  /** A version is allocated or has been freed exactly once. */
  ghost predicate HomeOk(c: Cid, x: Cell, v: nat, heap: map<Addr, Obj>)
    requires v < |x.home| && v < |x.frees|
  {
    if x.home[v] == NULL then x.frees[v] == 1
    else x.frees[v] == 0 && x.home[v] in heap && heap[x.home[v]].cell == c && heap[x.home[v]].version == v
  }

  ghost predicate RetiredOk(c: Cid, retired: seq<Addr>, heap: map<Addr, Obj>) {
    && NoDup(retired)
    && forall a :: a in retired ==> a in heap && heap[a].cell == c && heap[a].place.Retired?
  }

  ghost predicate CellOk(c: Cid, x: Cell, heap: map<Addr, Obj>) {
    && |x.home| == |x.frees| == |Hist(x)|
    && (forall v :: 0 <= v < |x.home| ==> HomeOk(c, x, v, heap))
    && (if x.open then x.current in heap && heap[x.current].cell == c && heap[x.current].place.Current?
        else x.retired == [])
    && RetiredOk(c, x.retired, heap)
  }

  ghost predicate HeapInv(heap: map<Addr, Obj>, cells: map<Cid, Cell>) {
    forall a :: a in heap ==> ObjOk(a, heap[a], cells)
  }

  ghost predicate CellsInv(cells: map<Cid, Cell>, heap: map<Addr, Obj>) {
    forall c :: c in cells ==> CellOk(c, cells[c], heap)
  }

  ghost predicate LogsInv(cells: map<Cid, Cell>) {
    forall c :: c in cells ==> L.LogInv(cells[c].log)
  }

  /** `retired_len` is exact and the garbage is bounded by the announcements that can exist. */
  ghost predicate Settled(x: Cell, records: nat) {
    x.retiredLen == |x.retired| && |x.retired| <= SLOTS * records
  }

  ghost predicate SettledInv(cells: map<Cid, Cell>, records: nat) {
    forall c :: c in cells && cells[c].lock.Nobody? ==> Settled(cells[c], records)
  }

  /** `fallback_readers` counts the fallback reads in progress. */
  ghost predicate CountersInv(cells: map<Cid, Cell>, nextTok: Tok) {
    forall c :: c in cells ==> CounterOk(cells[c], nextTok)
  }

  ghost predicate CounterOk(x: Cell, nextTok: Tok) {
    && x.fallbackReaders == |x.counted|
    && forall tok :: tok in x.counted ==> tok < nextTok
  }

  ghost predicate HandlesInv(handles: map<Tok, Handle>, heap: map<Addr, Obj>, nextTok: Tok) {
    forall tok :: tok in handles ==> tok < nextTok && HandleOk(handles[tok], heap)
  }

  ghost predicate HandleOk(h: Handle, heap: map<Addr, Obj>) {
    h.addr in heap && heap[h.addr].cell == h.cell && heap[h.addr].version == h.version
  }

  function Holders(handles: map<Tok, Handle>, a: Addr): set<Tok> {
    set tok | tok in handles && handles[tok].addr == a
  }

  /** A list's strong count is the cell's (or the dropper's) reference plus the owned handles. */
  ghost predicate StrongOk(a: Addr, o: Obj, handles: map<Tok, Handle>) {
    o.strong == (if o.place.Loose? then 0 else 1) + |Holders(handles, a)|
  }

  ghost predicate StrongInv(heap: map<Addr, Obj>, handles: map<Tok, Handle>) {
    forall a :: a in heap ==> StrongOk(a, heap[a], handles)
  }

  /** A validated announcement names an allocated list that the cell still holds. */
  ghost predicate Protected(s: Slot, heap: map<Addr, Obj>)
    requires s.guard.Validated?
  {
    && s.ptr in heap && heap[s.ptr].cell == s.guard.cell && heap[s.ptr].version == s.guard.version
    && (heap[s.ptr].place.Current? || heap[s.ptr].place.Retired?)
  }

  ghost predicate SlotsInv(d: Domain, heap: map<Addr, Obj>) {
    forall r, k :: SlotAt(d, r, k).guard.Validated? ==> Protected(SlotAt(d, r, k), heap)
  }

  ghost predicate SharedInv(sh: Shared) {
    && Inv(sh.dom)
    && HeapInv(sh.heap, sh.cells)
    && CellsInv(sh.cells, sh.heap)
    && LogsInv(sh.cells)
    && SettledInv(sh.cells, |sh.dom.chain|)
    && CountersInv(sh.cells, sh.nextTok)
    && HandlesInv(sh.handles, sh.heap, sh.nextTok)
    && StrongInv(sh.heap, sh.handles)
    && SlotsInv(sh.dom, sh.heap)
  }

  // ----- one thread ------------------------------------------------------------

  function OwnSlot(d: Domain, t: Tid, k: nat): Slot {
    if t in d.locals then SlotAt(d, d.locals[t].record, k) else EMPTY
  }

  /** The versions a thread remembers are versions the cell has had. */
  ghost predicate CallsOk(cells: map<Cid, Cell>, th: Thread) {
    && (forall i :: 0 <= i < |th.frames| ==> FrameReads(cells, th.frames[i]))
    && OpReads(cells, th.op)
  }

  ghost predicate ReadOk(cells: map<Cid, Cell>, c: Cid, version: nat, since: nat, seen: seq<Entry>, next: nat) {
    c in cells && since <= version < |Hist(cells[c])| && seen == Hist(cells[c])[version] && next <= |seen|
  }

  ghost predicate FrameReads(cells: map<Cid, Cell>, f: Frame) {
    match f
    case Hazard(c, _, _, version, since, seen, next, _) => ReadOk(cells, c, version, since, seen, next)
    case Fallback(c, _, _, _, version, since, seen, next, _) => ReadOk(cells, c, version, since, seen, next)
    case _ => true
  }

  ghost predicate CallOk(cells: map<Cid, Cell>, call: Call) {
    call.c in cells && call.since < |Hist(cells[call.c])|
  }

  ghost predicate OpReads(cells: map<Cid, Cell>, op: Op) {
    match op
    case Loading(call) => CallOk(cells, call)
    case Pinning(call, _) => CallOk(cells, call)
    case Validating(call, _, _) => CallOk(cells, call)
    case Announcing(call, _, _) => CallOk(cells, call)
    case Counting(call) => CallOk(cells, call)
    case FbLocking(call, _) => CallOk(cells, call)
    case FbCloning(call, _) => CallOk(cells, call)
    case Cloning(call, _, _, v) => CallOk(cells, call) && call.since <= v < |Hist(cells[call.c])|
    case FbUnlocking(call, _, _, _, v) => CallOk(cells, call) && call.since <= v < |Hist(cells[call.c])|
    case WaitCheck(w) => WaiterOk(cells, w)
    case WaitCopy(w) => WaiterOk(cells, w)
    case WaitNext(w, _) => WaiterOk(cells, w)
    case WaitScan(w, _, _, _, _) => WaiterOk(cells, w)
    case _ => true
  }

  ghost predicate WaiterOk(cells: map<Cid, Cell>, w: Waiter) {
    w.c in cells && w.floor < |Hist(cells[w.c])|
  }

  /** A thread's reads hold the slots they claimed. */
  ghost predicate PinAt(d: Domain, t: Tid, k: nat, slot: Slot) {
    k < SLOTS && OwnSlot(d, t, k) == slot
  }

  ghost predicate FramePins(d: Domain, t: Tid, i: nat, f: Frame) {
    f.Hazard? ==> PinAt(d, t, f.k, Slot(f.a, Validated(f.c, f.version, i)))
  }

  ghost predicate OpPins(d: Domain, t: Tid, n: nat, op: Op) {
    match op
    case Pinning(_, p) => p != NULL
    case Validating(_, p, k) => p != NULL && PinAt(d, t, k, Slot(p, Claimed))
    case Announcing(_, p, k) => p != NULL && k < SLOTS && OwnSlot(d, t, k).guard.Claimed?
    case Cloning(call, a, k, v) => PinAt(d, t, k, Slot(a, Validated(call.c, v, n)))
    case Unpinning(c, a, k, v, _) => PinAt(d, t, k, Slot(a, Validated(c, v, n)))
    case _ => true
  }

  /** Inside `acquire_record` a thread is in `pin`; inside `Local::drop` it is doing nothing else. */
  ghost predicate AcqOk(l: Local, th: Thread) {
    && (th.op.Exiting? <==> l.acq.Clearing?)
    && (th.op.Exiting? ==> th.frames == [])
    && (l.acq.Entering? || l.acq.Walking? || l.acq.Pushing? ==> th.op.Pinning?)
  }

  ghost predicate PinsOk(d: Domain, t: Tid, th: Thread) {
    && t in d.locals && AcqOk(d.locals[t], th)
    && (forall i :: 0 <= i < |th.frames| ==> FramePins(d, t, i, th.frames[i]))
    && OpPins(d, t, |th.frames|, th.op)
  }

  /** What the holder of the writer lock knows. */
  ghost predicate LocksOk(cells: map<Cid, Cell>, records: nat, t: Tid, op: Op) {
    match op
    case Writing(c, _) => LockedBy(cells, c, t) && Settled(cells[c], records)
    case ScanStart(c) => LockedBy(cells, c, t)
    case Scanning(c, _, _, _) => LockedBy(cells, c, t)
    case Storing(c, _) => LockedBy(cells, c, t) && |cells[c].retired| <= SLOTS * records
    case Unlocking(c, _) => LockedBy(cells, c, t) && Settled(cells[c], records)
    case FbCloning(call, _) => LockedBy(cells, call.c, t) && Settled(cells[call.c], records)
    case FbUnlocking(call, _, _, _, _) => LockedBy(cells, call.c, t) && Settled(cells[call.c], records)
    case _ => true
  }

  ghost predicate LockedBy(cells: map<Cid, Cell>, c: Cid, t: Tid) {
    c in cells && cells[c].lock == By(t)
  }

  /** Lists taken out to be dropped belong to one frame (or the operation) of one thread. */
  ghost predicate Takes(heap: map<Addr, Obj>, t: Tid, i: nat, s: seq<Addr>) {
    NoDup(s) && forall a :: a in s ==> a in heap && heap[a].place == Taken(t, i)
  }

  ghost predicate TakesOk(heap: map<Addr, Obj>, t: Tid, th: Thread) {
    && (forall i :: 0 <= i < |th.frames| && th.frames[i].Dropping? ==>
          th.frames[i].rest != [] && Takes(heap, t, i, th.frames[i].rest))
    && (th.op.Storing? || th.op.Unlocking? ==> Takes(heap, t, |th.frames|, th.op.freed))
  }

  /** A fallback read owns an `Arc` and is counted, in that order on the way out. */
  ghost predicate Owns(handles: map<Tok, Handle>, arc: Tok, h: Handle) {
    arc in handles && handles[arc] == h
  }

  ghost predicate IsCounted(cells: map<Cid, Cell>, c: Cid, tok: Tok, n: Counted) {
    c in cells && tok in cells[c].counted && cells[c].counted[tok] == n
  }

  ghost predicate FrameOwns(sh: Shared, t: Tid, i: nat, f: Frame) {
    match f
    case Fallback(c, a, tok, arc, v, _, _, _, _) =>
      Owns(sh.handles, arc, Handle(a, c, v, Held(t, i))) && IsCounted(sh.cells, c, tok, Counted(t, i, Reading(v)))
    case Leaving(c, tok) => IsCounted(sh.cells, c, tok, Counted(t, i, Done))
    case _ => true
  }

  ghost predicate OpOwns(sh: Shared, t: Tid, n: nat, op: Op) {
    match op
    case FbLocking(call, tok) => call.Borrows() ==> IsCounted(sh.cells, call.c, tok, Counted(t, n, Waiting))
    case FbCloning(call, tok) => call.Borrows() ==> IsCounted(sh.cells, call.c, tok, Counted(t, n, Waiting))
    case FbUnlocking(call, tok, arc, a, v) =>
      && Owns(sh.handles, arc, Handle(a, call.c, v, Held(t, n)))
      && (call.Borrows() ==> IsCounted(sh.cells, call.c, tok, Counted(t, n, Reading(v))))
    case _ => true
  }

  ghost predicate OwnsOk(sh: Shared, t: Tid, th: Thread) {
    && (forall i :: 0 <= i < |th.frames| ==> FrameOwns(sh, t, i, th.frames[i]))
    && OpOwns(sh, t, |th.frames|, th.op)
  }

  /** An id drawn for a registration is the drawing thread's until it is inserted. */
  ghost predicate PendingOk(cells: map<Cid, Cell>, t: Tid, op: Op) {
    (op.Locking? || op.Writing?) && op.req.Insert? ==>
      op.c in cells && (cells[op.c].log.drawn <= L.U64 ==> IsPending(cells[op.c].log, op.req.entry.id, t))
  }

  ghost predicate IsPending(g: L.Log, id: nat, t: Tid) {
    id in g.pending && g.pending[id] == t
  }

  /** Position `(r, k)` has been passed by a walk that stands at `(cursor, j)`; records published
      since the walk loaded the head count as passed. */
  predicate Passed(d: Domain, cursor: Rid, j: nat, r: Rid, k: nat) {
    RankOf(d, r) > RankOf(d, cursor) || (r == cursor && RankOf(d, r) >= 0 && k < j)
  }

  ghost predicate CursorOk(d: Domain, cursor: Rid) {
    cursor == NULL || RankOf(d, cursor) >= 0
  }

  /** The slot announces a version of `c` older than `floor`. */
  predicate Older(s: Slot, c: Cid, floor: int) {
    s.guard.Validated? && s.guard.cell == c && s.guard.version < floor
  }

  /** Every old announcement the walk has passed is among `found`. */
  ghost predicate FoundAll(d: Domain, c: Cid, floor: int, cursor: Rid, j: nat, found: seq<Addr>) {
    forall r, k :: Passed(d, cursor, j, r, k) && Older(SlotAt(d, r, k), c, floor) ==> SlotAt(d, r, k).ptr in found
  }

  /** The partial scan has found every old announcement it has passed, and found no more than it loaded. */
  ghost predicate ScanOk(d: Domain, cells: map<Cid, Cell>, op: Op) {
    op.Scanning? ==>
      && op.c in cells && CursorOk(d, op.cursor) && op.k <= SLOTS && (op.cursor == NULL ==> op.k == 0)
      && |op.found| <= SLOTS * (|d.chain| - 1 - RankOf(d, op.cursor)) + op.k
      && FoundAll(d, op.c, |Hist(cells[op.c])| - 1, op.cursor, op.k, op.found)
  }

  /** No fallback reader of the cell holds a version older than `floor`. */
  ghost predicate NoOldFallback(x: Cell, floor: nat) {
    forall tok :: tok in x.counted && x.counted[tok].phase.Reading? ==> x.counted[tok].phase.version >= floor
  }

  /** Every old announcement of another thread is among `todo`. */
  ghost predicate OthersIn(d: Domain, t: Tid, w: Waiter, todo: seq<Addr>) {
    forall r, k :: IsOther(d, t, r) && Older(SlotAt(d, r, k), w.c, w.floor) ==> SlotAt(d, r, k).ptr in todo
  }

  /** Those already passed are among `rest`. */
  ghost predicate PassedIn(d: Domain, t: Tid, w: Waiter, cursor: Rid, j: nat, rest: seq<Addr>) {
    forall r, k :: IsOther(d, t, r) && Older(SlotAt(d, r, k), w.c, w.floor) && Passed(d, cursor, j, r, k) ==>
      SlotAt(d, r, k).ptr in rest
  }

  /** What a waiter has established so far. */
  ghost predicate WaitOk(d: Domain, cells: map<Cid, Cell>, t: Tid, op: Op) {
    && (op.WaitCopy? || op.WaitNext? || op.WaitScan? ==>
          op.w.c in cells && (!op.w.onFallback ==> NoOldFallback(cells[op.w.c], op.w.floor)))
    && (op.WaitNext? || op.WaitScan? ==> OthersIn(d, t, op.w, op.todo))
    && (op.WaitScan? ==>
          && op.todo != [] && CursorOk(d, op.cursor) && op.k <= SLOTS && (op.cursor == NULL ==> op.k == 0)
          && (!op.hit ==> PassedIn(d, t, op.w, op.cursor, op.k, op.todo[1..])))
  }

  predicate IsOther(d: Domain, t: Tid, r: Rid) {
    t in d.locals ==> r != d.locals[t].record
  }

  /** Whatever a thread is inside of is open. */
  ghost predicate UsesOk(cells: map<Cid, Cell>, th: Thread) {
    && (forall i :: 0 <= i < |th.frames| && !th.frames[i].Dropping? ==> OpenIn(cells, th.frames[i].c))
    && (forall c :: OpUses(th.op, c) ==> OpenIn(cells, c))
  }

  ghost predicate OpenIn(cells: map<Cid, Cell>, c: Cid) { c in cells && cells[c].open }

  ghost predicate ThreadOk(sh: Shared, t: Tid, th: Thread) {
    && CallsOk(sh.cells, th)
    && PinsOk(sh.dom, t, th)
    && LocksOk(sh.cells, |sh.dom.chain|, t, th.op)
    && TakesOk(sh.heap, t, th)
    && OwnsOk(sh, t, th)
    && PendingOk(sh.cells, t, th.op)
    && ScanOk(sh.dom, sh.cells, th.op)
    && WaitOk(sh.dom, sh.cells, t, th.op)
    && UsesOk(sh.cells, th)
  }

  // ----- resources and the threads answering for them ---------------------------

  /** A non-null slot is one of its owner's live pins. */
  ghost predicate SlotBacked(th: Thread, s: Slot, k: nat) {
    match s.guard
    case Vacant => false
    case Claimed => (th.op.Validating? || th.op.Announcing?) && th.op.k == k
    case Validated(c, v, i) =>
      || (i < |th.frames| && th.frames[i].Hazard? && th.frames[i].k == k && th.frames[i].c == c
          && th.frames[i].version == v)
      || (i == |th.frames| && (th.op.Cloning? || th.op.Unpinning?) && th.op.k == k && th.op.version == v
          && OpUses(th.op, c))
  }

  ghost predicate PinsBacked(d: Domain, t: Tid, th: Thread) {
    forall k :: OwnSlot(d, t, k) != EMPTY ==> SlotBacked(th, OwnSlot(d, t, k), k)
  }

  /** A list taken out is waiting in its taker's frame or operation. */
  ghost predicate TakenBacked(th: Thread, i: nat, a: Addr) {
    || (i < |th.frames| && th.frames[i].Dropping? && a in th.frames[i].rest)
    || (i == |th.frames| && (th.op.Storing? || th.op.Unlocking?) && a in th.op.freed)
  }

  ghost predicate TakenInv(heap: map<Addr, Obj>, threads: map<Tid, Thread>) {
    forall a :: a in heap && heap[a].place.Taken? ==>
      heap[a].place.tid in threads && TakenBacked(threads[heap[a].place.tid], heap[a].place.depth, a)
  }

  /** A one-shot body that has started is still running or about to be removed by the thread that ran it. */
  ghost predicate RunBacked(th: Thread, c: Cid, id: nat) {
    || Body(c, id) in th.frames
    || th.op == Locking(c, Remove(id))
    || th.op == Writing(c, Remove(id))
  }

  ghost predicate RunningInv(cells: map<Cid, Cell>, threads: map<Tid, Thread>) {
    forall c, id :: c in cells && id in cells[c].log.running ==>
      cells[c].log.running[id] in threads && RunBacked(threads[cells[c].log.running[id]], c, id)
  }

  ghost predicate ThreadsInv(sh: Shared, threads: map<Tid, Thread>) {
    forall t :: t in threads ==> ThreadOk(sh, t, threads[t]) && PinsBacked(sh.dom, t, threads[t])
  }

  ghost predicate StateInv(s: State) {
    && SharedInv(s.sh)
    && s.threads.Keys == s.sh.dom.locals.Keys
    && ThreadsInv(s.sh, s.threads)
    && TakenInv(s.sh.heap, s.threads)
    && RunningInv(s.sh.cells, s.threads)
  }
}
