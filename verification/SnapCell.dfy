/** `SnapCell` (`src/snapshot.rs`) over the hazard domain, as a step machine: any number of
    threads, cells and records, every atomic operation a step of its own.

    A thread is a stack of frames (reads it is inside, handlers, one-shot bodies and panic
    callbacks it is running, lists it is dropping) and the operation on top of them.  A handler,
    a callback or a destructor is user code, so with the operation `Idle` a thread may start any
    further operation at any depth.

    Data behind the writer mutex is touched only by its holder, so consecutive accesses to it
    by the holder are one step.  The first load of `protect` may return any stale non-null
    address; an address is free for reuse as soon as its list has been freed. */
module SnapCell {
  import opened HandlerList
  import opened HazardDomain
  import L = RegistryLog

  type Cid = nat
  type Tok = nat

  /** Who holds the reference a list is born with (auxiliary). */
  datatype Place = Current | Retired | Taken(tid: Tid, depth: nat) | Loose

  /** An `Arc` allocation.  `cell` and `version` name the list for the proofs. */
  datatype Obj = Obj(cell: Cid, version: nat, list: seq<Entry>, strong: nat, place: Place)

  /** Who may drop an owned `Arc`: the stack frame holding it, or whoever it was returned to. */
  datatype Holder = Anyone | Held(tid: Tid, depth: nat)

  /** An owned `Arc` outside the cell: a fallback reader's, or one returned by `load_arc_if`. */
  datatype Handle = Handle(addr: Addr, cell: Cid, version: nat, holder: Holder)

  datatype Phase = Waiting | Reading(version: nat) | Done

  /** One unit of `fallback_readers` (auxiliary). */
  datatype Counted = Counted(tid: Tid, depth: nat, phase: Phase)

  /** `retired` is the vector inside the mutex and `lock` its holder.  `panics` and `callback` are the
      registry's panic counter and whether it has a panic callback.  `counted`, `log`, `home`
      (where each version lives, `NULL` once freed) and `frees` are auxiliary. */
  datatype Cell = Cell(
    open: bool, current: Addr, retired: seq<Addr>, retiredLen: nat, fallbackReaders: nat, lock: Owner,
    panics: nat, callback: bool, counted: map<Tok, Counted>, log: L.Log, home: seq<Addr>, frees: seq<nat>)

  datatype Shared = Shared(
    dom: Domain, cells: map<Cid, Cell>, heap: map<Addr, Obj>, handles: map<Tok, Handle>, nextTok: Tok)

  /** What a call wants the list for: to dispatch over it or to look at it in place, which is `read`, or
      to keep a reference to it, which is `load_arc_if`. */
  datatype Use = Notify | Look | Load

  /** `since` is the version current at the call. */
  datatype Call = Call(c: Cid, use: Use, since: nat) {
    predicate Borrows() { !use.Load? }
  }

  /** A call of `wait_for_retired_readers`; `floor` is the version current at the call. */
  datatype Waiter = Waiter(c: Cid, onFallback: bool, floor: nat)

  datatype Frame =
    | Hazard(c: Cid, a: Addr, k: nat, version: nat, since: nat, seen: seq<Entry>, next: nat, notify: bool)
    | Fallback(
        c: Cid, a: Addr, tok: Tok, arc: Tok, version: nat, since: nat, seen: seq<Entry>, next: nat, notify: bool)
    | Leaving(c: Cid, tok: Tok)
    | Dropping(rest: seq<Addr>)
    | Handler(c: Cid, id: nat)
    | Body(c: Cid, id: nat)
    | Callback(c: Cid, id: nat)

  datatype Op =
    | Idle
    | Loading(call: Call)
    | Pinning(call: Call, p: Addr)
    | Validating(call: Call, p: Addr, k: nat)
    | Announcing(call: Call, p: Addr, k: nat)
    | Cloning(call: Call, a: Addr, k: nat, version: nat)
    | Unpinning(c: Cid, a: Addr, k: nat, version: nat, unwinding: bool)
    | Checking(c: Cid)
    | TryLocking(c: Cid)
    | ScanStart(c: Cid)
    | Scanning(c: Cid, cursor: Rid, k: nat, found: seq<Addr>)
    | Storing(c: Cid, freed: seq<Addr>)
    | Unlocking(c: Cid, freed: seq<Addr>)
    | Locking(c: Cid, req: Request)
    | Writing(c: Cid, req: Request)
    | Counting(call: Call)
    | FbLocking(call: Call, tok: Tok)
    | FbCloning(call: Call, tok: Tok)
    | FbUnlocking(call: Call, tok: Tok, arc: Tok, a: Addr, version: nat)
    | WaitCheck(w: Waiter)
    | WaitCopy(w: Waiter)
    | WaitNext(w: Waiter, todo: seq<Addr>)
    | WaitScan(w: Waiter, todo: seq<Addr>, cursor: Rid, k: nat, hit: bool)
    | Telling(c: Cid, id: nat)
    | Exiting

  /** `fallbackDepth` is the thread-local `FALLBACK_DEPTH`. */
  datatype Thread = Thread(frames: seq<Frame>, op: Op, fallbackDepth: nat)

  datatype State = State(sh: Shared, threads: map<Tid, Thread>)

  const EMPTY_STATE: State := State(Shared(START, map[], map[], map[], 0), map[])

  // ----- helpers -------------------------------------------------------------

  function Hist(x: Cell): seq<seq<Entry>> { x.log.hist }

  function SetOp(th: Thread, op: Op): Thread { th.(op := op) }

  function Push(th: Thread, f: Frame): Thread { th.(frames := th.frames + [f], op := Idle) }

  predicate Top(th: Thread) { th.op.Idle? && th.frames != [] }

  function TopFrame(th: Thread): Frame
    requires th.frames != []
  {
    th.frames[|th.frames| - 1]
  }

  function Pop(th: Thread, op: Op): Thread
    requires th.frames != []
  {
    th.(frames := th.frames[..|th.frames| - 1], op := op)
  }

  function SetTop(th: Thread, f: Frame): Thread
    requires th.frames != []
  {
    th.(frames := th.frames[|th.frames| - 1 := f])
  }

  function SetCell(sh: Shared, c: Cid, x: Cell): Shared { sh.(cells := sh.cells[c := x]) }

  function SlotAt(d: Domain, r: Rid, k: nat): Slot {
    if r in d.recs && k < |d.recs[r].slots| then d.recs[r].slots[k] else EMPTY
  }

  function NextOf(d: Domain, r: Rid): Rid {
    if r in d.recs then d.recs[r].next else NULL
  }

  function FirstFree(slots: seq<Slot>): (k: nat)
    ensures k <= |slots|
    ensures k < |slots| ==> slots[k].ptr == NULL
    ensures forall j :: 0 <= j < k ==> slots[j].ptr != NULL
  {
    if slots == [] || slots[0].ptr == NULL then 0 else 1 + FirstFree(slots[1..])
  }

  /** The slot `pin` would claim; `SLOTS` when there is none. */
  function FreeSlot(sh: Shared, t: Tid): nat {
    if OwnsRecord(sh.dom, t) then FirstFree(sh.dom.recs[sh.dom.locals[t].record].slots) else SLOTS
  }

  predicate IsOpen(sh: Shared, c: Cid) { c in sh.cells && sh.cells[c].open && Hist(sh.cells[c]) != [] }

  function Newest(x: Cell): nat
    requires Hist(x) != []
  {
    |Hist(x)| - 1
  }

  predicate NoDup(s: seq<Addr>) {
    forall i, j :: 0 <= i < j < |s| ==> s[i] != s[j]
  }

  /** What `collect_unprotected` may return, in any order: kept entries were announced, moved-out ones were not. */
  ghost predicate IsSplit(retired: seq<Addr>, found: seq<Addr>, kept: seq<Addr>, freed: seq<Addr>) {
    && multiset(kept) + multiset(freed) == multiset(retired)
    && (forall a :: a in kept ==> a in found)
    && (forall a :: a in freed ==> a !in found)
  }

  /** Gives up one strong reference; the last one frees the list and its address. */
  function Unref(sh: Shared, a: Addr, place: Place): Shared
    requires a in sh.heap
  {
    var o := sh.heap[a];
    if o.strong > 1 then sh.(heap := sh.heap[a := o.(strong := o.strong - 1, place := place)])
    else
      var gone := sh.(heap := sh.heap - {a});
      if o.cell in sh.cells && o.version < |sh.cells[o.cell].home| && o.version < |sh.cells[o.cell].frees| then
        var x := sh.cells[o.cell];
        SetCell(gone, o.cell, x.(home := x.home[o.version := NULL],
            frees := x.frees[o.version := x.frees[o.version] + 1]))
      else gone
  }

  function Ref(sh: Shared, a: Addr): Shared
    requires a in sh.heap
  {
    sh.(heap := sh.heap[a := sh.heap[a].(strong := sh.heap[a].strong + 1)])
  }

  // ----- steps that change only the thread's operation -------------------------

  datatype Step =
    | Quiet(q: QuietStep)
    | Spawn
    | Hazards(step: HazardDomain.Step)
    | OpenCell(c: Cid, a: Addr)
    | CloseCell(c: Cid)
    | Pin
    | Announce
    | Validate
    | Unpin
    | Clone(keep: bool)
    | TryLock
    | Collect(kept: seq<Addr>, freed: seq<Addr>)
    | StoreLen
    | Unlock
    | DrawId(c: Cid, priority: int, once: bool)
    | Lock
    | Write(a: Addr)
    | Count
    | FbLock
    | FbClone
    | FbUnlock
    | FbRelease(unwinding: bool)
    | Uncount
    | CallHandler
    | FinishBody(alive: bool)
    | HandlerEnds(panicked: bool)
    | Tell
    | CallbackEnds(panicked: bool)
    | SetCallback(c: Cid, on: bool)
    | DropOne
    | DropHandle(tok: Tok)

  datatype QuietStep =
    | BeginRead(c: Cid, use: Use)
    | LoadCurrent(p: Addr)
    | PinFails
    | Mismatch
    | LeaveHazard(unwinding: bool)
    | CheckRetired
    | StartScan
    | ScanSlot
    | ScanRecord
    | BeginWrite(c: Cid, req: Request)
    | BeginWait(c: Cid)
    | SeeNoFallback
    | CopyRetired
    | StartOthers
    | OthersSlot
    | OthersRecord
    | OthersDone
    | WaitReturns

  predicate CanQuiet(sh: Shared, t: Tid, th: Thread, q: QuietStep) {
    match q
    case BeginRead(c, _) => th.op.Idle? && IsOpen(sh, c)
    case LoadCurrent(p) => th.op.Loading? && p != NULL
    case PinFails =>
      && th.op.Pinning? && t in sh.dom.locals
      && var l := sh.dom.locals[t];
         !l.tls || (l.record != NULL && FreeSlot(sh, t) == SLOTS)
    case Mismatch =>
      th.op.Validating? && th.op.call.c in sh.cells && sh.cells[th.op.call.c].current != th.op.p
    case LeaveHazard(unwinding) => Top(th) && TopFrame(th).Hazard? && (unwinding || Complete(TopFrame(th)))
    case CheckRetired => th.op.Checking? && th.op.c in sh.cells
    case StartScan => th.op.ScanStart?
    case ScanSlot => th.op.Scanning? && th.op.cursor != NULL && th.op.k < SLOTS
    case ScanRecord => th.op.Scanning? && th.op.cursor != NULL && th.op.k == SLOTS
    case BeginWrite(c, req) => th.op.Idle? && IsOpen(sh, c) && !req.Insert?
    case BeginWait(c) => th.op.Idle? && IsOpen(sh, c)
    case SeeNoFallback =>
      th.op.WaitCheck? && th.op.w.c in sh.cells && (th.op.w.onFallback || sh.cells[th.op.w.c].fallbackReaders == 0)
    case CopyRetired => th.op.WaitCopy? && th.op.w.c in sh.cells && sh.cells[th.op.w.c].lock.Nobody?
    case StartOthers => th.op.WaitNext? && th.op.todo != []
    case OthersSlot =>
      && th.op.WaitScan? && th.op.cursor != NULL && th.op.k < SLOTS && th.op.todo != []
      && t in sh.dom.locals && th.op.cursor != sh.dom.locals[t].record
    case OthersRecord =>
      && th.op.WaitScan? && th.op.cursor != NULL && t in sh.dom.locals
      && (th.op.cursor == sh.dom.locals[t].record || th.op.k == SLOTS)
    case OthersDone => th.op.WaitScan? && th.op.cursor == NULL && th.op.todo != []
    case WaitReturns => th.op.WaitNext? && th.op.todo == []
  }

  function DoQuiet(sh: Shared, t: Tid, th: Thread, q: QuietStep): Thread
    requires CanQuiet(sh, t, th, q)
  {
    match q
    case BeginRead(c, use) => SetOp(th, Loading(Call(c, use, Newest(sh.cells[c]))))
    case LoadCurrent(p) => SetOp(th, Pinning(th.op.call, p))
    case PinFails => SetOp(th, Counting(th.op.call))
    case Mismatch => SetOp(th, Announcing(th.op.call, sh.cells[th.op.call.c].current, th.op.k))
    case LeaveHazard(unwinding) =>
      var f := TopFrame(th);
      Pop(th, Unpinning(f.c, f.a, f.k, f.version, unwinding))
    case CheckRetired => SetOp(th, if sh.cells[th.op.c].retiredLen != 0 then TryLocking(th.op.c) else Idle)
    case StartScan => SetOp(th, Scanning(th.op.c, sh.dom.head, 0, []))
    case ScanSlot =>
      var p := SlotAt(sh.dom, th.op.cursor, th.op.k).ptr;
      SetOp(th, Scanning(th.op.c, th.op.cursor, th.op.k + 1, if p != NULL then th.op.found + [p] else th.op.found))
    case ScanRecord => SetOp(th, Scanning(th.op.c, NextOf(sh.dom, th.op.cursor), 0, th.op.found))
    case BeginWrite(c, req) => SetOp(th, Locking(c, req))
    case BeginWait(c) => SetOp(th, WaitCheck(Waiter(c, th.fallbackDepth > 0, Newest(sh.cells[c]))))
    case SeeNoFallback => SetOp(th, WaitCopy(th.op.w))
    case CopyRetired => SetOp(th, WaitNext(th.op.w, sh.cells[th.op.w.c].retired))
    case StartOthers => SetOp(th, WaitScan(th.op.w, th.op.todo, sh.dom.head, 0, false))
    case OthersSlot =>
      if SlotAt(sh.dom, th.op.cursor, th.op.k).ptr == th.op.todo[0]
      then SetOp(th, WaitScan(th.op.w, th.op.todo, th.op.cursor, SLOTS, true))
      else SetOp(th, WaitScan(th.op.w, th.op.todo, th.op.cursor, th.op.k + 1, th.op.hit))
    case OthersRecord => SetOp(th, WaitScan(th.op.w, th.op.todo, NextOf(sh.dom, th.op.cursor), 0, th.op.hit))
    case OthersDone => SetOp(th, if th.op.hit then WaitCheck(th.op.w) else WaitNext(th.op.w, th.op.todo[1..]))
    case WaitReturns => SetOp(th, Idle)
  }

  // ----- the reader's slot -----------------------------------------------------

  predicate CanPin(sh: Shared, t: Tid, th: Thread) {
    && th.op.Pinning? && t in sh.dom.locals && sh.dom.locals[t].tls && sh.dom.locals[t].acq.Resting?
    && OwnsRecord(sh.dom, t) && FreeSlot(sh, t) < SLOTS
  }

  function DoPin(sh: Shared, t: Tid, th: Thread): (Shared, Thread)
    requires CanPin(sh, t, th)
  {
    var k := FreeSlot(sh, t);
    (StoreSlot(sh, t, k, Slot(th.op.p, Claimed)), SetOp(th, Validating(th.op.call, th.op.p, k)))
  }

  /** A store by the owner into its own slot. */
  function StoreSlot(sh: Shared, t: Tid, k: nat, slot: Slot): Shared
    requires OwnsRecord(sh.dom, t) && k < SLOTS
  {
    sh.(dom := SetSlot(sh.dom, sh.dom.locals[t].record, k, slot))
  }

  predicate CanAnnounce(sh: Shared, t: Tid, th: Thread) {
    th.op.Announcing? && OwnsRecord(sh.dom, t) && th.op.k < SLOTS
  }

  function DoAnnounce(sh: Shared, t: Tid, th: Thread): (Shared, Thread)
    requires CanAnnounce(sh, t, th)
  {
    (StoreSlot(sh, t, th.op.k, Slot(th.op.p, Claimed)), SetOp(th, Validating(th.op.call, th.op.p, th.op.k)))
  }

  /** The validating load sees the announced pointer still current. */
  predicate CanValidate(sh: Shared, t: Tid, th: Thread) {
    && th.op.Validating? && IsOpen(sh, th.op.call.c) && sh.cells[th.op.call.c].current == th.op.p
    && th.op.p in sh.heap && OwnsRecord(sh.dom, t) && th.op.k < SLOTS
  }

  function DoValidate(sh: Shared, t: Tid, th: Thread): (Shared, Thread)
    requires CanValidate(sh, t, th)
  {
    var call, p, k := th.op.call, th.op.p, th.op.k;
    var v := Newest(sh.cells[call.c]);
    (StoreSlot(sh, t, k, Slot(p, Validated(call.c, v, |th.frames|))),
     if call.Borrows() then Push(th, Hazard(call.c, p, k, v, call.since, sh.heap[p].list, 0, call.use.Notify?))
     else SetOp(th, Cloning(call, p, k, v)))
  }

  predicate CanUnpin(sh: Shared, t: Tid, th: Thread) {
    th.op.Unpinning? && OwnsRecord(sh.dom, t) && th.op.k < SLOTS
  }

  /** Dropping the `Pin`; a read that unwinds does not go on to reclaim. */
  function DoUnpin(sh: Shared, t: Tid, th: Thread): (Shared, Thread)
    requires CanUnpin(sh, t, th)
  {
    (StoreSlot(sh, t, th.op.k, EMPTY), SetOp(th, if th.op.unwinding then Idle else Checking(th.op.c)))
  }

  // ----- reclaiming and writing ------------------------------------------------

  predicate CanTryLock(sh: Shared, t: Tid, th: Thread) {
    th.op.TryLocking? && th.op.c in sh.cells
  }

  function DoTryLock(sh: Shared, t: Tid, th: Thread): (Shared, Thread)
    requires CanTryLock(sh, t, th)
  {
    var x := sh.cells[th.op.c];
    if x.lock.By? then (sh, SetOp(th, Idle))
    else (SetCell(sh, th.op.c, x.(lock := By(t))),
          SetOp(th, if x.retired == [] then Storing(th.op.c, []) else ScanStart(th.op.c)))
  }

  ghost predicate CanCollect(sh: Shared, t: Tid, th: Thread, kept: seq<Addr>, freed: seq<Addr>) {
    && th.op.Scanning? && th.op.cursor == NULL && th.op.c in sh.cells
    && IsSplit(sh.cells[th.op.c].retired, th.op.found, kept, freed)
  }

  function DoCollect(sh: Shared, t: Tid, th: Thread, kept: seq<Addr>, freed: seq<Addr>): (Shared, Thread)
    requires th.op.Scanning? && th.op.c in sh.cells
  {
    var x := sh.cells[th.op.c];
    (SetCell(sh, th.op.c, x.(retired := kept)).(heap := MoveOut(sh.heap, freed, Taken(t, |th.frames|))),
     SetOp(th, Storing(th.op.c, freed)))
  }

  function MoveOut(heap: map<Addr, Obj>, freed: seq<Addr>, place: Place): map<Addr, Obj> {
    map a | a in heap :: if a in freed then heap[a].(place := place) else heap[a]
  }

  predicate CanStoreLen(sh: Shared, t: Tid, th: Thread) {
    th.op.Storing? && th.op.c in sh.cells
  }

  function DoStoreLen(sh: Shared, t: Tid, th: Thread): (Shared, Thread)
    requires CanStoreLen(sh, t, th)
  {
    var x := sh.cells[th.op.c];
    (SetCell(sh, th.op.c, x.(retiredLen := |x.retired|)), SetOp(th, Unlocking(th.op.c, th.op.freed)))
  }

  predicate CanUnlock(sh: Shared, t: Tid, th: Thread) {
    th.op.Unlocking? && th.op.c in sh.cells
  }

  function DoUnlock(sh: Shared, t: Tid, th: Thread): (Shared, Thread)
    requires CanUnlock(sh, t, th)
  {
    (SetCell(sh, th.op.c, sh.cells[th.op.c].(lock := Nobody)),
     if th.op.freed == [] then SetOp(th, Idle) else Push(th, Dropping(th.op.freed)))
  }

  predicate CanDrawId(sh: Shared, t: Tid, th: Thread, c: Cid) {
    th.op.Idle? && IsOpen(sh, c)
  }

  function DoDrawId(sh: Shared, t: Tid, th: Thread, c: Cid, priority: int, once: bool): (Shared, Thread)
    requires CanDrawId(sh, t, th, c)
  {
    var x := sh.cells[c];
    (SetCell(sh, c, x.(log := L.Draw(x.log, t, once))),
     SetOp(th, Locking(c, Insert(Entry(x.log.nextId, priority, once)))))
  }

  predicate CanLock(sh: Shared, t: Tid, th: Thread) {
    th.op.Locking? && th.op.c in sh.cells && sh.cells[th.op.c].lock.Nobody?
  }

  function DoLock(sh: Shared, t: Tid, th: Thread): (Shared, Thread)
    requires CanLock(sh, t, th)
  {
    (SetCell(sh, th.op.c, sh.cells[th.op.c].(lock := By(t))), SetOp(th, Writing(th.op.c, th.op.req)))
  }

  /** The body of `update`: `a` is the address the allocator gives the new list. */
  predicate CanWrite(sh: Shared, t: Tid, th: Thread, a: Addr) {
    && th.op.Writing? && th.op.c in sh.cells && sh.cells[th.op.c].current in sh.heap
    && a != NULL && a !in sh.heap
  }

  function DoWrite(sh: Shared, t: Tid, th: Thread, a: Addr): (Shared, Thread)
    requires CanWrite(sh, t, th, a)
  {
    var c, req := th.op.c, th.op.req;
    var x := sh.cells[c];
    match Apply(sh.heap[x.current].list, req)
    case None => (SetCell(sh, c, x.(log := L.Miss(x.log, req))), SetOp(th, Unlocking(c, [])))
    case Some(next) =>
      (Install(sh, c, a, req, next), SetOp(th, ScanStart(c)))
  }

  /** `current.store(new)` and `writer.push(old)`. */
  function Install(sh: Shared, c: Cid, a: Addr, req: Request, next: seq<Entry>): Shared
    requires c in sh.cells && sh.cells[c].current in sh.heap
  {
    var x := sh.cells[c];
    var prev := x.current;
    SetCell(sh, c, x.(current := a, retired := x.retired + [prev], log := L.Commit(x.log, req, next),
                      home := x.home + [a], frees := x.frees + [0]))
    .(heap := sh.heap[prev := sh.heap[prev].(place := Retired)][a := Obj(c, |Hist(x)|, next, 1, Current)])
  }

  // ----- owned handles and the fallback path -----------------------------------

  predicate CanClone(sh: Shared, t: Tid, th: Thread) {
    th.op.Cloning? && th.op.a in sh.heap
  }

  /** `load_arc_if` after `protect`: `keep` is the caller's predicate on the list. */
  function DoClone(sh: Shared, t: Tid, th: Thread, keep: bool): (Shared, Thread)
    requires CanClone(sh, t, th)
  {
    var c, a, v := th.op.call.c, th.op.a, th.op.version;
    (if keep then Ref(sh, a).(handles := sh.handles[sh.nextTok := Handle(a, c, v, Anyone)], nextTok := sh.nextTok + 1)
     else sh,
     SetOp(th, Unpinning(c, a, th.op.k, v, false)))
  }

  predicate CanCount(sh: Shared, t: Tid, th: Thread) {
    th.op.Counting? && th.op.call.c in sh.cells
  }

  /** `read_fallback` counts its reader; `load_arc_if` goes straight to the lock. */
  function DoCount(sh: Shared, t: Tid, th: Thread): (Shared, Thread)
    requires CanCount(sh, t, th)
  {
    var call := th.op.call;
    var x := sh.cells[call.c];
    if call.Borrows() then
      (SetCell(sh.(nextTok := sh.nextTok + 1), call.c, x.(fallbackReaders := x.fallbackReaders + 1,
                               counted := x.counted[sh.nextTok := Counted(t, |th.frames|, Waiting)])),
       SetOp(th, FbLocking(call, sh.nextTok)).(fallbackDepth := th.fallbackDepth + 1))
    else (sh, SetOp(th, FbLocking(call, 0)))
  }

  predicate CanFbLock(sh: Shared, t: Tid, th: Thread) {
    th.op.FbLocking? && th.op.call.c in sh.cells && sh.cells[th.op.call.c].lock.Nobody?
  }

  function DoFbLock(sh: Shared, t: Tid, th: Thread): (Shared, Thread)
    requires CanFbLock(sh, t, th)
  {
    (SetCell(sh, th.op.call.c, sh.cells[th.op.call.c].(lock := By(t))), SetOp(th, FbCloning(th.op.call, th.op.tok)))
  }

  predicate CanFbClone(sh: Shared, t: Tid, th: Thread) {
    th.op.FbCloning? && IsOpen(sh, th.op.call.c) && sh.cells[th.op.call.c].current in sh.heap
  }

  function DoFbClone(sh: Shared, t: Tid, th: Thread): (Shared, Thread)
    requires CanFbClone(sh, t, th)
  {
    var call, tok := th.op.call, th.op.tok;
    var x := sh.cells[call.c];
    var a, v := x.current, Newest(x);
    var y := if call.Borrows() then x.(counted := x.counted[tok := Counted(t, |th.frames|, Reading(v))]) else x;
    (SetCell(Ref(sh, a), call.c, y)
     .(handles := sh.handles[sh.nextTok := Handle(a, call.c, v, Held(t, |th.frames|))], nextTok := sh.nextTok + 1),
     SetOp(th, FbUnlocking(call, tok, sh.nextTok, a, v)))
  }

  predicate CanFbUnlock(sh: Shared, t: Tid, th: Thread) {
    th.op.FbUnlocking? && th.op.call.c in sh.cells && th.op.a in sh.heap && th.op.arc in sh.handles
  }

  function DoFbUnlock(sh: Shared, t: Tid, th: Thread): (Shared, Thread)
    requires CanFbUnlock(sh, t, th)
  {
    var call, arc, a := th.op.call, th.op.arc, th.op.a;
    var sh' := SetCell(sh, call.c, sh.cells[call.c].(lock := Nobody));
    if call.Borrows() then
      var f := Fallback(call.c, a, th.op.tok, arc, th.op.version, call.since, sh.heap[a].list, 0, call.use.Notify?);
      (sh', Push(th, f))
    else (sh'.(handles := sh.handles[arc := sh.handles[arc].(holder := Anyone)]), SetOp(th, Idle))
  }

  predicate CanFbRelease(sh: Shared, t: Tid, th: Thread, unwinding: bool) {
    && Top(th) && TopFrame(th).Fallback? && (unwinding || Complete(TopFrame(th)))
    && TopFrame(th).c in sh.cells && TopFrame(th).a in sh.heap
    && TopFrame(th).tok in sh.cells[TopFrame(th).c].counted
  }

  /** Leaving a fallback read drops its `Arc` before it stops being counted. */
  function DoFbRelease(sh: Shared, t: Tid, th: Thread): (Shared, Thread)
    requires CanFbRelease(sh, t, th, true)
  {
    var f := TopFrame(th);
    var x := sh.cells[f.c];
    var y := x.(counted := x.counted[f.tok := x.counted[f.tok].(phase := Done)]);
    (Unref(SetCell(sh, f.c, y).(handles := sh.handles - {f.arc}), f.a, sh.heap[f.a].place),
     SetTop(th, Leaving(f.c, f.tok)))
  }

  predicate CanUncount(sh: Shared, t: Tid, th: Thread) {
    && Top(th) && TopFrame(th).Leaving? && TopFrame(th).c in sh.cells
    && sh.cells[TopFrame(th).c].fallbackReaders > 0
  }

  function DoUncount(sh: Shared, t: Tid, th: Thread): (Shared, Thread)
    requires CanUncount(sh, t, th)
  {
    var f := TopFrame(th);
    var x := sh.cells[f.c];
    (SetCell(sh, f.c, x.(fallbackReaders := x.fallbackReaders - 1, counted := x.counted - {f.tok})),
     Pop(th, Idle).(fallbackDepth := if th.fallbackDepth == 0 then 0 else th.fallbackDepth - 1))
  }

  // ----- user code -------------------------------------------------------------

  /** `notify` returns from its read only at the end of the list. */
  predicate Complete(f: Frame)
    requires f.Hazard? || f.Fallback?
  {
    f.notify ==> f.next == |f.seen|
  }

  predicate CanCallHandler(sh: Shared, t: Tid, th: Thread) {
    && Top(th) && (TopFrame(th).Hazard? || TopFrame(th).Fallback?) && TopFrame(th).notify
    && TopFrame(th).c in sh.cells && TopFrame(th).a in sh.heap
    && TopFrame(th).next < |sh.heap[TopFrame(th).a].list|
  }

  /** `notify` calls the next handler of its list; a one-shot handler runs its body if it is still there. */
  function DoCallHandler(sh: Shared, t: Tid, th: Thread): (Shared, Thread)
    requires CanCallHandler(sh, t, th)
  {
    var f := TopFrame(th);
    var x := sh.cells[f.c];
    var e := sh.heap[f.a].list[f.next];
    var th' := Push(SetTop(th, f.(next := f.next + 1)), Handler(f.c, e.id));
    if e.once && e.id in x.log.armed
    then (SetCell(sh, f.c, x.(log := L.Take(x.log, e.id, t))), Push(th', Body(f.c, e.id)))
    else (sh, th')
  }

  predicate CanHandlerEnds(sh: Shared, t: Tid, th: Thread) {
    Top(th) && TopFrame(th).Handler? && TopFrame(th).c in sh.cells
  }

  /** A handler returns, or panics into the unwind boundary around it; `handle_panic` counts the panic. */
  function DoHandlerEnds(sh: Shared, t: Tid, th: Thread, panicked: bool): (Shared, Thread)
    requires CanHandlerEnds(sh, t, th)
  {
    var f := TopFrame(th);
    var x := sh.cells[f.c];
    if panicked
    then (SetCell(sh, f.c, x.(panics := (x.panics + 1) % L.U64)), Pop(th, Telling(f.c, f.id)))
    else (sh, Pop(th, Idle))
  }

  predicate CanTell(sh: Shared, t: Tid, th: Thread) {
    th.op.Telling? && th.op.c in sh.cells
  }

  /** The rest of `handle_panic`: it looks for a callback and calls it. */
  function DoTell(sh: Shared, t: Tid, th: Thread): (Shared, Thread)
    requires CanTell(sh, t, th)
  {
    (sh, if sh.cells[th.op.c].callback then Push(th, Callback(th.op.c, th.op.id)) else SetOp(th, Idle))
  }

  predicate CanCallbackEnds(sh: Shared, t: Tid, th: Thread) {
    Top(th) && TopFrame(th).Callback?
  }

  /** The callback returns, or panics into the boundary around it; either way the dispatch goes on. */
  function DoCallbackEnds(sh: Shared, t: Tid, th: Thread, panicked: bool): (Shared, Thread)
    requires CanCallbackEnds(sh, t, th)
  {
    (sh, Pop(th, Idle))
  }

  predicate CanSetCallback(sh: Shared, t: Tid, th: Thread, c: Cid) {
    th.op.Idle? && IsOpen(sh, c)
  }

  /** `on_panic` and `clear_panic_callback`. */
  function DoSetCallback(sh: Shared, t: Tid, th: Thread, c: Cid, on: bool): (Shared, Thread)
    requires CanSetCallback(sh, t, th, c)
  {
    (SetCell(sh, c, sh.cells[c].(callback := on)), th)
  }

  predicate CanFinishBody(sh: Shared, t: Tid, th: Thread) {
    Top(th) && TopFrame(th).Body? && TopFrame(th).c in sh.cells
  }

  /** A one-shot body returns or panics; `RemoveOnDrop` unregisters it if the registry can be upgraded. */
  function DoFinishBody(sh: Shared, t: Tid, th: Thread, alive: bool): (Shared, Thread)
    requires CanFinishBody(sh, t, th)
  {
    var f := TopFrame(th);
    var x := sh.cells[f.c];
    if alive then (sh, Pop(th, Locking(f.c, Remove(f.id))))
    else (SetCell(sh, f.c, x.(log := L.Abandon(x.log, f.id))), Pop(th, Idle))
  }

  predicate CanDropOne(sh: Shared, t: Tid, th: Thread) {
    Top(th) && TopFrame(th).Dropping? && TopFrame(th).rest != [] && TopFrame(th).rest[0] in sh.heap
  }

  function DoDropOne(sh: Shared, t: Tid, th: Thread): (Shared, Thread)
    requires CanDropOne(sh, t, th)
  {
    var rest := TopFrame(th).rest;
    (Unref(sh, rest[0], Loose), if |rest| == 1 then Pop(th, Idle) else SetTop(th, Dropping(rest[1..])))
  }

  predicate CanDropHandle(sh: Shared, t: Tid, th: Thread, tok: Tok) {
    && th.op.Idle? && tok in sh.handles && sh.handles[tok].holder.Anyone? && sh.handles[tok].addr in sh.heap
  }

  function DoDropHandle(sh: Shared, t: Tid, th: Thread, tok: Tok): (Shared, Thread)
    requires CanDropHandle(sh, t, th, tok)
  {
    var a := sh.handles[tok].addr;
    (Unref(sh.(handles := sh.handles - {tok}), a, sh.heap[a].place), th)
  }

  // ----- cells and threads -----------------------------------------------------

  predicate CanOpenCell(sh: Shared, t: Tid, th: Thread, c: Cid, a: Addr) {
    th.op.Idle? && c !in sh.cells && a != NULL && a !in sh.heap
  }

  function DoOpenCell(sh: Shared, t: Tid, th: Thread, c: Cid, a: Addr): (Shared, Thread)
    requires CanOpenCell(sh, t, th, c, a)
  {
    (SetCell(sh, c, Cell(true, a, [], 0, 0, Nobody, 0, false, map[], L.FRESH, [a], [0]))
     .(heap := sh.heap[a := Obj(c, 0, [], 1, Current)]), th)
  }

  /** Whether a thread is inside an operation or a read of the cell. */
  predicate UsesCell(th: Thread, c: Cid) {
    FramesUse(th.frames, c) || OpUses(th.op, c)
  }

  predicate FramesUse(frames: seq<Frame>, c: Cid) {
    exists i :: 0 <= i < |frames| && FrameUses(frames[i], c)
  }

  predicate FrameUses(f: Frame, c: Cid) { !f.Dropping? && f.c == c }

  predicate OpUses(op: Op, c: Cid) {
    match op
    case Idle => false
    case Exiting => false
    case Loading(call) => call.c == c
    case Pinning(call, _) => call.c == c
    case Validating(call, _, _) => call.c == c
    case Announcing(call, _, _) => call.c == c
    case Cloning(call, _, _, _) => call.c == c
    case Counting(call) => call.c == c
    case FbLocking(call, _) => call.c == c
    case FbCloning(call, _) => call.c == c
    case FbUnlocking(call, _, _, _, _) => call.c == c
    case WaitCheck(w) => w.c == c
    case WaitCopy(w) => w.c == c
    case WaitNext(w, _) => w.c == c
    case WaitScan(w, _, _, _, _) => w.c == c
    case _ => op.c == c
  }

  /** `SnapCell::drop` needs exclusive access: nobody is inside the cell. */
  ghost predicate CanCloseCell(s: State, t: Tid, c: Cid) {
    && t in s.threads && s.threads[t].op.Idle? && IsOpen(s.sh, c) && s.sh.cells[c].current in s.sh.heap
    && forall u :: u in s.threads ==> !UsesCell(s.threads[u], c)
  }

  function DoCloseCell(sh: Shared, t: Tid, th: Thread, c: Cid): (Shared, Thread)
    requires c in sh.cells
  {
    var x := sh.cells[c];
    var all := [x.current] + x.retired;
    (SetCell(sh, c, x.(open := false, retired := [], retiredLen := 0))
     .(heap := MoveOut(sh.heap, all, Taken(t, |th.frames|))),
     Push(th, Dropping(all)))
  }

  /** Acquiring a record happens inside `pin`; giving it back happens with no dispatch on the stack. */
  predicate CanHazards(sh: Shared, t: Tid, th: Thread, step: HazardDomain.Step) {
    && Can(sh.dom, t, step)
    && match step
       case Spawn => false
       case Store(_, _) => false
       case BeginExit => th.op.Idle? && th.frames == []
       case ClearSlot => th.op.Exiting?
       case Release => th.op.Exiting?
       case _ => th.op.Pinning?
  }

  function DoHazards(sh: Shared, t: Tid, th: Thread, step: HazardDomain.Step): (Shared, Thread)
    requires CanHazards(sh, t, th, step)
  {
    (sh.(dom := Do(sh.dom, t, step)),
     match step
     case BeginExit => if sh.dom.locals[t].record == NULL then th else SetOp(th, Exiting)
     case Release => SetOp(th, Idle)
     case _ => th)
  }

  // ----- the machine -----------------------------------------------------------

  ghost predicate CanStep(s: State, t: Tid, step: Step) {
    if step.Spawn? then t !in s.threads && t !in s.sh.dom.locals
    else if step.CloseCell? then CanCloseCell(s, t, step.c)
    else t in s.threads && CanThread(s.sh, t, s.threads[t], step)
  }

  ghost predicate CanThread(sh: Shared, t: Tid, th: Thread, step: Step) {
    match step
    case Spawn => false
    case CloseCell(_) => false
    case Quiet(q) => CanQuiet(sh, t, th, q)
    case Hazards(d) => CanHazards(sh, t, th, d)
    case OpenCell(c, a) => CanOpenCell(sh, t, th, c, a)
    case Pin => CanPin(sh, t, th)
    case Announce => CanAnnounce(sh, t, th)
    case Validate => CanValidate(sh, t, th)
    case Unpin => CanUnpin(sh, t, th)
    case Clone(_) => CanClone(sh, t, th)
    case TryLock => CanTryLock(sh, t, th)
    case Collect(kept, freed) => CanCollect(sh, t, th, kept, freed)
    case StoreLen => CanStoreLen(sh, t, th)
    case Unlock => CanUnlock(sh, t, th)
    case DrawId(c, _, _) => CanDrawId(sh, t, th, c)
    case Lock => CanLock(sh, t, th)
    case Write(a) => CanWrite(sh, t, th, a)
    case Count => CanCount(sh, t, th)
    case FbLock => CanFbLock(sh, t, th)
    case FbClone => CanFbClone(sh, t, th)
    case FbUnlock => CanFbUnlock(sh, t, th)
    case FbRelease(unwinding) => CanFbRelease(sh, t, th, unwinding)
    case Uncount => CanUncount(sh, t, th)
    case CallHandler => CanCallHandler(sh, t, th)
    case FinishBody(_) => CanFinishBody(sh, t, th)
    case HandlerEnds(_) => CanHandlerEnds(sh, t, th)
    case Tell => CanTell(sh, t, th)
    case CallbackEnds(_) => CanCallbackEnds(sh, t, th)
    case SetCallback(c, _) => CanSetCallback(sh, t, th, c)
    case DropOne => CanDropOne(sh, t, th)
    case DropHandle(tok) => CanDropHandle(sh, t, th, tok)
  }

  ghost function DoThread(sh: Shared, t: Tid, th: Thread, step: Step): (Shared, Thread)
    requires CanThread(sh, t, th, step)
  {
    match step
    case Spawn => (sh, th)
    case CloseCell(_) => (sh, th)
    case Quiet(q) => (sh, DoQuiet(sh, t, th, q))
    case Hazards(d) => DoHazards(sh, t, th, d)
    case OpenCell(c, a) => DoOpenCell(sh, t, th, c, a)
    case Pin => DoPin(sh, t, th)
    case Announce => DoAnnounce(sh, t, th)
    case Validate => DoValidate(sh, t, th)
    case Unpin => DoUnpin(sh, t, th)
    case Clone(keep) => DoClone(sh, t, th, keep)
    case TryLock => DoTryLock(sh, t, th)
    case Collect(kept, freed) => DoCollect(sh, t, th, kept, freed)
    case StoreLen => DoStoreLen(sh, t, th)
    case Unlock => DoUnlock(sh, t, th)
    case DrawId(c, priority, once) => DoDrawId(sh, t, th, c, priority, once)
    case Lock => DoLock(sh, t, th)
    case Write(a) => DoWrite(sh, t, th, a)
    case Count => DoCount(sh, t, th)
    case FbLock => DoFbLock(sh, t, th)
    case FbClone => DoFbClone(sh, t, th)
    case FbUnlock => DoFbUnlock(sh, t, th)
    case FbRelease(_) => DoFbRelease(sh, t, th)
    case Uncount => DoUncount(sh, t, th)
    case CallHandler => DoCallHandler(sh, t, th)
    case FinishBody(alive) => DoFinishBody(sh, t, th, alive)
    case HandlerEnds(panicked) => DoHandlerEnds(sh, t, th, panicked)
    case Tell => DoTell(sh, t, th)
    case CallbackEnds(panicked) => DoCallbackEnds(sh, t, th, panicked)
    case SetCallback(c, on) => DoSetCallback(sh, t, th, c, on)
    case DropOne => DoDropOne(sh, t, th)
    case DropHandle(tok) => DoDropHandle(sh, t, th, tok)
  }

  ghost function DoStep(s: State, t: Tid, step: Step): State
    requires CanStep(s, t, step)
  {
    if step.Spawn? then
      State(s.sh.(dom := Do(s.sh.dom, t, HazardDomain.Spawn)), s.threads[t := Thread([], Idle, 0)])
    else
      var r := if step.CloseCell? then DoCloseCell(s.sh, t, s.threads[t], step.c)
               else DoThread(s.sh, t, s.threads[t], step);
      State(r.0, s.threads[t := r.1])
  }
}
