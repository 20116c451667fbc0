/** What the invariant says about every state of every run. */
module SnapResults {
  import opened HandlerList
  import opened HazardDomain
  import opened SnapCell
  import opened SnapInvariant
  import opened SnapStable
  import opened SnapQuiet
  import opened SnapReader
  import opened SnapLock
  import opened SnapUser
  import opened SnapSafety
  import opened SnapRuns
  import opened SnapWait
  import opened SnapRecords
  import L = RegistryLog
  import O = RegistryOrder

  // ----- readers -------------------------------------------------------------------------

  lemma {:induction false} NotFreed(cells: map<Cid, Cell>, heap: map<Addr, Obj>, a: Addr)
    requires HeapInv(heap, cells) && CellsInv(cells, heap) && a in heap
    ensures var o := heap[a];
            && o.cell in cells && o.version < |cells[o.cell].frees| && o.version < |cells[o.cell].home|
            && cells[o.cell].frees[o.version] == 0 && cells[o.cell].home[o.version] == a
  {
    var o := heap[a];
    assert ObjOk(a, o, cells) && CellOk(o.cell, cells[o.cell], heap);
    assert HomeOk(o.cell, cells[o.cell], o.version, heap);
  }

  /** Whatever a read on a thread's stack dereferences is allocated, has never been freed, and is still
      the list that was validated, although addresses of freed lists are reused. */
  lemma {:induction false} ReadersAreSafe(run: seq<State>, j: nat, t: Tid, i: nat)
    requires IsRun(run) && j < |run| && t in run[j].threads && i < |run[j].threads[t].frames|
    requires IsRead(run[j].threads[t].frames[i])
    ensures var sh, f := run[j].sh, run[j].threads[t].frames[i];
            && f.a in sh.heap && sh.heap[f.a].list == f.seen && sh.heap[f.a].strong >= 1
            && sh.heap[f.a].cell == f.c && sh.heap[f.a].version == f.version
            && f.c in sh.cells && f.version < |sh.cells[f.c].frees| && sh.cells[f.c].frees[f.version] == 0
            && f.version < |Hist(sh.cells[f.c])| && f.seen == Hist(sh.cells[f.c])[f.version] && f.next <= |f.seen|
  {
    hide IsRun, StateInv, SharedInv, ActorOk, ThreadOk, HeapInv, CellsInv, SlotsInv;
    var sh, th := run[j].sh, run[j].threads[t];
    RunKept(run, j);
    TheActor(run[j], t);
    ActorThread(sh, t, th);
    ReaderSees(sh, t, th, i);
    ReadFrame(sh, t, th, i);
    SlotsPart(sh);
    NotFreed(sh.cells, sh.heap, th.frames[i].a);
  }

  /** A validated announcement, by whatever thread and in whatever record, keeps its list allocated: the
      list is still its cell's current one or still retired, and no reclamation has taken it out. */
  lemma {:induction false} AnnouncedListsStay(run: seq<State>, j: nat, r: Rid, k: nat)
    requires IsRun(run) && j < |run| && SlotAt(run[j].sh.dom, r, k).guard.Validated?
    ensures var sh, s := run[j].sh, SlotAt(run[j].sh.dom, r, k);
            && s.ptr in sh.heap && sh.heap[s.ptr].cell == s.guard.cell && sh.heap[s.ptr].version == s.guard.version
            && (sh.heap[s.ptr].place.Current? || sh.heap[s.ptr].place.Retired?)
            && s.guard.cell in sh.cells && s.guard.version < |sh.cells[s.guard.cell].frees|
            && sh.cells[s.guard.cell].frees[s.guard.version] == 0
  {
    hide IsRun, StateInv, SharedInv, HeapInv, CellsInv;
    RunKept(run, j);
    OneState(run[j]);
    SlotsPart(run[j].sh);
    assert Protected(SlotAt(run[j].sh.dom, r, k), run[j].sh.heap);
    NotFreed(run[j].sh.cells, run[j].sh.heap, SlotAt(run[j].sh.dom, r, k).ptr);
  }

  // ----- ownership -----------------------------------------------------------------------

  /** Who holds the reference a list is born with. */
  ghost predicate HeldWhere(s: State, a: Addr)
    requires a in s.sh.heap
  {
    var o := s.sh.heap[a];
    match o.place
    case Current => o.cell in s.sh.cells && s.sh.cells[o.cell].open && s.sh.cells[o.cell].current == a
    case Retired => o.cell in s.sh.cells && s.sh.cells[o.cell].open && a in s.sh.cells[o.cell].retired
    case Taken(u, i) => u in s.threads && TakenBacked(s.threads[u], i, a)
    case Loose => true
  }

  /** The strong count is the number of owners: the cell, its retired vector or the thread about to
      drop the list, and one for each owned handle; and it is at least one. */
  lemma {:induction false} StrongCountsOwners(run: seq<State>, j: nat, a: Addr)
    requires IsRun(run) && j < |run| && a in run[j].sh.heap
    ensures var o := run[j].sh.heap[a];
            && o.strong == (if o.place.Loose? then 0 else 1) + |Holders(run[j].sh.handles, a)|
            && o.strong >= 1 && HeldWhere(run[j], a)
  {
    hide IsRun, Inv, CellsInv, LogsInv, SettledInv, CountersInv, HandlesInv, SlotsInv, ThreadsInv, RunningInv;
    hide TakenBacked;
    RunKept(run, j);
    var sh := run[j].sh;
    assert ObjOk(a, sh.heap[a], sh.cells) && StrongOk(a, sh.heap[a], sh.handles);
  }

  /** Every version ever installed is allocated at one address or has been freed exactly once. */
  lemma {:induction false} FreedExactlyOnce(run: seq<State>, j: nat, c: Cid, v: nat)
    requires IsRun(run) && j < |run| && c in run[j].sh.cells && v < |Hist(run[j].sh.cells[c])|
    ensures var sh := run[j].sh; var x := sh.cells[c];
            && |x.home| == |x.frees| == |Hist(x)|
            && (x.frees[v] == 0 <==> exists a :: a in sh.heap && sh.heap[a].cell == c && sh.heap[a].version == v)
            && x.frees[v] <= 1
  {
    hide IsRun, StateInv, SharedInv;
    RunKept(run, j);
    OneState(run[j]);
    SlotsPart(run[j].sh);
    VersionFate(run[j].sh, c, v);
  }

  lemma {:induction false} VersionFate(sh: Shared, c: Cid, v: nat)
    requires HeapInv(sh.heap, sh.cells) && CellsInv(sh.cells, sh.heap) && c in sh.cells && v < |Hist(sh.cells[c])|
    ensures var x := sh.cells[c];
            && |x.home| == |x.frees| == |Hist(x)|
            && (x.frees[v] == 0 <==> exists a :: a in sh.heap && sh.heap[a].cell == c && sh.heap[a].version == v)
            && x.frees[v] <= 1
  {
    var x := sh.cells[c];
    assert CellOk(c, x, sh.heap) && HomeOk(c, x, v, sh.heap);
    if x.frees[v] != 0 {
      forall a | a in sh.heap ensures !(sh.heap[a].cell == c && sh.heap[a].version == v) {
        assert ObjOk(a, sh.heap[a], sh.cells);
      }
    }
  }

  // ----- garbage -------------------------------------------------------------------------

  /** With the writer lock free, `retired_len` is exact, and the retired lists number at most eight for
      each thread of the busiest instant so far. */
  lemma {:induction false} GarbageBound(run: seq<State>, j: nat, c: Cid) returns (k: nat)
    requires IsRun(run) && j < |run| && c in run[j].sh.cells && run[j].sh.cells[c].lock.Nobody?
    ensures var x := run[j].sh.cells[c];
            && x.retiredLen == |x.retired| && |x.retired| <= SLOTS * |run[j].sh.dom.recs|
            && k <= j && |x.retired| <= SLOTS * |Active(run[k].sh.dom)|
  {
    hide IsRun, StateInv, SharedInv, Active;
    RunKept(run, j);
    OneState(run[j]);
    SettledPart(run[j].sh, c);
    DomPart(run[j].sh);
    ChainWithinRecords(run[j].sh.dom);
    k := RecordBound(run, j);
  }

  lemma {:induction false} ChainWithinRecords(d: Domain)
    requires Inv(d)
    ensures |d.chain| <= |d.recs|
  {
    hide RecordsInv, LocalsInv, CountInv;
    LinkedCount(d.recs, d.chain, |d.chain|);
    assert d.recs.Keys == set r | r in d.recs;
    var linked := set i | 0 <= i < |d.chain| :: d.chain[i];
    SubsetCard(linked, d.recs.Keys);
  }

  lemma {:induction false} LinkedCount(recs: map<Rid, Record>, chain: seq<Rid>, n: nat)
    requires n <= |chain| && forall i :: 0 <= i < |chain| ==> Linked(recs, chain, i)
    ensures forall i :: 0 <= i < n ==> chain[i] in recs
    ensures |set i | 0 <= i < n :: chain[i]| == n
  {
    var s := set i | 0 <= i < n :: chain[i];
    if n == 0 {
      assert s == {};
    } else {
      LinkedCount(recs, chain, n - 1);
      var below := set i | 0 <= i < n - 1 :: chain[i];
      assert Linked(recs, chain, n - 1);
      forall i | 0 <= i < n - 1 ensures chain[i] != chain[n - 1] { assert Linked(recs, chain, i); }
      assert s == below + {chain[n - 1]};
    }
  }

  // ----- records and slots -----------------------------------------------------------------

  /** A record has one owner, and one without an owner announces nothing. */
  lemma {:induction false} RecordsHaveOneOwner(run: seq<State>, j: nat, t: Tid, u: Tid, r: Rid, k: nat)
    requires IsRun(run) && j < |run| && t in run[j].threads && u in run[j].threads
    ensures var d := run[j].sh.dom;
            && t in d.locals && u in d.locals
            && (Holds(d.locals[t], r) && Holds(d.locals[u], r) && r != NULL ==> t == u)
            && (r in d.recs && !d.recs[r].inUse ==> SlotAt(d, r, k) == EMPTY && forall w :: w in d.locals ==>
                !Holds(d.locals[w], r))
  {
    hide IsRun, StateInv, SharedInv, ActorOk, ChainInv, CountInv;
    RunKept(run, j);
    TheActor(run[j], t);
    TheActor(run[j], u);
    CurrentOp(run[j].sh, t, run[j].threads[t]);
    CurrentOp(run[j].sh, u, run[j].threads[u]);
    DomPart(run[j].sh);
    OneOwner(run[j].sh.dom, t, u, r, k);
  }

  lemma {:induction false} OneOwner(d: Domain, t: Tid, u: Tid, r: Rid, k: nat)
    requires Inv(d) && t in d.locals && u in d.locals
    ensures Holds(d.locals[t], r) && Holds(d.locals[u], r) && r != NULL ==> t == u
    ensures r in d.recs && !d.recs[r].inUse ==> SlotAt(d, r, k) == EMPTY && forall w :: w in d.locals ==>
            !Holds(d.locals[w], r)
  {
    assert LocalOk(d.locals[t], t, d.recs) && LocalOk(d.locals[u], u, d.recs);
    if r in d.recs && !d.recs[r].inUse {
      assert RecordOk(d.recs[r], r, d.locals);
      UnpublishedAreEmpty(d, r, k);
      forall w | w in d.locals ensures !Holds(d.locals[w], r) { assert LocalOk(d.locals[w], w, d.recs); }
    }
  }

  predicate HoldsPin(op: Op) { op.Validating? || op.Announcing? || op.Cloning? || op.Unpinning? }

  function LiveSlots(d: Domain, t: Tid): set<nat> { set k: nat | 0 <= k < SLOTS && OwnSlot(d, t, k).ptr != NULL }

  /** The slots pinned by frames numbered below `n`. */
  function PinnedBelow(th: Thread, n: nat): set<nat>
    requires n <= |th.frames|
  {
    set i | 0 <= i < n && th.frames[i].Hazard? :: th.frames[i].k
  }

  function HazardsBelow(th: Thread, n: nat): set<nat>
    requires n <= |th.frames|
  {
    set i | 0 <= i < n && th.frames[i].Hazard?
  }

  /** The frames that are reads under a hazard slot. */
  function HazardFrames(th: Thread): set<nat> { HazardsBelow(th, |th.frames|) }

  lemma {:induction false} NoneBelow(th: Thread)
    ensures HazardsBelow(th, 0) == {} && PinnedBelow(th, 0) == {}
  {
  }

  lemma {:induction false} BelowGrows(th: Thread, n: nat)
    requires n < |th.frames|
    ensures HazardsBelow(th, n + 1) == HazardsBelow(th, n) + (if th.frames[n].Hazard? then {n} else {})
    ensures n !in HazardsBelow(th, n)
    ensures PinnedBelow(th, n + 1) == PinnedBelow(th, n) + (if th.frames[n].Hazard? then {th.frames[n].k} else {})
  {
  }

  lemma {:induction false} PinIsNew(sh: Shared, t: Tid, th: Thread, n: nat)
    requires ThreadOk(sh, t, th) && n < |th.frames| && th.frames[n].Hazard?
    ensures th.frames[n].k !in PinnedBelow(th, n)
  {
    hide ThreadOk;
    forall i | 0 <= i < n && th.frames[i].Hazard?
      ensures th.frames[i].k != th.frames[n].k
    {
      PinsDiffer(sh, t, th, i, n);
    }
  }

  lemma {:induction false} PinnedCount(sh: Shared, t: Tid, th: Thread, n: nat)
    requires ThreadOk(sh, t, th) && n <= |th.frames|
    ensures |PinnedBelow(th, n)| == |HazardsBelow(th, n)|
  {
    hide ThreadOk, PinnedBelow, HazardsBelow;
    if n == 0 {
      NoneBelow(th);
    } else {
      PinnedCount(sh, t, th, n - 1);
      BelowGrows(th, n - 1);
      if th.frames[n - 1].Hazard? { PinIsNew(sh, t, th, n - 1); }
    }
  }

  lemma {:induction false} PinsDiffer(sh: Shared, t: Tid, th: Thread, i: nat, j: nat)
    requires ThreadOk(sh, t, th) && i < j < |th.frames| && th.frames[i].Hazard? && th.frames[j].Hazard?
    ensures th.frames[i].k != th.frames[j].k
  {
    hide ThreadOk;
    Frames(sh, t, th);
    assert FrameOk(sh, t, i, th.frames[i]) && FrameOk(sh, t, j, th.frames[j]);
  }

  /** A live slot belongs to a frame or to the operation, and to no more than one of them. */
  lemma {:induction false} LiveIffPinned(sh: Shared, t: Tid, th: Thread, k: nat)
    requires Inv(sh.dom) && HeapInv(sh.heap, sh.cells) && SlotsInv(sh.dom, sh.heap)
    requires ThreadOk(sh, t, th) && PinsBacked(sh.dom, t, th)
    ensures k in LiveSlots(sh.dom, t) <==> k in PinnedBelow(th, |th.frames|) || (HoldsPin(th.op) && th.op.k == k)
    ensures HoldsPin(th.op) && th.op.k == k ==> k !in PinnedBelow(th, |th.frames|)
  {
    hide Inv, HeapInv, SlotsInv, ThreadOk;
    Frames(sh, t, th);
    ThreadOp(sh, t, th);
    EmptyIffNull(sh.dom, t, k);
    if HoldsPin(th.op) && th.op.k == k { SlotIsMine(sh, t, th, k); }
    if k in PinnedBelow(th, |th.frames|) {
      var i :| 0 <= i < |th.frames| && th.frames[i].Hazard? && th.frames[i].k == k;
      assert FrameOk(sh, t, i, th.frames[i]);
    }
    if k in LiveSlots(sh.dom, t) {
      var s := OwnSlot(sh.dom, t, k);
      assert SlotBacked(th, s, k);
      if s.guard.Validated? && s.guard.depth < |th.frames| {
        assert th.frames[s.guard.depth].k in PinnedBelow(th, |th.frames|);
      }
    }
  }

  lemma {:induction false} EmptyIffNull(d: Domain, t: Tid, k: nat)
    requires Inv(d) && t in d.locals
    ensures OwnSlot(d, t, k).ptr == NULL <==> OwnSlot(d, t, k) == EMPTY
    ensures OwnSlot(d, t, k) == EMPTY <==> OwnSlot(d, t, k).guard.Vacant?
    ensures OwnSlot(d, t, k) != EMPTY ==> k < SLOTS
  {
    var r := d.locals[t].record;
    if r in d.recs {
      assert RecordOk(d.recs[r], r, d.locals);
      if k < SLOTS { assert SlotOk(d.recs[r].slots[k]); }
    }
  }

  lemma {:induction false} LiveCount(sh: Shared, t: Tid, th: Thread)
    requires Inv(sh.dom) && HeapInv(sh.heap, sh.cells) && SlotsInv(sh.dom, sh.heap)
    requires ThreadOk(sh, t, th) && PinsBacked(sh.dom, t, th)
    ensures |LiveSlots(sh.dom, t)| == |HazardFrames(th)| + (if HoldsPin(th.op) then 1 else 0)
  {
    hide Inv, HeapInv, SlotsInv, ThreadOk, PinsBacked, LiveSlots, PinnedBelow;
    var live, pinned := LiveSlots(sh.dom, t), PinnedBelow(th, |th.frames|);
    PinnedCount(sh, t, th, |th.frames|);
    forall k: nat ensures k in live <==> k in pinned || (HoldsPin(th.op) && th.op.k == k) {
      LiveIffPinned(sh, t, th, k);
    }
    if HoldsPin(th.op) {
      LiveIffPinned(sh, t, th, th.op.k);
      assert live == pinned + {th.op.k};
    } else {
      assert live == pinned;
    }
  }

  function UpTo(n: nat): (r: set<nat>)
    ensures |r| == n && forall k: nat :: k in r <==> k < n
  {
    if n == 0 then {} else UpTo(n - 1) + {n - 1}
  }

  lemma {:induction false} AllLive(d: Domain, t: Tid)
    ensures |LiveSlots(d, t)| <= SLOTS
    ensures |LiveSlots(d, t)| == SLOTS <==> forall k :: 0 <= k < SLOTS ==> OwnSlot(d, t, k).ptr != NULL
  {
    hide UpTo, OwnSlot;
    SubsetCard(LiveSlots(d, t), UpTo(SLOTS));
    if exists k: nat :: k < SLOTS && OwnSlot(d, t, k).ptr == NULL {
      var k: nat :| k < SLOTS && OwnSlot(d, t, k).ptr == NULL;
      ProperSubsetCard(LiveSlots(d, t), UpTo(SLOTS), k);
    } else {
      assert LiveSlots(d, t) == UpTo(SLOTS);
    }
  }

  /** A thread's non-null slots are its live pins, one for each, and there are at most eight. */
  lemma {:induction false} SlotsAreLivePins(run: seq<State>, j: nat, t: Tid, k: nat)
    requires IsRun(run) && j < |run| && t in run[j].threads
    ensures var d, th := run[j].sh.dom, run[j].threads[t];
            && (k in LiveSlots(d, t) <==> k in PinnedBelow(th, |th.frames|) || (HoldsPin(th.op) && th.op.k == k))
            && |LiveSlots(d, t)| == |HazardFrames(th)| + (if HoldsPin(th.op) then 1 else 0)
            && |LiveSlots(d, t)| <= SLOTS
  {
    hide IsRun, StateInv, SharedInv, ThreadOk, PinsBacked, Answers, LiveSlots, PinnedBelow;
    var sh, th := run[j].sh, run[j].threads[t];
    RunKept(run, j);
    TheActor(run[j], t);
    DomPart(sh);
    SlotsPart(sh);
    LiveCount(sh, t, th);
    LiveIffPinned(sh, t, th, k);
    AllLive(sh.dom, t);
  }

  lemma {:induction false} FreeSlotLive(sh: Shared, t: Tid)
    requires OwnsRecord(sh.dom, t)
    ensures FreeSlot(sh, t) == SLOTS <==> forall k :: 0 <= k < SLOTS ==> OwnSlot(sh.dom, t, k).ptr != NULL
  {
    var slots := sh.dom.recs[sh.dom.locals[t].record].slots;
    assert forall k :: 0 <= k < SLOTS ==> OwnSlot(sh.dom, t, k) == slots[k];
  }

  /** With live thread-local storage, `pin` fails exactly when eight reads of the thread hold the slots; a
      thread that has no record yet has no reads, and gets one. */
  lemma {:induction false} FallbackIffEightReads(run: seq<State>, j: nat, t: Tid)
    requires IsRun(run) && j < |run| && t in run[j].threads && t in run[j].sh.dom.locals
    requires run[j].threads[t].op.Pinning? && run[j].sh.dom.locals[t].tls
    ensures CanQuiet(run[j].sh, t, run[j].threads[t], PinFails) <==> |HazardFrames(run[j].threads[t])| == SLOTS
  {
    hide IsRun, StateInv, SharedInv, ActorOk, Inv, LiveSlots, PinnedBelow, HazardFrames;
    var sh, th := run[j].sh, run[j].threads[t];
    SlotsAreLivePins(run, j, t, 0);
    RunKept(run, j);
    TheActor(run[j], t);
    DomPart(sh);
    AllLive(sh.dom, t);
    if sh.dom.locals[t].record == NULL {
      NoRecordNoSlot(sh.dom, t, 0);
    } else {
      HasRecord(sh.dom, t);
      FreeSlotLive(sh, t);
    }
  }

  lemma {:induction false} HasRecord(d: Domain, t: Tid)
    requires Inv(d) && t in d.locals && d.locals[t].record != NULL
    ensures OwnsRecord(d, t)
  {
    assert LocalOk(d.locals[t], t, d.recs) && RecordOk(d.recs[d.locals[t].record], d.locals[t].record, d.locals);
  }

  // ----- one-shot handlers -------------------------------------------------------------------

  /** A one-shot body runs at most once, and once it is over with the registry alive its id is in no
      list the registry holds from then on. */
  lemma {:induction false} OneShotBodies(run: seq<State>, i: nat, j: nat, c: Cid, id: nat)
    requires IsRun(run) && i <= j < |run| && c in run[i].sh.cells && c in run[j].sh.cells
    requires run[j].sh.cells[c].log.drawn <= L.U64
    ensures var g, h := run[i].sh.cells[c].log, run[j].sh.cells[c].log;
            && (forall m, n :: 0 <= m < n < |h.bodies| ==> h.bodies[m] != h.bodies[n])
            && (id in g.bodies && id !in g.running && id !in g.abandoned ==>
                  forall v: nat :: |g.hist| <= v + 1 && v < |h.hist| ==> !HasId(h.hist[v], id))
  {
    hide IsRun, StateInv, HasId;
    RunKept(run, i);
    RunKept(run, j);
    LogOf(run[i], c);
    LogOf(run[j], c);
    RunCells(run, i, j, c);
    var g, h := run[i].sh.cells[c].log, run[j].sh.cells[c].log;
    if id in g.bodies && id !in g.running && id !in g.abandoned {
      assert L.Inserted(g.reqs, id) && L.Spent(g, id);
      forall v: nat | |g.hist| <= v + 1 && v < |h.hist| ensures !HasId(h.hist[v], id) {
        assert g.reqs == h.reqs[..|g.reqs|];
        O.StaysOut(h.hist, h.reqs, id, |g.reqs|, v);
      }
    }
  }

  /** While its removal is due, a one-shot body is on the stack of the thread that ran it or that thread
      is about to remove it. */
  lemma {:induction false} RunningBodies(run: seq<State>, j: nat, c: Cid, id: nat)
    requires IsRun(run) && j < |run| && c in run[j].sh.cells && id in run[j].sh.cells[c].log.running
    ensures var t := run[j].sh.cells[c].log.running[id]; t in run[j].threads && RunBacked(run[j].threads[t], c, id)
  {
    hide IsRun, SharedInv, ThreadsInv, TakenInv, RunBacked;
    RunKept(run, j);
  }

  // ----- the lists ------------------------------------------------------------------------------

  /** The list a cell points to is the last of its history, which the writes made one by one from the
      empty list; every list in it is the stable sort of the registrations then standing, without repeated ids. */
  lemma {:induction false} RegistryIsAtomicList(run: seq<State>, j: nat, c: Cid, v: nat)
    requires IsRun(run) && j < |run| && c in run[j].sh.cells && v < |Hist(run[j].sh.cells[c])|
    ensures var sh := run[j].sh; var x := sh.cells[c]; var g := x.log;
            && (x.open ==> x.current in sh.heap && sh.heap[x.current].list == L.Current(g))
            && L.Evolves(g.hist, g.reqs)
            && (g.drawn <= L.U64 ==> L.Distinct(g.hist[v]) && O.IsStableSort(g.hist[v], O.Survivors(g.reqs[..v])))
            && |g.hist[v]| + O.Removals(g.hist, g.reqs[..v]) == O.Insertions(g.reqs[..v])
  {
    hide IsRun, StateInv, SharedInv, HeapInv, CellsInv, SlotsInv, O.IsStableSort, O.Removals, O.Insertions, O.Survivors;
    hide L.Distinct;
    RunKept(run, j);
    OneState(run[j]);
    SlotsPart(run[j].sh);
    LogOf(run[j], c);
    var sh := run[j].sh;
    var x := sh.cells[c];
    var g := x.log;
    if x.open { CurrentIsAllocated(sh, c); }
    if g.drawn <= L.U64 {
      L.ListedWereInserted(g.hist, g.reqs, v);
      O.ListsAreStableSorts(g.hist, g.reqs, v);
    }
    O.LengthBalances(g.hist, g.reqs, v);
  }

  /** At most one removal of an id takes effect in a run of fewer than 2^64 registrations. */
  lemma {:induction false} OneRemovalPerId(run: seq<State>, j: nat, c: Cid, id: nat, m: nat, n: nat)
    requires IsRun(run) && j < |run| && c in run[j].sh.cells && run[j].sh.cells[c].log.drawn <= L.U64
    requires m < |run[j].sh.cells[c].log.reqs| && n < |run[j].sh.cells[c].log.reqs|
    requires run[j].sh.cells[c].log.reqs[m] == Remove(id) && run[j].sh.cells[c].log.reqs[n] == Remove(id)
    ensures m == n
  {
    hide IsRun, StateInv;
    RunKept(run, j);
    LogOf(run[j], c);
    O.RemovedOnce(run[j].sh.cells[c].log.hist, run[j].sh.cells[c].log.reqs, id, m, n);
  }
}
