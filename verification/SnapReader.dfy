/** Steps on the hazard domain, and the reader's steps on its own slot, keep the invariant. */
module SnapReader {
  import opened HazardDomain
  import opened SnapCell
  import opened SnapInvariant
  import opened SnapStable
  import opened SnapQuiet

  // ----- one store by the owner ---------------------------------------------------

  ghost predicate MayStore(d: Domain, t: Tid, k: nat, slot: Slot) {
    OwnsRecord(d, t) && d.locals[t].acq.Resting? && k < SLOTS && SlotOk(slot)
  }

  lemma {:induction false} StoreIsStep(d: Domain, t: Tid, k: nat, slot: Slot)
    requires Inv(d) && MayStore(d, t, k, slot)
    ensures Inv(SetSlot(d, d.locals[t].record, k, slot))
  {
    hide Inv;
    StepKept(d, t, Store(k, slot), Do(d, t, Store(k, slot)));
  }

  lemma {:induction false} StoreEffects(d: Domain, t: Tid, k: nat, slot: Slot, e: Domain)
    requires Inv(d) && MayStore(d, t, k, slot) && e == SetSlot(d, d.locals[t].record, k, slot)
    ensures DomG(d, e, t) && e.locals == d.locals && e.chain == d.chain
    ensures forall r :: RankOf(e, r) == RankOf(d, r)
    ensures forall r, j :: SlotAt(e, r, j) == if r == d.locals[t].record && j == k then slot else SlotAt(d, r, j)
    ensures forall j :: OwnSlot(e, t, j) == if j == k then slot else OwnSlot(d, t, j)
  {
    var r := d.locals[t].record;
    assert LocalOk(d.locals[t], t, d.recs) && RecordOk(d.recs[r], r, d.locals);
    forall u, j | u != t && u in d.locals ensures OwnSlot(e, u, j) == OwnSlot(d, u, j) {
      assert LocalOk(d.locals[u], u, d.recs);
    }
  }

  /** The shared state after a store: a validated announcement must name the newest version, still current. */
  lemma {:induction false} StoreShared(sh: Shared, t: Tid, k: nat, slot: Slot, after: Shared)
    requires SharedInv(sh) && MayStore(sh.dom, t, k, slot) && after == StoreSlot(sh, t, k, slot)
    requires slot.guard.Validated? ==>
               && Protected(slot, sh.heap) && slot.guard.cell in sh.cells
               && slot.guard.version == |Hist(sh.cells[slot.guard.cell])| - 1
    ensures SharedInv(after) && Guarantee(sh, after, t, {}) && after.dom.locals == sh.dom.locals
    ensures forall j :: OwnSlot(after.dom, t, j) == if j == k then slot else OwnSlot(sh.dom, t, j)
  {
    hide Inv, HeapInv, CellsInv, LogsInv, SettledInv, CountersInv, HandlesInv, StrongInv, DomG, CellsG;
    DomPart(sh);
    StoreIsStep(sh.dom, t, k, slot);
    StoreEffects(sh.dom, t, k, slot, after.dom);
    CellsRefl(sh.cells, t);
  }

  // ----- frames and operations after a change of the domain -----------------------

  /** The part of `ThreadOk` about one frame. */
  ghost predicate FrameOk(sh: Shared, t: Tid, i: nat, f: Frame) {
    && FrameReads(sh.cells, f)
    && FramePins(sh.dom, t, i, f)
    && (f.Dropping? ==> f.rest != [] && Takes(sh.heap, t, i, f.rest))
    && FrameOwns(sh, t, i, f)
    && (!f.Dropping? ==> OpenIn(sh.cells, f.c))
  }

  lemma {:induction false} Frames(sh: Shared, t: Tid, th: Thread)
    requires ThreadOk(sh, t, th)
    ensures forall i :: 0 <= i < |th.frames| ==> FrameOk(sh, t, i, th.frames[i])
  {
  }

  /** A thread is in order when its frames, its operation and its `LOCAL` are. */
  lemma {:induction false} Assemble(sh: Shared, t: Tid, th: Thread)
    requires forall i :: 0 <= i < |th.frames| ==> FrameOk(sh, t, i, th.frames[i])
    requires OpOk(sh, t, |th.frames|, th.op) && t in sh.dom.locals && AcqOk(sh.dom.locals[t], th)
    ensures ThreadOk(sh, t, th)
  {
    assert forall i :: 0 <= i < |th.frames| ==> FrameOk(sh, t, i, th.frames[i]);
  }

  /** Frames survive a change that leaves their slots, lists and handles alone. */
  lemma {:induction false} FramesSurvive(sh: Shared, after: Shared, t: Tid, th: Thread)
    requires ThreadOk(sh, t, th)
    requires after.cells == sh.cells && after.heap == sh.heap && after.handles == sh.handles
    requires forall i :: 0 <= i < |th.frames| && th.frames[i].Hazard? ==>
               OwnSlot(after.dom, t, th.frames[i].k) == OwnSlot(sh.dom, t, th.frames[i].k)
    ensures forall i :: 0 <= i < |th.frames| ==> FrameOk(after, t, i, th.frames[i])
  {
    hide Takes;
    Frames(sh, t, th);
    forall i | 0 <= i < |th.frames| ensures FrameOk(after, t, i, th.frames[i]) {
      assert FrameOk(sh, t, i, th.frames[i]);
    }
  }

  lemma {:induction false} SameAnswers(heap: map<Addr, Obj>, cells: map<Cid, Cell>, t: Tid, th: Thread, th': Thread)
    requires Answers(heap, cells, t, th) && th.frames <= th'.frames
    requires !th.op.Storing? && !th.op.Unlocking? && !th.op.Locking? && !th.op.Writing?
    ensures Answers(heap, cells, t, th')
  {
    forall c, id | c in cells && id in cells[c].log.running && cells[c].log.running[id] == t
      ensures RunBacked(th', c, id)
    {
      assert RunBacked(th, c, id);
      assert forall f :: f in th.frames ==> f in th'.frames;
    }
  }

  // ----- the reader's steps ---------------------------------------------------------

  lemma {:induction false} OwnRecord(d: Domain, t: Tid, k: nat)
    requires Inv(d) && OwnSlot(d, t, k) != EMPTY
    ensures OwnsRecord(d, t) && k < SLOTS
  {
    var r := d.locals[t].record;
    assert RecordOk(d.recs[r], r, d.locals);
  }

  /** No other frame of the thread uses the slot an operation has claimed. */
  lemma {:induction false} SlotIsMine(sh: Shared, t: Tid, th: Thread, k: nat)
    requires ThreadOk(sh, t, th)
    requires !OwnSlot(sh.dom, t, k).guard.Validated? || OwnSlot(sh.dom, t, k).guard.depth >= |th.frames|
    ensures forall i :: 0 <= i < |th.frames| && th.frames[i].Hazard? ==> th.frames[i].k != k
  {
    hide OpReads, OpPins, LocksOk, TakesOk, OwnsOk, PendingOk, ScanOk, WaitOk, UsesOk;
    forall i | 0 <= i < |th.frames| && th.frames[i].Hazard? ensures th.frames[i].k != k {
      assert FramePins(sh.dom, t, i, th.frames[i]);
    }
  }

  /** All slots but `k` stay backed; `k` is backed by the new top of the thread. */
  lemma {:induction false} BackedElsewhere(d: Domain, e: Domain, t: Tid, th: Thread, th': Thread, k: nat, slot: Slot)
    requires PinsBacked(d, t, th) && th.frames <= th'.frames
    requires forall j :: OwnSlot(e, t, j) == if j == k then slot else OwnSlot(d, t, j)
    requires slot == EMPTY || SlotBacked(th', slot, k)
    requires th.op.Validating? || th.op.Announcing? || th.op.Cloning? || th.op.Unpinning? ==> th.op.k == k
    ensures PinsBacked(e, t, th')
  {
    forall j | OwnSlot(e, t, j) != EMPTY ensures SlotBacked(th', OwnSlot(e, t, j), j) {
      if j != k { assert SlotBacked(th, OwnSlot(d, t, j), j); }
    }
  }

  lemma {:induction false} StoreKept(sh: Shared, t: Tid, th: Thread, k: nat, slot: Slot, after: Shared, th': Thread)
    requires SharedInv(sh) && ActorOk(sh, t, th) && MayStore(sh.dom, t, k, slot) && after == StoreSlot(sh, t, k, slot)
    requires slot.guard.Validated? ==>
               && Protected(slot, sh.heap) && slot.guard.cell in sh.cells
               && slot.guard.version == |Hist(sh.cells[slot.guard.cell])| - 1
    requires !OwnSlot(sh.dom, t, k).guard.Validated? || OwnSlot(sh.dom, t, k).guard.depth >= |th.frames|
    requires !th.op.Storing? && !th.op.Unlocking? && !th.op.Locking? && !th.op.Writing?
    requires th.op.Validating? || th.op.Announcing? || th.op.Cloning? || th.op.Unpinning? ==> th.op.k == k
    requires th.frames <= th'.frames && (slot == EMPTY || SlotBacked(th', slot, k)) && !th'.op.Exiting?
    requires forall i :: |th.frames| <= i < |th'.frames| ==> FrameOk(after, t, i, th'.frames[i])
    requires OpOk(after, t, |th'.frames|, th'.op)
    ensures Good(sh, after, t, th', {})
  {
    hide SharedInv, Guarantee, OpOk, Answers, PinsBacked, SlotBacked, FrameOk, Protected, ThreadOk;
    StoreShared(sh, t, k, slot, after);
    SlotIsMine(sh, t, th, k);
    FramesSurvive(sh, after, t, th);
    CurrentOp(sh, t, th);
    Assemble(after, t, th');
    BackedElsewhere(sh.dom, after.dom, t, th, th', k, slot);
    SameAnswers(sh.heap, sh.cells, t, th, th');
  }

  lemma {:induction false} PinKept(sh: Shared, t: Tid, th: Thread)
    requires SharedInv(sh) && ActorOk(sh, t, th) && CanPin(sh, t, th)
    ensures var r := DoPin(sh, t, th); Good(sh, r.0, t, r.1, {})
  {
    hide SharedInv, ActorOk, Good, Inv, DomG;
    CurrentOp(sh, t, th);
    var k, p := FreeSlot(sh, t), th.op.p;
    var r := DoPin(sh, t, th);
    DomPart(sh);
    FreeIsEmpty(sh, t);
    StoreEffects(sh.dom, t, k, Slot(p, Claimed), r.0.dom);
    assert OpenIn(sh.cells, th.op.call.c);
    StoreKept(sh, t, th, k, Slot(p, Claimed), r.0, r.1);
  }

  lemma {:induction false} FreeIsEmpty(sh: Shared, t: Tid)
    requires Inv(sh.dom) && OwnsRecord(sh.dom, t) && FreeSlot(sh, t) < SLOTS
    ensures OwnSlot(sh.dom, t, FreeSlot(sh, t)) == EMPTY
  {
    var r := sh.dom.locals[t].record;
    assert RecordOk(sh.dom.recs[r], r, sh.dom.locals);
    assert SlotOk(sh.dom.recs[r].slots[FreeSlot(sh, t)]);
  }

  lemma {:induction false} AnnounceKept(sh: Shared, t: Tid, th: Thread)
    requires SharedInv(sh) && ActorOk(sh, t, th) && CanAnnounce(sh, t, th)
    ensures var r := DoAnnounce(sh, t, th); Good(sh, r.0, t, r.1, {})
  {
    hide SharedInv, ActorOk, Good, Inv;
    CurrentOp(sh, t, th);
    var r := DoAnnounce(sh, t, th);
    DomPart(sh);
    StoreEffects(sh.dom, t, th.op.k, Slot(th.op.p, Claimed), r.0.dom);
    assert OpenIn(sh.cells, th.op.call.c);
    StoreKept(sh, t, th, th.op.k, Slot(th.op.p, Claimed), r.0, r.1);
  }

  lemma {:induction false} ValidateKept(sh: Shared, t: Tid, th: Thread)
    requires SharedInv(sh) && ActorOk(sh, t, th) && CanValidate(sh, t, th)
    ensures var r := DoValidate(sh, t, th); Good(sh, r.0, t, r.1, {})
  {
    hide SharedInv, ActorOk, Good, Inv, HeapInv, CellsInv, SlotsInv;
    CurrentOp(sh, t, th);
    var r := DoValidate(sh, t, th);
    var c, p, k := th.op.call.c, th.op.p, th.op.k;
    var slot := Slot(p, Validated(c, Newest(sh.cells[c]), |th.frames|));
    DomPart(sh);
    SlotsPart(sh);
    assert OpenIn(sh.cells, c);
    CurrentIsAllocated(sh, c);
    StoreEffects(sh.dom, t, k, slot, r.0.dom);
    StoreKept(sh, t, th, k, slot, r.0, r.1);
  }

  lemma {:induction false} UnpinKept(sh: Shared, t: Tid, th: Thread)
    requires SharedInv(sh) && ActorOk(sh, t, th) && CanUnpin(sh, t, th)
    ensures var r := DoUnpin(sh, t, th); Good(sh, r.0, t, r.1, {})
  {
    hide SharedInv, ActorOk, Good, Inv;
    CurrentOp(sh, t, th);
    var r := DoUnpin(sh, t, th);
    assert OpenIn(sh.cells, th.op.c);
    StoreKept(sh, t, th, th.op.k, EMPTY, r.0, r.1);
  }

  // ----- acquiring, publishing and releasing records --------------------------------

  /** What a domain step other than a store does: no slot changes, no published record moves. */
  ghost predicate Undisturbed(d: Domain, e: Domain, t: Tid) {
    && (forall u :: u != t && u in d.locals ==> u in e.locals && e.locals[u] == d.locals[u])
    && e.locals.Keys == d.locals.Keys + {t}
    && |d.chain| <= |e.chain|
    && (forall r, k :: SlotAt(e, r, k) == SlotAt(d, r, k))
    && (forall k :: OwnSlot(e, t, k) == OwnSlot(d, t, k))
    && (forall r :: RankKept(d, e, r))
  }

  lemma {:induction false} UnpublishedAreEmpty(d: Domain, r: Rid, k: nat)
    requires Inv(d) && r in d.recs && (d.recs[r].rank == -1 || !d.recs[r].inUse)
    ensures SlotAt(d, r, k) == EMPTY
  {
    assert RecordOk(d.recs[r], r, d.locals);
  }

  lemma {:induction false} NoRecordNoSlot(d: Domain, t: Tid, k: nat)
    requires Inv(d) && t in d.locals && d.locals[t].record == NULL
    ensures OwnSlot(d, t, k) == EMPTY
  {
  }

  lemma {:induction false} ClaimUndisturbed(d: Domain, t: Tid, e: Domain)
    requires Inv(d) && Can(d, t, Claim) && e == Do(d, t, Claim)
    ensures Undisturbed(d, e, t)
  {
    assert LocalOk(d.locals[t], t, d.recs);
    forall k ensures OwnSlot(e, t, k) == OwnSlot(d, t, k) {
      UnpublishedAreEmpty(d, d.locals[t].acq.cursor, k);
      NoRecordNoSlot(d, t, k);
    }
  }

  lemma {:induction false} AllocateUndisturbed(d: Domain, t: Tid, rid: Rid, guess: Rid, e: Domain)
    requires Inv(d) && Can(d, t, Allocate(rid, guess)) && e == Do(d, t, Allocate(rid, guess))
    ensures Undisturbed(d, e, t)
  {
    assert LocalOk(d.locals[t], t, d.recs);
    forall k ensures OwnSlot(e, t, k) == OwnSlot(d, t, k) { NoRecordNoSlot(d, t, k); }
  }

  lemma {:induction false} PublishUndisturbed(d: Domain, t: Tid, e: Domain)
    requires Inv(d) && Can(d, t, Publish) && e == Do(d, t, Publish)
    ensures Undisturbed(d, e, t)
  {
    assert LocalOk(d.locals[t], t, d.recs);
    forall k ensures OwnSlot(e, t, k) == OwnSlot(d, t, k) && SlotAt(e, d.locals[t].acq.rid, k) == EMPTY {
      UnpublishedAreEmpty(d, d.locals[t].acq.rid, k);
      NoRecordNoSlot(d, t, k);
    }
  }

  /** Stores made while the thread exits find its slots already null. */
  lemma {:induction false} ExitUndisturbed(d: Domain, t: Tid, step: HazardDomain.Step, e: Domain)
    requires Inv(d) && Can(d, t, step) && e == Do(d, t, step) && (step.ClearSlot? || step.Release?)
    requires forall k :: OwnSlot(d, t, k) == EMPTY
    ensures Undisturbed(d, e, t)
  {
    assert LocalOk(d.locals[t], t, d.recs);
    assert forall k :: SlotAt(d, d.locals[t].record, k) == OwnSlot(d, t, k);
  }

  lemma {:induction false} QuietUndisturbed(d: Domain, t: Tid, step: HazardDomain.Step, e: Domain)
    requires Inv(d) && Can(d, t, step) && e == Do(d, t, step)
    requires step.Spawn? || step.Enter? || step.LoadHead? || step.Skip? || step.Retry? || step.BeginExit?
    ensures Undisturbed(d, e, t)
  {
  }

  lemma {:induction false} DomainUndisturbed(d: Domain, t: Tid, step: HazardDomain.Step, e: Domain)
    requires Inv(d) && Can(d, t, step) && e == Do(d, t, step) && !step.Store?
    requires step.ClearSlot? || step.Release? ==> forall k :: OwnSlot(d, t, k) == EMPTY
    ensures Undisturbed(d, e, t)
  {
    hide Undisturbed, Inv, Do, Can;
    match step
    case Claim => ClaimUndisturbed(d, t, e);
    case Allocate(rid, guess) => AllocateUndisturbed(d, t, rid, guess, e);
    case Publish => PublishUndisturbed(d, t, e);
    case ClearSlot => ExitUndisturbed(d, t, step, e);
    case Release => ExitUndisturbed(d, t, step, e);
    case Store(_, _) =>
    case _ => QuietUndisturbed(d, t, step, e);
  }

  lemma {:induction false} UndisturbedG(d: Domain, e: Domain, t: Tid, cells: map<Cid, Cell>)
    requires Inv(d) && Inv(e) && Undisturbed(d, e, t)
    ensures DomG(d, e, t) && SlotsG(d, e, cells)
  {
    hide Inv, RankKept;
    forall u, k | u != t && u in d.locals ensures OwnSlot(e, u, k) == OwnSlot(d, u, k) {
      assert e.locals[u] == d.locals[u];
    }
  }

  lemma {:induction false} SettledGrows(cells: map<Cid, Cell>, n: nat, m: nat)
    requires SettledInv(cells, n) && n <= m
    ensures SettledInv(cells, m)
  {
    forall c | c in cells && cells[c].lock.Nobody? ensures Settled(cells[c], m) {
      assert Settled(cells[c], n);
    }
  }

  lemma {:induction false} DomainShared(sh: Shared, t: Tid, after: Shared)
    requires SharedInv(sh) && after == sh.(dom := after.dom) && Inv(after.dom) && Undisturbed(sh.dom, after.dom, t)
    ensures SharedInv(after) && Guarantee(sh, after, t, {}) && after.dom.locals.Keys == sh.dom.locals.Keys + {t}
  {
    hide Inv, HeapInv, CellsInv, LogsInv, SettledInv, CountersInv, HandlesInv, StrongInv, DomG, CellsG, SlotsG;
    DomPart(sh);
    UndisturbedG(sh.dom, after.dom, t, sh.cells);
    CellsRefl(sh.cells, t);
    SettledGrows(sh.cells, |sh.dom.chain|, |after.dom.chain|);
  }

  /** A thread at rest, acquiring or exiting carries its operation across a domain step. */
  lemma {:induction false} DomainOp(sh: Shared, t: Tid, n: nat, op: Op, after: Shared)
    requires OpOk(sh, t, n, op) && after == sh.(dom := after.dom) && (op.Pinning? || op.Idle? || op.Exiting?)
    ensures OpOk(after, t, n, op) && OpOk(after, t, n, Idle) && OpOk(after, t, n, Exiting)
  {
    if op.Pinning? { assert OpenIn(sh.cells, op.call.c); }
  }

  lemma {:induction false} SameBacked(d: Domain, e: Domain, t: Tid, th: Thread, op: Op)
    requires PinsBacked(d, t, th) && (Light(th.op) || th.op.Exiting?)
    requires forall k :: OwnSlot(e, t, k) == OwnSlot(d, t, k)
    ensures PinsBacked(e, t, th.(op := op))
  {
    var th' := th.(op := op);
    forall k | OwnSlot(e, t, k) != EMPTY ensures SlotBacked(th', OwnSlot(e, t, k), k) {
      assert SlotBacked(th, OwnSlot(d, t, k), k);
    }
  }

  lemma {:induction false} DomainActor(sh: Shared, t: Tid, th: Thread, after: Shared, op: Op)
    requires ActorOk(sh, t, th) && after == sh.(dom := after.dom) && Undisturbed(sh.dom, after.dom, t)
    requires th.op.Pinning? || th.op.Idle? || th.op.Exiting?
    requires op == th.op || op.Idle? || op.Exiting?
    requires AcqOk(after.dom.locals[t], th.(op := op))
    ensures ActorOk(after, t, th.(op := op))
  {
    hide OpOk, FrameOk, Answers, PinsBacked, ThreadOk;
    CurrentOp(sh, t, th);
    FramesSurvive(sh, after, t, th);
    DomainOp(sh, t, |th.frames|, th.op, after);
    Assemble(after, t, th.(op := op));
    SameBacked(sh.dom, after.dom, t, th, op);
    SameAnswers(sh.heap, sh.cells, t, th, th.(op := op));
  }

  /** With nothing on its stack a thread announces nothing. */
  lemma {:induction false} NothingPinned(sh: Shared, t: Tid, th: Thread)
    requires PinsBacked(sh.dom, t, th) && th.frames == [] && (Light(th.op) || th.op.Exiting?)
    ensures forall k :: OwnSlot(sh.dom, t, k) == EMPTY
  {
  }

  lemma {:induction false} HazardsAcq(sh: Shared, t: Tid, th: Thread, step: HazardDomain.Step)
    requires t in sh.dom.locals && AcqOk(sh.dom.locals[t], th) && CanHazards(sh, t, th, step)
    ensures var r := DoHazards(sh, t, th, step); t in r.0.dom.locals && AcqOk(r.0.dom.locals[t], r.1)
  {
  }

  lemma {:induction false} HazardsKept(sh: Shared, t: Tid, th: Thread, step: HazardDomain.Step)
    requires SharedInv(sh) && ActorOk(sh, t, th) && CanHazards(sh, t, th, step)
    ensures var r := DoHazards(sh, t, th, step); Good(sh, r.0, t, r.1, {})
  {
    hide SharedInv, ActorOk, Inv, Do, Can, Guarantee, Undisturbed, OpOk;
    var r := DoHazards(sh, t, th, step);
    CurrentOp(sh, t, th);
    DomPart(sh);
    StepKept(sh.dom, t, step, r.0.dom);
    if step.ClearSlot? || step.Release? { ActorPins(sh, t, th); NothingPinned(sh, t, th); }
    DomainUndisturbed(sh.dom, t, step, r.0.dom);
    DomainShared(sh, t, r.0);
    HazardsAcq(sh, t, th, step);
    DomainActor(sh, t, th, r.0, r.1.op);
  }

  lemma {:induction false} ActorPins(sh: Shared, t: Tid, th: Thread)
    requires ActorOk(sh, t, th)
    ensures PinsBacked(sh.dom, t, th)
  {
  }

  lemma {:induction false} NewcomerAnswers(s: State, t: Tid, th: Thread)
    requires TakenInv(s.sh.heap, s.threads) && RunningInv(s.sh.cells, s.threads) && t !in s.threads
    ensures Answers(s.sh.heap, s.sh.cells, t, th)
  {
  }

  lemma {:induction false} StateParts(s: State)
    requires StateInv(s)
    ensures SharedInv(s.sh) && s.threads.Keys == s.sh.dom.locals.Keys
    ensures TakenInv(s.sh.heap, s.threads) && RunningInv(s.sh.cells, s.threads)
  {
  }

  lemma {:induction false} SpawnKept(s: State, t: Tid)
    requires StateInv(s) && t !in s.threads && t !in s.sh.dom.locals
    ensures Good(s.sh, s.sh.(dom := Do(s.sh.dom, t, HazardDomain.Spawn)), t, Thread([], Idle, 0), {})
  {
    hide StateInv, SharedInv, Inv, Undisturbed, Guarantee, Answers, TakenInv, RunningInv;
    var sh, th := s.sh, Thread([], Idle, 0);
    var after := sh.(dom := Do(sh.dom, t, HazardDomain.Spawn));
    StateParts(s);
    NewcomerAnswers(s, t, th);
    DomPart(sh);
    StepKept(sh.dom, t, HazardDomain.Spawn, after.dom);
    DomainUndisturbed(sh.dom, t, HazardDomain.Spawn, after.dom);
    DomainShared(sh, t, after);
    Assemble(after, t, th);
    forall k ensures OwnSlot(after.dom, t, k) == EMPTY { NoRecordNoSlot(after.dom, t, k); }
  }
}
