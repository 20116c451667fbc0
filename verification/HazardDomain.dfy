/** The process-wide hazard-pointer domain of `src/hazard.rs`, as a step machine.

    Every atomic operation of the source is one step and any two threads may
    interleave between steps.  Atomics are sequentially consistent.  Loads of a
    thread's own slots and of an unpublished record are local, so they are folded
    into the step that uses them.

    Pointers are natural numbers and `NULL` is 0.  Fields marked "auxiliary" record
    history for the proofs; no step of the source-level behaviour reads them. */
module HazardDomain {

  const SLOTS: nat := 8
  const NULL: nat := 0

  type Addr = nat
  type Rid = nat
  type Tid = nat

  /** Auxiliary label of an announcement slot.  `Claimed` slots hold a pointer that
      has not been validated; `Validated` slots belong to a read of `version` of
      `cell` made by the owner's stack frame number `depth`. */
  datatype Guard = Vacant | Claimed | Validated(cell: nat, version: nat, depth: nat)

  datatype Slot = Slot(ptr: Addr, guard: Guard)

  const EMPTY: Slot := Slot(NULL, Vacant)

  datatype Owner = Nobody | By(tid: Tid)

  /** `owner` and `rank` (position in publication order, -1 before publication) are auxiliary. */
  datatype Record = Record(slots: seq<Slot>, inUse: bool, next: Rid, owner: Owner, rank: int)

  /** Where a thread is inside `acquire_record` or inside `Local::drop`. */
  datatype Acquiring =
    | Resting
    | Entering
    | Walking(cursor: Rid)
    | Pushing(rid: Rid, expected: Rid)
    | Clearing(k: nat)

  /** A thread's `LOCAL`; `tls` is false once it has been torn down. */
  datatype Local = Local(tls: bool, record: Rid, acq: Acquiring)

  /** `chain` (records in publication order) and `peak` (the largest number of threads
      that ever owned or were acquiring a record at once) are auxiliary. */
  datatype Domain = Domain(
    recs: map<Rid, Record>, head: Rid, chain: seq<Rid>, locals: map<Tid, Local>, peak: nat)

  const START: Domain := Domain(map[], NULL, [], map[], 0)

  // ----- steps ---------------------------------------------------------------

  datatype Step =
    | Spawn                                // a thread starts
    | Enter                                // `pin` finds no record and calls `acquire_record`
    | LoadHead                             // `HEAD.load`
    | Claim                                // `in_use.compare_exchange` succeeds
    | Skip                                 // it fails, the walk moves to `next`
    | Allocate(rid: Rid, guess: Rid)       // `Box::leak`, then a possibly stale `HEAD.load`
    | Publish                              // the `HEAD` exchange succeeds
    | Retry                                // it fails, spuriously or not
    | BeginExit                            // thread-local teardown starts
    | ClearSlot                            // one store of `Local::drop`
    | Release                              // `in_use.store(false)`
    | Store(k: nat, slot: Slot)            // the owner stores into one of its slots

  predicate Can(d: Domain, t: Tid, step: Step) {
    if step.Spawn? then t !in d.locals
    else
      t in d.locals &&
      var l := d.locals[t];
      match step
      case Enter => l.tls && l.record == NULL && l.acq.Resting?
      case LoadHead => l.acq.Entering?
      case Claim => l.acq.Walking? && l.acq.cursor in d.recs && !d.recs[l.acq.cursor].inUse
      case Skip => l.acq.Walking? && l.acq.cursor in d.recs && d.recs[l.acq.cursor].inUse
      case Allocate(rid, _) => l.acq == Walking(NULL) && rid != NULL && rid !in d.recs
      case Publish => l.acq.Pushing? && l.acq.rid in d.recs && l.acq.expected == d.head
      case Retry => l.acq.Pushing?
      case BeginExit => l.tls && l.acq.Resting?
      case ClearSlot => l.acq.Clearing? && l.acq.k < SLOTS && OwnsRecord(d, t)
      case Release => l.acq == Clearing(SLOTS) && OwnsRecord(d, t)
      case Store(k, slot) => l.acq.Resting? && OwnsRecord(d, t) && k < SLOTS
      case Spawn => false
  }

  predicate OwnsRecord(d: Domain, t: Tid) {
    t in d.locals && d.locals[t].record in d.recs && |d.recs[d.locals[t].record].slots| == SLOTS
  }

  function SetLocal(d: Domain, t: Tid, l: Local): Domain {
    d.(locals := d.locals[t := l])
  }

  function SetSlot(d: Domain, r: Rid, k: nat, slot: Slot): Domain
    requires r in d.recs && k < |d.recs[r].slots|
  {
    d.(recs := d.recs[r := d.recs[r].(slots := d.recs[r].slots[k := slot])])
  }

  const BLANK: seq<Slot> := [EMPTY, EMPTY, EMPTY, EMPTY, EMPTY, EMPTY, EMPTY, EMPTY]

  function Do(d: Domain, t: Tid, step: Step): Domain
    requires Can(d, t, step)
  {
    if step.Spawn? then SetLocal(d, t, Local(true, NULL, Resting))
    else
      var l := d.locals[t];
      match step
      case Enter =>
        var e := SetLocal(d, t, l.(acq := Entering));
        e.(peak := Max(d.peak, |Active(e)|))
      case LoadHead => SetLocal(d, t, l.(acq := Walking(d.head)))
      case Claim =>
        var r := l.acq.cursor;
        SetLocal(d.(recs := d.recs[r := d.recs[r].(inUse := true, owner := By(t))]),
                 t, l.(record := r, acq := Resting))
      case Skip => SetLocal(d, t, l.(acq := Walking(d.recs[l.acq.cursor].next)))
      case Allocate(rid, guess) =>
        SetLocal(d.(recs := d.recs[rid := Record(BLANK, true, NULL, By(t), -1)]),
                 t, l.(acq := Pushing(rid, guess)))
      case Publish =>
        var r := l.acq.rid;
        SetLocal(d.(recs := d.recs[r := d.recs[r].(next := l.acq.expected, rank := |d.chain|)],
                    head := r, chain := d.chain + [r]),
                 t, l.(record := r, acq := Resting))
      case Retry => SetLocal(d, t, l.(acq := Pushing(l.acq.rid, d.head)))
      case BeginExit => SetLocal(d, t, l.(tls := false, acq := if l.record == NULL then Resting else Clearing(0)))
      case ClearSlot => SetLocal(SetSlot(d, l.record, l.acq.k, EMPTY), t, l.(acq := Clearing(l.acq.k + 1)))
      case Release =>
        SetLocal(d.(recs := d.recs[l.record := d.recs[l.record].(inUse := false, owner := Nobody)]),
                 t, l.(record := NULL, acq := Resting))
      case Store(k, slot) => SetSlot(d, l.record, k, slot)
      case Spawn => d
  }

  function Max(a: nat, b: nat): nat { if a < b then b else a }

  /** Stores keep "null" and "vacant" in step. */
  predicate WellFormed(step: Step) {
    step.Store? ==> (step.slot.ptr == NULL <==> step.slot.guard.Vacant?)
  }

  // ----- invariants ----------------------------------------------------------

  function Before(chain: seq<Rid>, i: nat): Rid
    requires i <= |chain|
  {
    if i == 0 then NULL else chain[i - 1]
  }

  ghost predicate Linked(recs: map<Rid, Record>, chain: seq<Rid>, i: nat)
    requires i < |chain|
  {
    && chain[i] in recs
    && recs[chain[i]].rank == i
    && recs[chain[i]].next == Before(chain, i)
  }

  ghost predicate Ranked(x: Record, r: Rid, chain: seq<Rid>) {
    x.rank == -1 || (0 <= x.rank < |chain| && chain[x.rank] == r)
  }

  /** Published records form one finite chain from `head`, oldest record last. */
  ghost predicate ChainInv(recs: map<Rid, Record>, head: Rid, chain: seq<Rid>) {
    && NULL !in recs
    && (forall i :: 0 <= i < |chain| ==> Linked(recs, chain, i))
    && head == Before(chain, |chain|)
    && (forall r :: r in recs ==> Ranked(recs[r], r, chain))
  }

  ghost predicate AllEmpty(slots: seq<Slot>, n: nat) {
    n <= |slots| && forall k :: 0 <= k < n ==> slots[k] == EMPTY
  }

  ghost predicate SlotOk(slot: Slot) {
    slot.ptr == NULL <==> slot.guard.Vacant?
  }

  /** The record a thread owns, published or about to be. */
  predicate Holds(l: Local, r: Rid) {
    l.record == r || (l.acq.Pushing? && l.acq.rid == r)
  }

  /** A record is in use exactly while one thread owns it; a free or unpublished one announces nothing. */
  ghost predicate RecordOk(x: Record, r: Rid, locals: map<Tid, Local>) {
    && |x.slots| == SLOTS
    && (forall k :: 0 <= k < SLOTS ==> SlotOk(x.slots[k]))
    && (x.inUse <==> x.owner.By?)
    && (!x.inUse || x.rank == -1 ==> AllEmpty(x.slots, SLOTS))
    && (x.rank == -1 ==> x.inUse)
    && (x.owner.By? ==> x.owner.tid in locals && Holds(locals[x.owner.tid], r))
  }

  ghost predicate LocalOk(l: Local, t: Tid, recs: map<Rid, Record>) {
    && (l.record != NULL ==>
          l.record in recs && recs[l.record].owner == By(t) && recs[l.record].rank >= 0)
    && match l.acq
       case Resting => l.tls || l.record == NULL
       case Entering => l.tls && l.record == NULL
       case Walking(c) => l.tls && l.record == NULL && (c == NULL || (c in recs && recs[c].rank >= 0))
       case Pushing(r, _) => l.tls && l.record == NULL && r in recs && recs[r].owner == By(t) && recs[r].rank == -1
       case Clearing(k) => !l.tls && l.record in recs && k <= SLOTS && AllEmpty(recs[l.record].slots, k)
  }

  ghost predicate RecordsInv(recs: map<Rid, Record>, locals: map<Tid, Local>) {
    forall r :: r in recs ==> RecordOk(recs[r], r, locals)
  }

  ghost predicate LocalsInv(recs: map<Rid, Record>, locals: map<Tid, Local>) {
    forall t :: t in locals ==> LocalOk(locals[t], t, recs)
  }

  ghost predicate Inv(d: Domain) {
    && ChainInv(d.recs, d.head, d.chain)
    && RecordsInv(d.recs, d.locals)
    && LocalsInv(d.recs, d.locals)
    && CountInv(d)
  }

  // ----- counting ------------------------------------------------------------

  /** Owning or acquiring a record. */
  predicate IsActive(l: Local) {
    l.record != NULL || l.acq.Entering? || l.acq.Walking? || l.acq.Pushing?
  }

  function Active(d: Domain): set<Tid> {
    set t | t in d.locals && IsActive(d.locals[t])
  }

  function RankOf(d: Domain, r: Rid): int {
    if r in d.recs then d.recs[r].rank else -1
  }

  /** How many records from the head down a thread is: the record it owns, or its walk cursor. */
  function Position(d: Domain, l: Local): int {
    if l.record != NULL then |d.chain| - 1 - RankOf(d, l.record)
    else match l.acq
      case Walking(c) => |d.chain| - 1 - RankOf(d, c)
      case Pushing(_, _) => |d.chain|
      case _ => 0
  }

  function Deep(d: Domain, j: int): set<Tid> {
    set t | t in d.locals && IsActive(d.locals[t]) && Position(d, d.locals[t]) >= j
  }

  /** Threads at or past walk position `j` number at most `peak - j`. */
  ghost predicate CountInv(d: Domain) {
    forall j :: 0 <= j <= |d.chain| ==> |Deep(d, j)| + j <= d.peak
  }

  // ----- preservation --------------------------------------------------------

  /** A step that changes only the acting thread's `LOCAL`. */
  lemma LocalStep(d: Domain, t: Tid, l: Local)
    requires NULL !in d.recs && RecordsInv(d.recs, d.locals) && LocalsInv(d.recs, d.locals)
    requires LocalOk(l, t, d.recs)
    requires forall r :: r in d.recs && d.recs[r].owner == By(t) ==> Holds(l, r)
    ensures RecordsInv(d.recs, d.locals[t := l]) && LocalsInv(d.recs, d.locals[t := l])
  {
    var locals := d.locals[t := l];
    forall r | r in d.recs ensures RecordOk(d.recs[r], r, locals) {
      assert RecordOk(d.recs[r], r, d.locals);
    }
  }

  /** A step that changes one record of the acting thread, or one nobody owns. */
  lemma RecordStep(d: Domain, t: Tid, l: Local, r: Rid, x: Record)
    requires NULL !in d.recs && r != NULL && RecordsInv(d.recs, d.locals) && LocalsInv(d.recs, d.locals)
    requires r in d.recs ==> d.recs[r].owner in {Nobody, By(t)} && (d.recs[r].rank >= 0 ==> x.rank >= 0)
    requires RecordOk(x, r, d.locals[t := l]) && LocalOk(l, t, d.recs[r := x])
    requires forall q :: q in d.recs && q != r && d.recs[q].owner == By(t) ==> Holds(l, q)
    ensures RecordsInv(d.recs[r := x], d.locals[t := l]) && LocalsInv(d.recs[r := x], d.locals[t := l])
  {
    var recs, locals := d.recs[r := x], d.locals[t := l];
    forall q | q in recs ensures RecordOk(recs[q], q, locals) {
      if q != r { assert RecordOk(d.recs[q], q, d.locals); }
    }
    forall u | u in locals ensures LocalOk(locals[u], u, recs) {
      if u != t { assert LocalOk(d.locals[u], u, d.recs); }
    }
  }

  /** Links and ranks survive every step that publishes nothing. */
  lemma ChainStep(recs: map<Rid, Record>, head: Rid, chain: seq<Rid>, r: Rid, x: Record)
    requires ChainInv(recs, head, chain) && r != NULL
    requires if r in recs then x.rank == recs[r].rank && x.next == recs[r].next else x.rank == -1
    ensures ChainInv(recs[r := x], head, chain)
  {
    var after := recs[r := x];
    forall i | 0 <= i < |chain| ensures Linked(after, chain, i) {
      assert Linked(recs, chain, i);
    }
  }

  lemma OwnedAreHeld(d: Domain, t: Tid)
    requires RecordsInv(d.recs, d.locals)
    ensures forall r :: r in d.recs && d.recs[r].owner == By(t) ==> t in d.locals && Holds(d.locals[t], r)
  {
    forall r | r in d.recs && d.recs[r].owner == By(t) ensures t in d.locals && Holds(d.locals[t], r) {
      assert RecordOk(d.recs[r], r, d.locals);
    }
  }

  ghost predicate Sound(d: Domain) {
    ChainInv(d.recs, d.head, d.chain) && RecordsInv(d.recs, d.locals) && LocalsInv(d.recs, d.locals)
  }

  lemma QuietStepKept(d: Domain, t: Tid, step: Step, e: Domain)
    requires Sound(d) && Can(d, t, step) && e == Do(d, t, step)
    requires step.Spawn? || step.Enter? || step.LoadHead? || step.Skip? || step.Retry? || step.BeginExit?
    ensures Sound(e)
  {
    if step.Spawn? {
      OwnedAreHeld(d, t);
      LocalStep(d, t, Local(true, NULL, Resting));
    } else {
      var l := d.locals[t];
      assert LocalOk(l, t, d.recs);
      OwnedAreHeld(d, t);
      if |d.chain| > 0 { assert Linked(d.recs, d.chain, |d.chain| - 1); }
      if step.Skip? {
        var i := d.recs[l.acq.cursor].rank;
        assert Ranked(d.recs[l.acq.cursor], l.acq.cursor, d.chain);
        assert Linked(d.recs, d.chain, i);
        if i > 0 { assert Linked(d.recs, d.chain, i - 1); }
      }
      LocalStep(d, t, e.locals[t]);
    }
  }

  lemma ClaimKept(d: Domain, t: Tid, e: Domain)
    requires Sound(d) && Can(d, t, Claim) && e == Do(d, t, Claim)
    ensures Sound(e)
  {
    var r := d.locals[t].acq.cursor;
    assert LocalOk(d.locals[t], t, d.recs) && RecordOk(d.recs[r], r, d.locals);
    OwnedAreHeld(d, t);
    RecordStep(d, t, e.locals[t], r, e.recs[r]);
    ChainStep(d.recs, d.head, d.chain, r, e.recs[r]);
  }

  lemma AllocateKept(d: Domain, t: Tid, rid: Rid, guess: Rid, e: Domain)
    requires Sound(d) && Can(d, t, Allocate(rid, guess)) && e == Do(d, t, Allocate(rid, guess))
    ensures Sound(e)
  {
    assert LocalOk(d.locals[t], t, d.recs);
    OwnedAreHeld(d, t);
    RecordStep(d, t, e.locals[t], rid, e.recs[rid]);
    ChainStep(d.recs, d.head, d.chain, rid, e.recs[rid]);
  }

  lemma PublishKept(d: Domain, t: Tid, e: Domain)
    requires Sound(d) && Can(d, t, Publish) && e == Do(d, t, Publish)
    ensures Sound(e)
  {
    var r := d.locals[t].acq.rid;
    assert LocalOk(d.locals[t], t, d.recs) && RecordOk(d.recs[r], r, d.locals);
    OwnedAreHeld(d, t);
    RecordStep(d, t, e.locals[t], r, e.recs[r]);
    forall i | 0 <= i < |e.chain| ensures Linked(e.recs, e.chain, i) {
      if i < |d.chain| { assert Linked(d.recs, d.chain, i); }
    }
    forall q | q in e.recs ensures Ranked(e.recs[q], q, e.chain) {
      if q != r { assert Ranked(d.recs[q], q, d.chain); }
    }
  }

  /** Stores into an owned slot, and the two kinds of store made while the thread exits. */
  lemma OwnerStepKept(d: Domain, t: Tid, step: Step, e: Domain)
    requires Sound(d) && Can(d, t, step) && WellFormed(step) && e == Do(d, t, step)
    requires step.ClearSlot? || step.Release? || step.Store?
    ensures Sound(e)
  {
    var r := d.locals[t].record;
    assert LocalOk(d.locals[t], t, d.recs) && RecordOk(d.recs[r], r, d.locals);
    OwnedAreHeld(d, t);
    RecordStep(d, t, e.locals[t], r, e.recs[r]);
    ChainStep(d.recs, d.head, d.chain, r, e.recs[r]);
  }

  lemma SoundKept(d: Domain, t: Tid, step: Step, e: Domain)
    requires Sound(d) && Can(d, t, step) && WellFormed(step) && e == Do(d, t, step)
    ensures Sound(e)
  {
    match step
    case Claim => ClaimKept(d, t, e);
    case Allocate(rid, guess) => AllocateKept(d, t, rid, guess, e);
    case Publish => PublishKept(d, t, e);
    case ClearSlot => OwnerStepKept(d, t, step, e);
    case Release => OwnerStepKept(d, t, step, e);
    case Store(_, _) => OwnerStepKept(d, t, step, e);
    case _ => QuietStepKept(d, t, step, e);
  }

  lemma SubsetCard<T>(a: set<T>, b: set<T>)
    requires a <= b
    ensures |a| <= |b|
  {
    assert b == a + (b - a);
  }

  lemma ProperSubsetCard<T>(a: set<T>, b: set<T>, x: T)
    requires a <= b && x in b && x !in a
    ensures |a| + 1 <= |b|
  {
    SubsetCard(a + {x}, b);
  }

  /** Only the acting thread's place changes; nothing is published. */
  ghost predicate OnlyMoves(d: Domain, e: Domain, t: Tid) {
    && e.chain == d.chain
    && (forall r :: RankOf(e, r) == RankOf(d, r))
    && t in e.locals
    && (forall u :: u in e.locals && u != t ==> u in d.locals && e.locals[u] == d.locals[u])
  }

  /** Steps that move the acting thread no deeper keep the count. */
  lemma CountShrinks(d: Domain, e: Domain, t: Tid)
    requires CountInv(d) && OnlyMoves(d, e, t) && d.peak <= e.peak
    requires IsActive(e.locals[t]) && Position(e, e.locals[t]) > 0 ==>
               t in d.locals && IsActive(d.locals[t]) && Position(e, e.locals[t]) <= Position(d, d.locals[t])
    requires |Active(e)| <= e.peak
    ensures CountInv(e)
  {
    forall j | 0 <= j <= |e.chain| ensures |Deep(e, j)| + j <= e.peak {
      if j > 0 {
        forall u | u in Deep(e, j) ensures u in Deep(d, j) {
          assert Position(e, e.locals[u]) >= j;
        }
        SubsetCard(Deep(e, j), Deep(d, j));
      } else {
        SubsetCard(Deep(e, 0), Active(e));
      }
    }
  }

  lemma ActiveWithinPeak(d: Domain)
    requires Inv(d)
    ensures |Active(d)| <= d.peak
  {
    forall u | u in Active(d) ensures u in Deep(d, 0) {
      PositionRange(d, u);
    }
    SubsetCard(Active(d), Deep(d, 0));
  }

  lemma PositionRange(d: Domain, u: Tid)
    requires Sound(d) && u in d.locals
    ensures 0 <= Position(d, d.locals[u]) <= |d.chain|
  {
    var l := d.locals[u];
    assert LocalOk(l, u, d.recs);
    if l.record != NULL { assert Ranked(d.recs[l.record], l.record, d.chain); }
    if l.acq.Walking? && l.acq.cursor != NULL { assert Ranked(d.recs[l.acq.cursor], l.acq.cursor, d.chain); }
  }

  lemma ActiveShrinks(d: Domain, e: Domain, t: Tid)
    requires OnlyMoves(d, e, t)
    requires IsActive(e.locals[t]) ==> t in d.locals && IsActive(d.locals[t])
    ensures |Active(e)| <= |Active(d)|
  {
    SubsetCard(Active(e), Active(d));
  }

  lemma {:induction false} CalmMoves(d: Domain, t: Tid, step: Step, e: Domain)
    requires Sound(d) && Can(d, t, step) && e == Do(d, t, step) && !step.Publish?
    ensures OnlyMoves(d, e, t) && d.peak <= e.peak
  {
    hide ChainInv, RecordsInv, LocalsInv, Active, RecordOk, LocalOk;
  }

  /** Everything but a walk's step forward leaves the acting thread no deeper than it was. */
  lemma {:induction false} CalmPosition(d: Domain, t: Tid, step: Step, e: Domain)
    requires Sound(d) && Can(d, t, step) && e == Do(d, t, step) && OnlyMoves(d, e, t)
    requires !step.Skip? && !step.Publish?
    ensures IsActive(e.locals[t]) && Position(e, e.locals[t]) > 0 ==>
              t in d.locals && IsActive(d.locals[t]) && Position(e, e.locals[t]) <= Position(d, d.locals[t])
    ensures !step.Enter? && IsActive(e.locals[t]) ==> t in d.locals && IsActive(d.locals[t])
  {
    hide RecordsInv, Active, RecordOk, AllEmpty;
    if t in d.locals { assert LocalOk(d.locals[t], t, d.recs); }
    if |d.chain| > 0 { assert Linked(d.recs, d.chain, |d.chain| - 1); }
  }

  lemma {:induction false} CalmStepCount(d: Domain, t: Tid, step: Step, e: Domain)
    requires Sound(d) && CountInv(d) && Can(d, t, step) && e == Do(d, t, step)
    requires !step.Skip? && !step.Publish?
    ensures CountInv(e)
  {
    ActiveWithinPeak(d);
    CalmMoves(d, t, step, e);
    CalmPosition(d, t, step, e);
    hide Sound, CountInv, OnlyMoves, Position, IsActive;
    if step.Enter? {
      assert Active(e) == Active(SetLocal(d, t, d.locals[t].(acq := Entering)));
    } else {
      ActiveShrinks(d, e, t);
    }
    CountShrinks(d, e, t);
  }

  /** A walker about to pass a record: its owner stands where the walker stands. */
  lemma {:induction false} SkipPositions(d: Domain, t: Tid, e: Domain) returns (u: Tid, p: nat)
    requires Sound(d) && Can(d, t, Skip) && e == Do(d, t, Skip)
    ensures u != t && u in d.locals && IsActive(d.locals[u]) && IsActive(d.locals[t]) && p < |d.chain|
    ensures Position(d, d.locals[u]) == p && Position(d, d.locals[t]) == p && Position(e, e.locals[t]) == p + 1
  {
    var l := d.locals[t];
    var r := l.acq.cursor;
    var i := d.recs[r].rank;
    assert LocalOk(l, t, d.recs) && Ranked(d.recs[r], r, d.chain) && RecordOk(d.recs[r], r, d.locals);
    assert Linked(d.recs, d.chain, i);
    if i > 0 { assert Linked(d.recs, d.chain, i - 1); }
    u, p := d.recs[r].owner.tid, |d.chain| - 1 - i;
    assert LocalOk(d.locals[u], u, d.recs);
  }

  /** A walker moves past a record only because somebody owns it, and that owner stays behind. */
  lemma {:induction false} SkipCount(d: Domain, t: Tid, e: Domain)
    requires Sound(d) && CountInv(d) && Can(d, t, Skip) && e == Do(d, t, Skip)
    ensures CountInv(e)
  {
    var u, p := SkipPositions(d, t, e);
    CalmMoves(d, t, Skip, e);
    forall w | w in d.locals && w != t
      ensures e.locals[w] == d.locals[w] && Position(e, e.locals[w]) == Position(d, d.locals[w])
    {
    }
    hide Sound, IsActive, Position;
    forall j | 0 <= j <= |e.chain| ensures |Deep(e, j)| + j <= e.peak {
      if j == p + 1 {
        ProperSubsetCard(Deep(e, j), Deep(d, p), u);
        assert |Deep(d, p)| + p <= d.peak;
      } else {
        SubsetCard(Deep(e, j), Deep(d, j));
      }
    }
  }

  /** Publication puts the new record first: everybody else is now one deeper, the publisher is at 0. */
  lemma PublishCount(d: Domain, t: Tid, e: Domain)
    requires Sound(d) && CountInv(d) && Can(d, t, Publish) && e == Do(d, t, Publish)
    ensures CountInv(e)
  {
    assert LocalOk(d.locals[t], t, d.recs);
    forall u | u in d.locals && u != t ensures Position(e, d.locals[u]) <= Position(d, d.locals[u]) + 1 {
      assert LocalOk(d.locals[u], u, d.recs);
    }
    forall j | 0 <= j <= |e.chain| ensures |Deep(e, j)| + j <= e.peak {
      if j > 0 {
        forall u | u in Deep(e, j) ensures u in Deep(d, j - 1) && u != t { }
        ProperSubsetCard(Deep(e, j), Deep(d, j - 1), t);
      } else {
        forall u | u in Deep(e, 0) ensures u in Deep(d, 0) { PositionRange(d, u); }
        SubsetCard(Deep(e, 0), Deep(d, 0));
      }
    }
  }

  /** Every step keeps the whole invariant. */
  lemma StepKept(d: Domain, t: Tid, step: Step, e: Domain)
    requires Inv(d) && Can(d, t, step) && WellFormed(step) && e == Do(d, t, step)
    ensures Inv(e)
  {
    SoundKept(d, t, step, e);
    match step
    case Skip => SkipCount(d, t, e);
    case Publish => PublishCount(d, t, e);
    case _ => CalmStepCount(d, t, step, e);
  }

}
