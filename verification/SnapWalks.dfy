/** The walks of `for_each_record`, step by step among everything else: a reclaimer's scan, a waiter's
    scan for one address and an acquirer's search for a free record all follow the list as it was when
    they loaded the head, and come to its end. */
module SnapWalks {
  import opened HandlerList
  import opened HazardDomain
  import opened SnapCell
  import opened SnapInvariant
  import opened SnapQuiet
  import opened SnapSafety
  import opened SnapWait
  import opened SnapRecords

  /** Who walks: `announced`, `others_protect` or `acquire_record`. */
  datatype Walker = Scanner | Looker | Claimer

  ghost predicate Walks(s: State, t: Tid, w: Walker) {
    && t in s.threads && t in s.sh.dom.locals
    && match w
       case Scanner => s.threads[t].op.Scanning?
       case Looker => s.threads[t].op.WaitScan?
       case Claimer => s.sh.dom.locals[t].acq.Walking?
  }

  ghost function Cursor(s: State, t: Tid, w: Walker): Rid
    requires Walks(s, t, w)
  {
    if w.Claimer? then s.sh.dom.locals[t].acq.cursor else s.threads[t].op.cursor
  }

  /** The next slot to load of the record at the cursor. */
  ghost function Index(s: State, t: Tid, w: Walker): nat
    requires Walks(s, t, w)
  {
    if w.Claimer? then 0 else s.threads[t].op.k
  }

  // ----- one step --------------------------------------------------------------------------------

  /** Where a walker standing at `(r, k)` may stand after a step of its own. */
  predicate Advances(d: Domain, r: Rid, k: nat, r': Rid, k': nat) {
    r != NULL && ((r' == r && k < k' <= SLOTS) || (r' == NextOf(d, r) && k' == 0))
  }

  lemma {:induction false} ScannerSteps(sh: Shared, t: Tid, th: Thread, step: SnapCell.Step)
    requires CanThread(sh, t, th, step) && th.op.Scanning? && DoThread(sh, t, th, step).1.op.Scanning?
    ensures step.Quiet? && (step.q.ScanSlot? || step.q.ScanRecord?)
    ensures var op := DoThread(sh, t, th, step).1.op;
            Advances(sh.dom, th.op.cursor, th.op.k, op.cursor, op.k) && op.c == th.op.c
  {
    hide Do, Can, Unref, Apply, IsSplit, MoveOut;
  }

  lemma {:induction false} LookerSteps(sh: Shared, t: Tid, th: Thread, step: SnapCell.Step)
    requires CanThread(sh, t, th, step) && th.op.WaitScan? && DoThread(sh, t, th, step).1.op.WaitScan?
    ensures step.Quiet?
    ensures var op := DoThread(sh, t, th, step).1.op; Advances(sh.dom, th.op.cursor, th.op.k, op.cursor, op.k)
  {
    hide Do, Can, Unref, Apply, IsSplit, MoveOut;
  }

  lemma {:induction false} ClaimerSteps(sh: Shared, t: Tid, th: Thread, step: SnapCell.Step)
    requires Inv(sh.dom) && t in sh.dom.locals && AcqOk(sh.dom.locals[t], th) && sh.dom.locals[t].acq.Walking?
    requires CanThread(sh, t, th, step)
    ensures step == Hazards(Skip) || step == Hazards(Claim) || (step.Hazards? && step.step.Allocate?)
    ensures NULL !in sh.dom.recs
  {
    hide Linked, Ranked, RecordsInv, CountInv, CanQuiet, IsSplit;
    assert LocalOk(sh.dom.locals[t], t, sh.dom.recs);
    if step.Quiet? { PinFailsOnly(sh, t, th, step.q); }
  }

  lemma {:induction false} PinFailsOnly(sh: Shared, t: Tid, th: Thread, q: QuietStep)
    requires th.op.Pinning? && CanQuiet(sh, t, th, q)
    ensures q.PinFails? && t in sh.dom.locals && (sh.dom.locals[t].tls ==> sh.dom.locals[t].record != NULL)
  {
  }

  lemma {:induction false} DomainOthers(d: Domain, u: Tid, step: HazardDomain.Step, t: Tid)
    requires Can(d, u, step) && u != t && t in d.locals
    ensures t in Do(d, u, step).locals && Do(d, u, step).locals[t] == d.locals[t]
  {
    hide Active;
  }

  lemma {:induction false} StoringOthers(sh: Shared, u: Tid, th: Thread, step: SnapCell.Step)
    requires CanThread(sh, u, th, step) && StoresSlot(step)
    ensures DoThread(sh, u, th, step).0.dom.locals == sh.dom.locals
  {
    hide FreeSlot;
  }

  /** A step of somebody else leaves the walker's own words alone. */
  lemma {:induction false} OthersLocal(sh: Shared, u: Tid, th: Thread, step: SnapCell.Step, t: Tid)
    requires CanThread(sh, u, th, step) && u != t && t in sh.dom.locals
    ensures var d := DoThread(sh, u, th, step).0.dom; t in d.locals && d.locals[t] == sh.dom.locals[t]
  {
    hide Do, Can;
    if step.Hazards? {
      DomainOthers(sh.dom, u, step.step, t);
    } else if StoresSlot(step) {
      StoringOthers(sh, u, th, step);
    } else {
      SameDomain(sh, u, th, step);
    }
  }

  lemma {:induction false} WalkerParts(s: State, t: Tid)
    requires StateInv(s) && t in s.threads
    ensures Inv(s.sh.dom) && t in s.sh.dom.locals && AcqOk(s.sh.dom.locals[t], s.threads[t])
    ensures ScanOk(s.sh.dom, s.sh.cells, s.threads[t].op) && WaitOk(s.sh.dom, s.sh.cells, t, s.threads[t].op)
  {
    hide SharedInv, CallsOk, LocksOk, TakesOk, OwnsOk, PendingOk, UsesOk, PinsBacked, TakenInv, RunningInv;
    hide ScanOk, WaitOk, Inv;
    DomPart(s.sh);
  }

  /** A walker stands at a published record or at the end, at one of its slots. */
  lemma {:induction false} WalkerStands(s: State, t: Tid, w: Walker)
    requires StateInv(s) && Walks(s, t, w)
    ensures Inv(s.sh.dom) && CursorOk(s.sh.dom, Cursor(s, t, w)) && Index(s, t, w) <= SLOTS
    ensures Cursor(s, t, w) == NULL ==> Index(s, t, w) == 0
  {
    hide StateInv, FoundAll, OthersIn, PassedIn, NoOldFallback, ChainInv, RecordsInv, CountInv;
    WalkerParts(s, t);
    if w.Claimer? { assert LocalOk(s.sh.dom.locals[t], t, s.sh.dom.recs); }
  }

  /** One step of the machine moves a walker one slot or one record on, or not at all. */
  lemma {:induction false} StepOfWalk(s: State, u: Tid, step: SnapCell.Step, t: Tid, w: Walker)
    requires StateInv(s) && CanStep(s, u, step) && Walks(s, t, w) && Walks(DoStep(s, u, step), t, w)
    ensures var s' := DoStep(s, u, step);
            if u == t then Advances(s.sh.dom, Cursor(s, t, w), Index(s, t, w), Cursor(s', t, w), Index(s', t, w))
            else Cursor(s', t, w) == Cursor(s, t, w) && Index(s', t, w) == Index(s, t, w)
  {
    hide StateInv, CanThread, DoThread, Do, Can, Inv, ScanOk, WaitOk;
    WalkerParts(s, t);
    var s' := DoStep(s, u, step);
    if u == t && !step.CloseCell? {
      if w.Scanner? {
        ScannerSteps(s.sh, t, s.threads[t], step);
      } else if w.Looker? {
        LookerSteps(s.sh, t, s.threads[t], step);
      } else {
        ClaimerSteps(s.sh, t, s.threads[t], step);
        ClaimerMoves(s.sh, t, s.threads[t], step);
      }
    } else if step.Spawn? {
      SpawnLocal(s.sh.dom, u, t);
    } else if u != t && !step.CloseCell? {
      OthersLocal(s.sh, u, s.threads[u], step, t);
    }
  }

  lemma {:induction false} ClaimerMoves(sh: Shared, t: Tid, th: Thread, step: SnapCell.Step)
    requires CanThread(sh, t, th, step) && t in sh.dom.locals && sh.dom.locals[t].acq.Walking? && NULL !in sh.dom.recs
    requires step == Hazards(Skip) || step == Hazards(Claim) || (step.Hazards? && step.step.Allocate?)
    ensures var d := DoThread(sh, t, th, step).0.dom;
            && t in d.locals
            && (d.locals[t].acq.Walking? ==>
                  Advances(sh.dom, sh.dom.locals[t].acq.cursor, 0, d.locals[t].acq.cursor, 0))
  {
  }

  lemma {:induction false} SpawnLocal(d: Domain, u: Tid, t: Tid)
    requires Can(d, u, HazardDomain.Spawn) && t in d.locals
    ensures t in Do(d, u, HazardDomain.Spawn).locals && Do(d, u, HazardDomain.Spawn).locals[t] == d.locals[t]
  {
  }

  // ----- every walk ends -----------------------------------------------------------------------------

  /** How many steps a walk has left at most. */
  ghost function WalkLeft(s: State, t: Tid, w: Walker): int
    requires Walks(s, t, w)
  {
    (RankOf(s.sh.dom, Cursor(s, t, w)) + 1) * (SLOTS + 1) + SLOTS - Index(s, t, w)
  }

  /** A walk ends however many records are pushed meanwhile: its own steps bring it closer to the end and
      the steps of others leave it where it is. */
  lemma {:induction false} WalkShrinks(run: seq<State>, j: nat, t: Tid, w: Walker, u: Tid, step: SnapCell.Step)
    requires IsRun(run) && j + 1 < |run| && CanStep(run[j], u, step) && run[j + 1] == DoStep(run[j], u, step)
    requires Walks(run[j], t, w) && Walks(run[j + 1], t, w)
    ensures 0 <= WalkLeft(run[j + 1], t, w)
    ensures if u == t then WalkLeft(run[j + 1], t, w) < WalkLeft(run[j], t, w)
            else WalkLeft(run[j + 1], t, w) == WalkLeft(run[j], t, w)
  {
    hide IsRun, StateInv, CanStep, DoStep, Inv, RecordsGrow, Walks;
    RunKept(run, j);
    RunKept(run, j + 1);
    StepOfWalk(run[j], u, step, t, w);
    WalkerStands(run[j], t, w);
    WalkerStands(run[j + 1], t, w);
    NextGrows(run[j], run[j + 1]);
    var d, e, r := run[j].sh.dom, run[j + 1].sh.dom, Cursor(run[j], t, w);
    RankStays(d, e, r);
    if u == t {
      NextIsOlder(d, r);
      RankStays(d, e, NextOf(d, r));
    }
  }

  lemma {:induction false} RankStays(d: Domain, e: Domain, r: Rid)
    requires Inv(d) && Inv(e) && RecordsGrow(d, e) && CursorOk(d, r)
    ensures RankOf(e, r) == RankOf(d, r) >= -1
  {
    if r in d.recs { assert Ranked(d.recs[r], r, d.chain); }
  }

  // ----- every walk follows the list -----------------------------------------------------------------

  /** From state `i`, where it stood at the head, to state `j` the thread is inside one walk. */
  ghost predicate OneWalk(run: seq<State>, i: nat, j: nat, t: Tid, w: Walker) {
    && i <= j < |run| && (forall k :: i <= k <= j ==> Walks(run[k], t, w))
    && Cursor(run[i], t, w) == run[i].sh.dom.head && Index(run[i], t, w) == 0
  }

  lemma {:induction false} NextOfWalk(s: State, s': State, t: Tid, w: Walker)
    requires StateInv(s) && NextState(s, s') && Walks(s, t, w) && Walks(s', t, w)
    ensures || Advances(s.sh.dom, Cursor(s, t, w), Index(s, t, w), Cursor(s', t, w), Index(s', t, w))
            || (Cursor(s', t, w) == Cursor(s, t, w) && Index(s', t, w) == Index(s, t, w))
  {
    hide StateInv, CanStep, DoStep, Walks;
    if s' != s {
      var u, step :| CanStep(s, u, step) && s' == DoStep(s, u, step);
      StepOfWalk(s, u, step, t, w);
    }
  }

  /** What a walk has still to visit is the end of what the list held when it loaded the head: it has
      visited the first `n` records of that list and no others. */
  lemma {:induction false} WalkFollowsList(run: seq<State>, i: nat, j: nat, t: Tid, w: Walker) returns (n: nat)
    requires IsRun(run) && OneWalk(run, i, j, t, w)
    ensures Inv(run[i].sh.dom) && Inv(run[j].sh.dom) && CursorOk(run[i].sh.dom, run[i].sh.dom.head)
    ensures CursorOk(run[j].sh.dom, Cursor(run[j], t, w))
    ensures n <= |Walk(run[i].sh.dom, run[i].sh.dom.head)|
    ensures Walk(run[j].sh.dom, Cursor(run[j], t, w)) == Walk(run[i].sh.dom, run[i].sh.dom.head)[n..]
    ensures Cursor(run[j], t, w) == NULL ==> n == |run[i].sh.dom.chain|
  {
    hide NextState, StateInv, Inv, Walks;
    RunKept(run, i);
    RunKept(run, j);
    WalkerStands(run[i], t, w);
    WalkerStands(run[j], t, w);
    var d, e := run[i].sh.dom, run[j].sh.dom;
    HeadIsNewest(d);
    WalkIsChain(d, d.head, 0);
    if i == j {
      n := 0;
    } else {
      n := WalkFollowsList(run, i, j - 1, t, w);
      assert NextState(run[j - 1], run[j - 1 + 1]);
      RunKept(run, j - 1);
      NextOfWalk(run[j - 1], run[j], t, w);
      var c, r := run[j - 1].sh.dom, Cursor(run[j - 1], t, w);
      if Cursor(run[j], t, w) == r {
        StandsStill(run, j - 1, r);
      } else {
        PassesOne(run, j - 1, r);
        n := n + 1;
      }
    }
  }

  lemma {:induction false} StandsStill(run: seq<State>, j: nat, r: Rid)
    requires IsRun(run) && j + 1 < |run| && Inv(run[j].sh.dom) && CursorOk(run[j].sh.dom, r)
    requires Inv(run[j + 1].sh.dom) && CursorOk(run[j + 1].sh.dom, r)
    ensures Walk(run[j + 1].sh.dom, r) == Walk(run[j].sh.dom, r)
  {
    hide IsRun, Inv;
    WalkIsStable(run, j, j + 1, r);
  }

  lemma {:induction false} PassesOne(run: seq<State>, j: nat, r: Rid)
    requires IsRun(run) && j + 1 < |run| && Inv(run[j].sh.dom) && CursorOk(run[j].sh.dom, r) && r != NULL
    requires Inv(run[j + 1].sh.dom) && CursorOk(run[j + 1].sh.dom, NextOf(run[j].sh.dom, r))
    ensures Walk(run[j].sh.dom, r) == [r] + Walk(run[j + 1].sh.dom, NextOf(run[j].sh.dom, r))
  {
    hide IsRun, Inv;
    NextIsOlder(run[j].sh.dom, r);
    WalkIsStable(run, j, j + 1, NextOf(run[j].sh.dom, r));
  }

  // ----- every slot is loaded once -------------------------------------------------------------------

  /** Between these states the scan has loaded a slot. */
  ghost predicate LoadsSlot(s: State, s': State, t: Tid)
    requires Walks(s, t, Scanner) && Walks(s', t, Scanner)
  {
    Index(s', t, Scanner) == Index(s, t, Scanner) + 1
  }

  /** The positions the scan has loaded, in order. */
  ghost function Loaded(run: seq<State>, i: nat, j: nat, t: Tid): seq<(Rid, nat)>
    requires i <= j < |run| && forall k :: i <= k <= j ==> Walks(run[k], t, Scanner)
  {
    if j == i then []
    else
      Loaded(run, i, j - 1, t)
      + (if LoadsSlot(run[j - 1], run[j], t)
         then [(Cursor(run[j - 1], t, Scanner), Index(run[j - 1], t, Scanner))] else [])
  }

  /** The first `k` slots of a record. */
  function SlotsOf(r: Rid, k: nat): seq<(Rid, nat)> { seq(k, i => (r, i)) }

  /** All slots of the records, one record after the other. */
  function Positions(rs: seq<Rid>): seq<(Rid, nat)> {
    if rs == [] then [] else Positions(rs[..|rs| - 1]) + SlotsOf(rs[|rs| - 1], SLOTS)
  }

  /** A scan goes to the next record only after the eighth slot. */
  lemma {:induction false} ScannerMoves(s: State, s': State, t: Tid)
    requires StateInv(s) && NextState(s, s') && Walks(s, t, Scanner) && Walks(s', t, Scanner)
    ensures var r, k, r', k' := Cursor(s, t, Scanner), Index(s, t, Scanner), Cursor(s', t, Scanner),
            Index(s', t, Scanner);
            || (r' == r && k' == k)
            || (r != NULL && r' == r && k' == k + 1)
            || (r != NULL && r' == NextOf(s.sh.dom, r) && k == SLOTS && k' == 0)
  {
    hide StateInv, CanThread, DoThread, Do, Can, Inv, CanQuiet, DoQuiet;
    if s' != s {
      var u, step :| CanStep(s, u, step) && s' == DoStep(s, u, step);
      if u == t && !step.CloseCell? {
        ScannerSteps(s.sh, t, s.threads[t], step);
        QuietOf(s.sh, t, s.threads[t], step);
        ScanQuiet(s.sh, t, s.threads[t], step.q);
      }
    }
  }

  lemma {:induction false} ScanQuiet(sh: Shared, t: Tid, th: Thread, q: QuietStep)
    requires CanQuiet(sh, t, th, q) && (q.ScanSlot? || q.ScanRecord?)
    ensures var op := DoQuiet(sh, t, th, q).op;
            && op.Scanning? && th.op.Scanning? && th.op.cursor != NULL
            && if q.ScanSlot? then op.cursor == th.op.cursor && op.k == th.op.k + 1
               else op.cursor == NextOf(sh.dom, th.op.cursor) && th.op.k == SLOTS && op.k == 0
  {
  }

  lemma {:induction false} OneMorePosition(rs: seq<Rid>, n: nat)
    requires n < |rs|
    ensures Positions(rs[..n + 1]) == Positions(rs[..n]) + SlotsOf(rs[n], SLOTS)
  {
    assert rs[..n + 1][..n] == rs[..n];
  }

  /** How far a scan that began at `i` is: the record at its cursor is number `n` of the list. */
  lemma {:induction false} StandsAt(run: seq<State>, i: nat, j: nat, t: Tid) returns (n: nat)
    requires IsRun(run) && OneWalk(run, i, j, t, Scanner)
    ensures Inv(run[i].sh.dom) && CursorOk(run[i].sh.dom, run[i].sh.dom.head) && Inv(run[j].sh.dom)
    ensures n == |run[i].sh.dom.chain| - 1 - RankOf(run[j].sh.dom, Cursor(run[j], t, Scanner))
    ensures n <= |Walk(run[i].sh.dom, run[i].sh.dom.head)| == |run[i].sh.dom.chain|
    ensures Cursor(run[j], t, Scanner) != NULL ==>
              n < |run[i].sh.dom.chain| && Walk(run[i].sh.dom, run[i].sh.dom.head)[n] == Cursor(run[j], t, Scanner)
  {
    hide IsRun, Inv, Walks;
    n := WalkFollowsList(run, i, j, t, Scanner);
    var d, e, r := run[i].sh.dom, run[j].sh.dom, Cursor(run[j], t, Scanner);
    HeadIsNewest(d);
    WalkIsChain(d, d.head, 0);
    WalkIsChain(e, r, 0);
    if r != NULL { FirstOfWalk(e, r); }
  }

  lemma {:induction false} FirstOfWalk(d: Domain, r: Rid)
    requires Inv(d) && CursorOk(d, r) && r != NULL
    ensures Walk(d, r) != [] && Walk(d, r)[0] == r
  {
    hide Inv;
  }

  /** A scan loads the eight slots of every record published when it loaded the head, in order, each once,
      and nothing else. */
  lemma {:induction false} ScanLoadsEverySlot(run: seq<State>, i: nat, j: nat, t: Tid) returns (n: nat)
    requires IsRun(run) && OneWalk(run, i, j, t, Scanner)
    ensures Inv(run[i].sh.dom) && CursorOk(run[i].sh.dom, run[i].sh.dom.head) && Inv(run[j].sh.dom)
    ensures n == |run[i].sh.dom.chain| - 1 - RankOf(run[j].sh.dom, Cursor(run[j], t, Scanner))
    ensures n <= |Walk(run[i].sh.dom, run[i].sh.dom.head)|
    ensures Loaded(run, i, j, t)
         == Positions(Walk(run[i].sh.dom, run[i].sh.dom.head)[..n])
            + SlotsOf(Cursor(run[j], t, Scanner), Index(run[j], t, Scanner))
  {
    hide NextState, StateInv, Inv, Walks, Positions, SlotsOf;
    n := StandsAt(run, i, j, t);
    if i == j {
      RunKept(run, i);
      HeadIsNewest(run[i].sh.dom);
      NothingLoaded(Walk(run[i].sh.dom, run[i].sh.dom.head), run[i].sh.dom.head);
    } else {
      var m := ScanLoadsEverySlot(run, i, j - 1, t);
      var _ := StandsAt(run, i, j - 1, t);
      assert NextState(run[j - 1], run[j - 1 + 1]);
      RunKept(run, j - 1);
      RunKept(run, j);
      ScannerMoves(run[j - 1], run[j], t);
      WalkerStands(run[j - 1], t, Scanner);
      NextGrows(run[j - 1], run[j]);
      var list := Walk(run[i].sh.dom, run[i].sh.dom.head);
      var r, k := Cursor(run[j - 1], t, Scanner), Index(run[j - 1], t, Scanner);
      RankStays(run[j - 1].sh.dom, run[j].sh.dom, r);
      if r != NULL { NextIsOlder(run[j - 1].sh.dom, r); }
      if Cursor(run[j], t, Scanner) == r {
        SameRecord(run, i, j, t, list, m);
      } else {
        RankStays(run[j - 1].sh.dom, run[j].sh.dom, NextOf(run[j - 1].sh.dom, r));
        NextRecord(run, i, j, t, list, m);
      }
    }
  }

  lemma {:induction false} NothingLoaded(list: seq<Rid>, r: Rid)
    ensures Positions(list[..0]) + SlotsOf(r, 0) == []
  {
    assert list[..0] == [];
  }

  lemma {:induction false} SameRecord(run: seq<State>, i: nat, j: nat, t: Tid, list: seq<Rid>, n: nat)
    requires i < j < |run| && (forall k :: i <= k <= j ==> Walks(run[k], t, Scanner)) && n <= |list|
    requires Cursor(run[j], t, Scanner) == Cursor(run[j - 1], t, Scanner)
    requires Index(run[j - 1], t, Scanner) <= Index(run[j], t, Scanner) <= Index(run[j - 1], t, Scanner) + 1
    requires Loaded(run, i, j - 1, t)
          == Positions(list[..n]) + SlotsOf(Cursor(run[j - 1], t, Scanner), Index(run[j - 1], t, Scanner))
    ensures Loaded(run, i, j, t)
         == Positions(list[..n]) + SlotsOf(Cursor(run[j], t, Scanner), Index(run[j], t, Scanner))
  {
    hide Positions, Walks;
    var r, k := Cursor(run[j - 1], t, Scanner), Index(run[j - 1], t, Scanner);
    assert SlotsOf(r, k + 1) == SlotsOf(r, k) + [(r, k)];
    assert Positions(list[..n]) + (SlotsOf(r, k) + [(r, k)]) == (Positions(list[..n]) + SlotsOf(r, k)) + [(r, k)];
  }

  lemma {:induction false} NextRecord(run: seq<State>, i: nat, j: nat, t: Tid, list: seq<Rid>, n: nat)
    requires i < j < |run| && (forall k :: i <= k <= j ==> Walks(run[k], t, Scanner)) && n < |list|
    requires list[n] == Cursor(run[j - 1], t, Scanner) && Index(run[j - 1], t, Scanner) == SLOTS
    requires Index(run[j], t, Scanner) == 0
    requires Loaded(run, i, j - 1, t) == Positions(list[..n]) + SlotsOf(Cursor(run[j - 1], t, Scanner), SLOTS)
    ensures Loaded(run, i, j, t)
            == Positions(list[..n + 1]) + SlotsOf(Cursor(run[j], t, Scanner), Index(run[j], t, Scanner))
  {
    hide Positions, Walks;
    OneMorePosition(list, n);
    assert SlotsOf(Cursor(run[j], t, Scanner), 0) == [];
  }
}
