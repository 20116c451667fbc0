/** The record list along a run: links never change once published, a walk visits what was
    published when it loaded the head, and the list is no longer than the largest number of
    threads that ever owned or were acquiring a record at once. */
module SnapRecords {
  import opened HandlerList
  import opened HazardDomain
  import opened SnapCell
  import opened SnapInvariant
  import opened SnapQuiet
  import opened SnapSafety

  // ----- walking the list ------------------------------------------------------------------

  /** The records `for_each_record` visits from `r` on. */
  ghost function Walk(d: Domain, r: Rid): seq<Rid>
    requires Inv(d) && CursorOk(d, r)
    decreases RankOf(d, r) + 1
  {
    if r == NULL then [] else NextIsOlder(d, r); [r] + Walk(d, NextOf(d, r))
  }

  lemma {:induction false} WalkIsChain(d: Domain, r: Rid, i: nat)
    requires Inv(d) && CursorOk(d, r)
    ensures |Walk(d, r)| == RankOf(d, r) + 1
    ensures i <= RankOf(d, r) ==> RankOf(d, r) < |d.chain| && Walk(d, r)[i] == d.chain[RankOf(d, r) - i]
    decreases RankOf(d, r) + 1
  {
    if r != NULL {
      NextIsOlder(d, r);
      assert Ranked(d.recs[r], r, d.chain);
      WalkIsChain(d, NextOf(d, r), if i == 0 then 0 else i - 1);
    }
  }

  /** A walk from the head visits every published record, and each of them once. */
  lemma {:induction false} WalkVisitsEachOnce(d: Domain, r: Rid)
    requires Inv(d) && CursorOk(d, d.head)
    ensures r in Walk(d, d.head) <==> RankOf(d, r) >= 0
    ensures forall i, j :: 0 <= i < j < |Walk(d, d.head)| ==> Walk(d, d.head)[i] != Walk(d, d.head)[j]
  {
    var n, w := |d.chain|, Walk(d, d.head);
    HeadIsNewest(d);
    WalkIsChain(d, d.head, 0);
    forall i | 0 <= i < n ensures w[i] == d.chain[n - 1 - i] && RankOf(d, w[i]) == n - 1 - i {
      WalkIsChain(d, d.head, i);
      assert Linked(d.recs, d.chain, n - 1 - i);
    }
    if RankOf(d, r) >= 0 {
      assert Ranked(d.recs[r], r, d.chain);
      assert w[n - 1 - RankOf(d, r)] == r;
    }
  }

  // ----- the list along a run ------------------------------------------------------------------

  /** Records are never freed, published ones never relinked, and `peak` is a number of active threads. */
  ghost predicate RecordsGrow(d: Domain, e: Domain) {
    && d.recs.Keys <= e.recs.Keys && d.chain <= e.chain && d.peak <= e.peak
    && (forall r :: RankOf(d, r) >= 0 ==> RankOf(e, r) == RankOf(d, r) && NextOf(e, r) == NextOf(d, r))
    && (e.peak == d.peak || e.peak == |Active(e)|)
  }

  lemma {:induction false} EnterGrows(d: Domain, t: Tid, e: Domain)
    requires Can(d, t, Enter) && e == Do(d, t, Enter)
    ensures RecordsGrow(d, e)
  {
    assert Active(e) == Active(SetLocal(d, t, d.locals[t].(acq := Entering)));
  }

  lemma {:induction false} DomainGrows(d: Domain, t: Tid, step: HazardDomain.Step, e: Domain)
    requires Inv(d) && Can(d, t, step) && e == Do(d, t, step)
    ensures RecordsGrow(d, e)
  {
    hide RecordsInv, CountInv, Active, RecordOk, AllEmpty;
    if step.Enter? {
      EnterGrows(d, t, e);
    } else if step.Publish? {
      assert LocalOk(d.locals[t], t, d.recs);
    }
  }

  lemma {:induction false} StoreGrows(sh: Shared, t: Tid, k: nat, slot: Slot)
    requires OwnsRecord(sh.dom, t) && k < SLOTS
    ensures RecordsGrow(sh.dom, StoreSlot(sh, t, k, slot).dom)
  {
  }

  predicate StoresSlot(step: SnapCell.Step) { step.Pin? || step.Announce? || step.Validate? || step.Unpin? }

  lemma {:induction false} StoringGrows(sh: Shared, t: Tid, th: Thread, step: SnapCell.Step)
    requires CanThread(sh, t, th, step) && StoresSlot(step)
    ensures RecordsGrow(sh.dom, DoThread(sh, t, th, step).0.dom)
  {
    hide RecordsGrow, StoreSlot;
    if step.Pin? {
      StoreGrows(sh, t, FreeSlot(sh, t), Slot(th.op.p, Claimed));
    } else if step.Announce? {
      StoreGrows(sh, t, th.op.k, Slot(th.op.p, Claimed));
    } else if step.Validate? {
      StoreGrows(sh, t, th.op.k, Slot(th.op.p, Validated(th.op.call.c, Newest(sh.cells[th.op.call.c]), |th.frames|)));
    } else {
      StoreGrows(sh, t, th.op.k, EMPTY);
    }
  }

  lemma {:induction false} SameDomain(sh: Shared, t: Tid, th: Thread, step: SnapCell.Step)
    requires CanThread(sh, t, th, step) && !StoresSlot(step) && !step.Hazards?
    ensures DoThread(sh, t, th, step).0.dom == sh.dom
  {
    hide DoQuiet, CanQuiet, Apply, MoveOut;
  }

  lemma {:induction false} SameGrows(d: Domain)
    ensures RecordsGrow(d, d)
  {
  }

  lemma {:induction false} ThreadGrows(sh: Shared, t: Tid, th: Thread, step: SnapCell.Step)
    requires Inv(sh.dom) && CanThread(sh, t, th, step)
    ensures RecordsGrow(sh.dom, DoThread(sh, t, th, step).0.dom)
  {
    hide RecordsGrow, Inv, Do, Can;
    if step.Hazards? {
      DomainGrows(sh.dom, t, step.step, Do(sh.dom, t, step.step));
    } else if StoresSlot(step) {
      StoringGrows(sh, t, th, step);
    } else {
      SameDomain(sh, t, th, step);
      SameGrows(sh.dom);
    }
  }

  lemma {:induction false} NextGrows(s: State, s': State)
    requires StateInv(s) && NextState(s, s')
    ensures RecordsGrow(s.sh.dom, s'.sh.dom)
  {
    hide StateInv, SharedInv, CanThread, DoThread, Do, Can, RecordsGrow, Inv;
    OneState(s);
    DomPart(s.sh);
    if s' == s {
      SameGrows(s.sh.dom);
    } else {
      var t, step :| CanStep(s, t, step) && s' == DoStep(s, t, step);
      if step.Spawn? {
        SpawnGrows(s.sh.dom, t);
      } else if step.CloseCell? {
        SameGrows(s.sh.dom);
      } else {
        ThreadGrows(s.sh, t, s.threads[t], step);
      }
    }
  }

  lemma {:induction false} SpawnGrows(d: Domain, t: Tid)
    requires Inv(d) && t !in d.locals
    ensures RecordsGrow(d, Do(d, t, HazardDomain.Spawn))
  {
    hide Inv, RecordsGrow;
    DomainGrows(d, t, HazardDomain.Spawn, Do(d, t, HazardDomain.Spawn));
  }

  lemma {:induction false} RunLinks(run: seq<State>, i: nat, j: nat, r: Rid)
    requires IsRun(run) && i <= j < |run|
    ensures var d, e := run[i].sh.dom, run[j].sh.dom;
            && d.recs.Keys <= e.recs.Keys && d.chain <= e.chain && d.peak <= e.peak
            && (RankOf(d, r) >= 0 ==> RankOf(e, r) == RankOf(d, r) && NextOf(e, r) == NextOf(d, r))
  {
    hide NextState, StateInv;
    if i < j {
      RunLinks(run, i, j - 1, r);
      assert NextState(run[j - 1], run[j - 1 + 1]);
      RunKept(run, j - 1);
      NextGrows(run[j - 1], run[j]);
    }
  }

  /** A walk begun at a head loaded earlier visits what it would have visited at once: records pushed
      since are in front of it and no link behind them changes. */
  lemma {:induction false} WalkIsStable(run: seq<State>, i: nat, j: nat, r: Rid)
    requires IsRun(run) && i <= j < |run|
    requires Inv(run[i].sh.dom) && Inv(run[j].sh.dom) && CursorOk(run[i].sh.dom, r) && CursorOk(run[j].sh.dom, r)
    ensures Walk(run[j].sh.dom, r) == Walk(run[i].sh.dom, r)
    decreases RankOf(run[i].sh.dom, r) + 1
  {
    hide IsRun, Inv;
    if r != NULL {
      var d, e := run[i].sh.dom, run[j].sh.dom;
      RunLinks(run, i, j, r);
      NextIsOlder(d, r);
      NextIsOlder(e, r);
      WalkIsStable(run, i, j, NextOf(d, r));
    }
  }

  // ----- how many records there are --------------------------------------------------------------

  function Unpublished(d: Domain): set<Rid> { set r | r in d.recs && d.recs[r].rank < 0 }

  lemma {:induction false} OwnersCount(d: Domain, rs: set<Rid>, ts: set<Tid>)
    requires forall r :: r in rs ==> r in d.recs && d.recs[r].owner.By? && d.recs[r].owner.tid in ts
    requires forall r :: r in rs ==> Pushes(d, r)
    ensures |rs| <= |ts|
    decreases rs
  {
    if rs != {} {
      var r :| r in rs;
      var t := d.recs[r].owner.tid;
      forall q | q in rs - {r} ensures d.recs[q].owner.tid in ts - {t} {
        assert Pushes(d, q) && Pushes(d, r);
      }
      OwnersCount(d, rs - {r}, ts - {t});
    }
  }

  /** The record is the one its owner is about to push. */
  predicate Pushes(d: Domain, r: Rid) {
    && r in d.recs && d.recs[r].owner.By? && d.recs[r].owner.tid in d.locals
    && d.locals[d.recs[r].owner.tid].acq.Pushing? && d.locals[d.recs[r].owner.tid].acq.rid == r
  }

  lemma {:induction false} UnpublishedArePushed(d: Domain, r: Rid)
    requires Inv(d) && r in Unpublished(d)
    ensures Pushes(d, r) && d.recs[r].owner.tid in Deep(d, |d.chain|)
  {
    assert Ranked(d.recs[r], r, d.chain) && RecordOk(d.recs[r], r, d.locals);
    var t := d.recs[r].owner.tid;
    assert LocalOk(d.locals[t], t, d.recs);
  }

  lemma {:induction false} PublishedCount(d: Domain)
    requires Inv(d)
    ensures |d.recs| <= |d.chain| + |Unpublished(d)|
  {
    var published := set r | r in d.recs && d.recs[r].rank >= 0;
    assert d.recs.Keys == published + Unpublished(d);
    forall r | r in published ensures r in d.chain {
      assert Ranked(d.recs[r], r, d.chain);
      assert d.chain[d.recs[r].rank] == r;
    }
    ChainCount(published, d.chain);
  }

  lemma {:induction false} ChainCount(rs: set<Rid>, chain: seq<Rid>)
    requires forall r :: r in rs ==> r in chain
    ensures |rs| <= |chain|
  {
    if chain != [] {
      var n := |chain| - 1;
      ChainCount(rs - {chain[n]}, chain[..n]);
    }
  }

  /** Records published or about to be number at most `peak`. */
  lemma {:induction false} RecordsWithinPeak(d: Domain)
    requires Inv(d)
    ensures |d.recs| <= d.peak
  {
    hide RecordsInv, LocalsInv;
    PublishedCount(d);
    forall r | r in Unpublished(d) ensures Pushes(d, r) && d.recs[r].owner.tid in Deep(d, |d.chain|) {
      UnpublishedArePushed(d, r);
    }
    OwnersCount(d, Unpublished(d), Deep(d, |d.chain|));
    assert |Deep(d, |d.chain|)| + |d.chain| <= d.peak;
  }

  /** `peak` was the number of active threads in some earlier state, and in none was it larger. */
  lemma {:induction false} PeakIsReached(run: seq<State>, i: nat) returns (j: nat)
    requires IsRun(run) && i < |run|
    ensures j <= i && run[i].sh.dom.peak == |Active(run[j].sh.dom)|
  {
    hide NextState, StateInv;
    if i == 0 {
      j := 0;
      assert Active(START) == {};
    } else {
      assert NextState(run[i - 1], run[i - 1 + 1]);
      RunKept(run, i - 1);
      NextGrows(run[i - 1], run[i]);
      if run[i].sh.dom.peak == run[i - 1].sh.dom.peak { j := PeakIsReached(run, i - 1); } else { j := i; }
    }
  }

  /** The records ever created number at most the threads that owned or were acquiring one at some
      single instant, and `peak` is the largest such number. */
  lemma {:induction false} RecordBound(run: seq<State>, i: nat) returns (j: nat)
    requires IsRun(run) && i < |run|
    ensures j <= i && |run[i].sh.dom.recs| <= |Active(run[j].sh.dom)|
    ensures forall k :: 0 <= k <= i ==> |Active(run[k].sh.dom)| <= |Active(run[j].sh.dom)|
  {
    hide IsRun, StateInv, SharedInv, Inv, Active;
    j := PeakIsReached(run, i);
    RunKept(run, i);
    OneState(run[i]);
    DomPart(run[i].sh);
    RecordsWithinPeak(run[i].sh.dom);
    forall k | 0 <= k <= i ensures |Active(run[k].sh.dom)| <= run[i].sh.dom.peak {
      RunKept(run, k);
      OneState(run[k]);
      DomPart(run[k].sh);
      RunLinks(run, k, i, NULL);
      ActiveWithinPeak(run[k].sh.dom);
    }
  }
}
