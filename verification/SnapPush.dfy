/** Threads and their records.  A push that has failed goes through next time unless somebody else pushes in
    between; and a thread has its thread-local storage from its start to its exit, which leaves it no record. */
module SnapPush {
  import opened HazardDomain
  import opened SnapCell
  import opened SnapInvariant
  import opened SnapQuiet
  import opened SnapSafety
  import opened SnapWait
  import opened SnapLabels
  import opened SnapRecords
  import opened SnapWalks

  predicate IsPush(l: Label) { l.Did? && l.step == Hazards(Publish) }

  lemma {:induction false} DomainHead(d: Domain, t: Tid, step: HazardDomain.Step)
    requires Can(d, t, step) && !step.Publish?
    ensures Do(d, t, step).head == d.head
  {
    hide Active;
  }

  lemma {:induction false} StoringHead(sh: Shared, t: Tid, th: Thread, step: SnapCell.Step)
    requires CanThread(sh, t, th, step) && StoresSlot(step)
    ensures DoThread(sh, t, th, step).0.dom.head == sh.dom.head
  {
    hide FreeSlot;
  }

  /** Only a push moves the head of the list. */
  lemma {:induction false} HeadStays(s: State, l: Label, s': State)
    requires LabelOk(s, l, s') && !IsPush(l)
    ensures s'.sh.dom.head == s.sh.dom.head
  {
    hide CanThread, DoThread, Do, Can;
    if l.Did? {
      if l.step.Spawn? {
        SpawnHead(s.sh.dom, l.t);
      } else if l.step.Hazards? {
        HazardHead(s.sh, l.t, s.threads[l.t], l.step);
      } else if !l.step.CloseCell? {
        if StoresSlot(l.step) {
          StoringHead(s.sh, l.t, s.threads[l.t], l.step);
        } else {
          SameDomain(s.sh, l.t, s.threads[l.t], l.step);
        }
      }
    }
  }

  lemma {:induction false} SpawnHead(d: Domain, t: Tid)
    requires t !in d.locals
    ensures Can(d, t, HazardDomain.Spawn) && Do(d, t, HazardDomain.Spawn).head == d.head
  {
  }

  lemma {:induction false} HazardHead(sh: Shared, t: Tid, th: Thread, step: SnapCell.Step)
    requires CanThread(sh, t, th, step) && step.Hazards? && !step.step.Publish?
    ensures DoThread(sh, t, th, step).0.dom.head == sh.dom.head
  {
    hide Do, Can;
    DomainHead(sh.dom, t, step.step);
  }

  /** The thread is at its push and expects the head as it is. */
  ghost predicate AtPush(s: State, t: Tid) {
    && t in s.threads && t in s.sh.dom.locals && s.threads[t].op.Pinning?
    && s.sh.dom.locals[t].acq.Pushing? && s.sh.dom.locals[t].acq.expected == s.sh.dom.head
  }

  lemma {:induction false} RetrySeesHead(s: State, l: Label, s': State, t: Tid)
    requires LabelOk(s, l, s') && l == Did(t, Hazards(Retry))
    ensures AtPush(s', t)
  {
  }

  lemma {:induction false} StaysAtPush(s: State, l: Label, s': State, t: Tid)
    requires LabelOk(s, l, s') && AtPush(s, t) && !IsPush(l) && !(l.Did? && l.t == t)
    ensures AtPush(s', t)
  {
    hide CanThread, DoThread, Do, Can;
    HeadStays(s, l, s');
    if l.Did? {
      if l.step.Spawn? {
        SpawnLocal(s.sh.dom, l.t, t) by { SpawnHead(s.sh.dom, l.t); }
      } else if !l.step.CloseCell? {
        OthersLocal(s.sh, l.t, s.threads[l.t], l.step, t);
      }
    }
  }

  lemma {:induction false} WaitsAtPush(run: seq<State>, labels: seq<Label>, i: nat, j: nat, t: Tid)
    requires Labels(run, labels) && i < j < |run| && labels[i] == Did(t, Hazards(Retry))
    requires forall k :: i < k < j ==> !IsPush(labels[k]) && !(labels[k].Did? && labels[k].t == t)
    ensures AtPush(run[j], t)
  {
    hide LabelOk, AtPush;
    LabelAt(run, labels, j - 1);
    if j == i + 1 {
      RetrySeesHead(run[i], labels[i], run[j], t);
    } else {
      WaitsAtPush(run, labels, i, j - 1, t);
      StaysAtPush(run[j - 1], labels[j - 1], run[j], t);
    }
  }

  /** A push that has failed has seen the head: it goes through, whenever the thread comes to it, unless another
      push has. */
  lemma {:induction false} RetryGoesThrough(run: seq<State>, labels: seq<Label>, i: nat, j: nat, t: Tid)
    requires IsRun(run) && Labels(run, labels) && i < j < |run| && labels[i] == Did(t, Hazards(Retry))
    requires forall k :: i < k < j ==> !IsPush(labels[k]) && !(labels[k].Did? && labels[k].t == t)
    ensures CanStep(run[j], t, Hazards(Publish))
  {
    hide IsRun, StateInv, SharedInv, Inv;
    WaitsAtPush(run, labels, i, j, t);
    RunKept(run, j);
    OneState(run[j]);
    DomPart(run[j].sh);
    PushedIsThere(run[j].sh.dom, t);
  }

  lemma {:induction false} PushedIsThere(d: Domain, t: Tid)
    requires Inv(d) && t in d.locals && d.locals[t].acq.Pushing?
    ensures d.locals[t].acq.rid in d.recs
  {
    assert LocalOk(d.locals[t], t, d.recs);
  }

  // ----- from start to exit -------------------------------------------------------------------------------------

  predicate BeginsExit(l: Label, t: Tid) { l == Did(t, Hazards(BeginExit)) }

  lemma {:induction false} DomainTls(d: Domain, t: Tid, step: HazardDomain.Step)
    requires Can(d, t, step) && !step.Spawn?
    ensures t in d.locals && t in Do(d, t, step).locals
    ensures Do(d, t, step).locals[t].tls == (d.locals[t].tls && !step.BeginExit?)
  {
    hide Active;
  }

  lemma {:induction false} HazardTls(sh: Shared, t: Tid, th: Thread, step: SnapCell.Step)
    requires CanThread(sh, t, th, step) && step.Hazards?
    ensures var d := DoThread(sh, t, th, step).0.dom;
            && t in sh.dom.locals && t in d.locals
            && d.locals[t].tls == (sh.dom.locals[t].tls && !step.step.BeginExit?)
  {
    hide Do, Can;
    DomainTls(sh.dom, t, step.step);
  }

  lemma {:induction false} SpawnTls(d: Domain, t: Tid)
    requires t !in d.locals
    ensures Can(d, t, HazardDomain.Spawn) && t in Do(d, t, HazardDomain.Spawn).locals
    ensures Do(d, t, HazardDomain.Spawn).locals[t].tls
  {
  }

  lemma {:induction false} NextTls(s: State, l: Label, s': State, t: Tid)
    requires LabelOk(s, l, s') && t in s'.threads && (t in s.threads ==> t in s.sh.dom.locals)
    ensures t in s'.sh.dom.locals
    ensures s'.sh.dom.locals[t].tls == ((t in s.threads ==> s.sh.dom.locals[t].tls) && !BeginsExit(l, t))
  {
    hide CanThread, DoThread, Do, Can;
    if l.Did? {
      if l.step.Spawn? {
        SpawnTls(s.sh.dom, l.t);
        if l.t != t { SpawnLocal(s.sh.dom, l.t, t); }
      } else if !l.step.CloseCell? {
        if l.t != t {
          OthersLocal(s.sh, l.t, s.threads[l.t], l.step, t);
        } else if l.step.Hazards? {
          HazardTls(s.sh, t, s.threads[t], l.step);
        } else if StoresSlot(l.step) {
          StoringOthers(s.sh, t, s.threads[t], l.step);
        } else {
          SameDomain(s.sh, t, s.threads[t], l.step);
        }
      }
    }
  }

  ghost predicate HasExited(labels: seq<Label>, j: nat, t: Tid)
    requires j <= |labels|
  {
    exists i :: 0 <= i < j && BeginsExit(labels[i], t)
  }

  lemma {:induction false} RunTls(run: seq<State>, labels: seq<Label>, j: nat, t: Tid)
    requires IsRun(run) && Labels(run, labels) && j < |run| && t in run[j].threads
    ensures t in run[j].sh.dom.locals && (run[j].sh.dom.locals[t].tls <==> !HasExited(labels, j, t))
  {
    hide NextState, LabelOk, BeginsExit;
    assert j > 0;
    LabelAt(run, labels, j - 1);
    if t in run[j - 1].threads { RunTls(run, labels, j - 1, t); } else { NotBeforeItIsThere(run, labels, j - 1, t); }
    NextTls(run[j - 1], labels[j - 1], run[j], t);
  }

  lemma {:induction false} NotBeforeItIsThere(run: seq<State>, labels: seq<Label>, j: nat, t: Tid)
    requires IsRun(run) && Labels(run, labels) && j < |run| && t !in run[j].threads
    ensures !HasExited(labels, j, t)
  {
    hide NextState, LabelOk, BeginsExit;
    if j > 0 {
      LabelAt(run, labels, j - 1);
      NotGone(run[j - 1], labels[j - 1], run[j], t);
      NotBeforeItIsThere(run, labels, j - 1, t);
    }
  }

  lemma {:induction false} NotGone(s: State, l: Label, s': State, t: Tid)
    requires LabelOk(s, l, s') && t !in s'.threads
    ensures t !in s.threads && !BeginsExit(l, t)
  {
    hide CanThread, DoThread, Do, Can;
  }

  /** A thread has its thread-local storage until its exit begins and not after; and once the exit is over it
      owns no record, so whatever record it had is free for others. */
  lemma {:induction false} ExitGivesUpTheRecord(run: seq<State>, labels: seq<Label>, j: nat, t: Tid)
    requires IsRun(run) && Labels(run, labels) && j < |run| && t in run[j].threads
    ensures t in run[j].sh.dom.locals && (run[j].sh.dom.locals[t].tls <==> !HasExited(labels, j, t))
    ensures HasExited(labels, j, t) && run[j].threads[t].op.Idle? ==>
              forall r :: r in run[j].sh.dom.recs ==> run[j].sh.dom.recs[r].owner != By(t)
  {
    hide IsRun, StateInv, ThreadOk, Inv, HasExited;
    RunTls(run, labels, j, t);
    RunKept(run, j);
    EachThread(run[j], t);
    ThreadOp(run[j].sh, t, run[j].threads[t]) by { hide OpOk; }
    if !run[j].sh.dom.locals[t].tls && run[j].threads[t].op.Idle? {
      OwnsNothing(run[j].sh.dom, t, run[j].threads[t]);
    }
  }

  lemma {:induction false} OwnsNothing(d: Domain, t: Tid, th: Thread)
    requires Inv(d) && t in d.locals && !d.locals[t].tls && AcqOk(d.locals[t], th) && th.op.Idle?
    ensures forall r :: r in d.recs ==> d.recs[r].owner != By(t)
  {
    hide CountInv, Linked, Ranked;
    assert LocalOk(d.locals[t], t, d.recs);
    forall r | r in d.recs ensures d.recs[r].owner != By(t) { assert RecordOk(d.recs[r], r, d.locals); }
  }
}
