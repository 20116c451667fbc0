/** Calls of `read` and `load_arc_if` to their end: a call ends only with its list, borrowed or owned, and
    `load_arc_if` hands out a reference if and only if it is asked to keep one. */
module SnapLoads {
  import opened HandlerList
  import opened HazardDomain
  import opened SnapCell
  import opened SnapInvariant
  import opened SnapStable
  import opened SnapQuiet
  import opened SnapUser
  import opened SnapSafety
  import opened SnapLabels
  import opened SnapWait
  import opened SnapReads
  import L = RegistryLog

  /** A borrowing call ends inside its read, before the first handler. */
  ghost predicate GotRead(th: Thread, th': Thread)
    requires InCall(th.op)
  {
    && th.op.call.Borrows() && th'.op.Idle? && |th'.frames| == |th.frames| + 1 && th'.frames[..|th.frames|] == th.frames
    && var f := TopFrame(th');
       && IsRead(f) && f.c == th.op.call.c && f.next == 0 && f.notify == th.op.call.use.Notify?
       && f.since == th.op.call.since
  }

  /** An owning call ends with its decision, under its hazard or with the lock released. */
  ghost predicate GotHandle(th: Thread, step: SnapCell.Step, th': Thread)
    requires InCall(th.op)
  {
    && th.op.call.use.Load? && th'.frames == th.frames
    && (|| (step.Clone? && th.op.Cloning? && th'.op.Unpinning? && th'.op.c == th.op.call.c && !th'.op.unwinding)
        || (step.FbUnlock? && th.op.FbUnlocking? && th'.op.Idle?))
  }

  lemma {:induction false} QuietInCall(sh: Shared, t: Tid, th: Thread, q: QuietStep)
    requires CanQuiet(sh, t, th, q) && InCall(th.op)
    ensures InCall(DoQuiet(sh, t, th, q).op)
  {
  }

  lemma {:induction false} LoudInCall(sh: Shared, t: Tid, th: Thread, step: SnapCell.Step)
    requires CanThread(sh, t, th, step) && InCall(th.op) && !step.Quiet?
    requires th.op.Cloning? ==> th.op.call.use.Load?
    ensures var th' := DoThread(sh, t, th, step).1; InCall(th'.op) || GotRead(th, th') || GotHandle(th, step, th')
  {
    hide Do, Can, StoreSlot, DoQuiet, CanQuiet, Unref, Apply, MoveOut, IsSplit, FreeSlot;
  }

  lemma {:induction false} QuietClones(sh: Shared, t: Tid, th: Thread, q: QuietStep)
    requires CanQuiet(sh, t, th, q)
    ensures !DoQuiet(sh, t, th, q).op.Cloning?
  {
  }

  lemma {:induction false} LoudClones(sh: Shared, t: Tid, th: Thread, step: SnapCell.Step)
    requires CanThread(sh, t, th, step) && !step.Quiet? && DoThread(sh, t, th, step).1.op.Cloning?
    ensures DoThread(sh, t, th, step).1.op.call.use.Load?
  {
    hide Do, Can, StoreSlot, DoQuiet, CanQuiet, Unref, Apply, MoveOut, IsSplit, FreeSlot;
  }

  /** Only `load_arc_if` takes a reference under its hazard. */
  lemma {:induction false} OnlyLoadsClone(run: seq<State>, j: nat, t: Tid)
    requires IsRun(run) && j < |run| && t in run[j].threads && run[j].threads[t].op.Cloning?
    ensures run[j].threads[t].op.call.use.Load?
  {
    hide CanThread, DoThread, CanQuiet, DoQuiet, Do, Can;
    assert j > 0;
    var s, s' := run[j - 1], run[j - 1 + 1];
    assert NextState(s, s');
    if t in s.threads && s'.threads[t] == s.threads[t] {
      OnlyLoadsClone(run, j - 1, t);
    } else {
      var u, step :| CanStep(s, u, step) && s' == DoStep(s, u, step);
      if step.Quiet? {
        QuietOf(s.sh, t, s.threads[t], step);
        QuietClones(s.sh, t, s.threads[t], step.q);
      } else if !step.Spawn? && !step.CloseCell? {
        LoudClones(s.sh, t, s.threads[t], step);
      }
    }
  }

  /** A call of `read` or `load_arc_if` goes on until it has its list: there is no other way out of it. */
  lemma {:induction false} CallEndsWithItsList(run: seq<State>, labels: seq<Label>, p: nat, t: Tid)
    requires IsRun(run) && Labels(run, labels) && p < |labels| && t in run[p].threads && InCall(run[p].threads[t].op)
    ensures t in run[p + 1].threads
    ensures || (InCall(run[p + 1].threads[t].op) && run[p + 1].threads[t].op.call == run[p].threads[t].op.call)
            || (labels[p].Did? && labels[p].t == t
                && (|| GotRead(run[p].threads[t], run[p + 1].threads[t])
                    || GotHandle(run[p].threads[t], labels[p].step, run[p + 1].threads[t])))
  {
    hide IsRun, NextState, CanThread, DoThread, CanQuiet, DoQuiet, Do, Can, GotRead, GotHandle;
    LabelAt(run, labels, p);
    RunStep(run, p);
    var s, l := run[p], labels[p];
    StaysThere(s, l, run[p + 1], t);
    NextCall(s, run[p + 1], t);
    if l.Did? && l.t == t {
      if l.step.Quiet? {
        QuietOf(s.sh, t, s.threads[t], l.step);
        QuietInCall(s.sh, t, s.threads[t], l.step.q);
      } else {
        if s.threads[t].op.Cloning? { OnlyLoadsClone(run, p, t); }
        LoudInCall(s.sh, t, s.threads[t], l.step);
      }
    }
  }

  lemma {:induction false} StaysThere(s: State, l: Label, s': State, t: Tid)
    requires LabelOk(s, l, s') && t in s.threads
    ensures t in s'.threads
  {
    hide CanThread, DoThread, Do;
  }

  // ----- the reference --------------------------------------------------------------------------------------

  /** Exactly one reference has come into being, to this list of this cell, for whoever called. */
  ghost predicate OneMoreHandle(before: map<Tok, Handle>, after: map<Tok, Handle>, a: Addr, c: Cid) {
    exists tok: Tok, v: nat :: tok !in before && after == before[tok := Handle(a, c, v, Anyone)]
  }

  /** `load_arc_if` with its list in hand: asked to keep it, it hands out one reference to a list that was current
      at some instant of the call, and takes one count; asked not to, it hands out nothing and takes none. */
  lemma {:induction false} LoadArcReturns(
    run: seq<State>, labels: seq<Label>, m: nat, p: nat, t: Tid, c: Cid, keep: bool) returns (k: nat)
    requires IsRun(run) && Labels(run, labels) && Calls(run, m, p, t, c, Load) && p < |labels|
    requires labels[p] == Did(t, Clone(keep))
    ensures run[p].threads[t].op.Cloning? && run[p].threads[t].op.a in run[p].sh.heap
    ensures m <= k <= p && c in run[k].sh.cells && Hist(run[k].sh.cells[c]) != []
    ensures var s, s', a := run[p].sh, run[p + 1].sh, run[p].threads[t].op.a;
            && a in s'.heap && s'.heap[a].list == s.heap[a].list == L.Current(run[k].sh.cells[c].log)
            && (keep ==> OneMoreHandle(s.handles, s'.handles, a, c) && s'.heap[a].strong == s.heap[a].strong + 1)
            && (!keep ==> s'.handles == s.handles && s'.heap == s.heap)
  {
    hide IsRun, StateInv, SharedInv, HeapInv, CellsInv, SlotsInv, StrongInv, LabelOk, Calls;
    LabelAt(run, labels, p);
    OneCall(run, m, p, t, c, Load);
    ClonesNow(run[p], labels[p], run[p + 1], t);
    k := LoadIsAtomic(run, m, p, t, c, Load);
    RunKept(run, p);
    TheActor(run[p], t) by { hide ActorOk; }
    HandlesPart(run[p].sh);
    CloneReturns(run[p], labels[p], run[p + 1], t, keep);
  }

  lemma {:induction false} ClonesNow(s: State, l: Label, s': State, t: Tid)
    requires LabelOk(s, l, s') && l.Did? && l.t == t && l.step.Clone?
    ensures t in s.threads && s.threads[t].op.Cloning?
  {
  }

  lemma {:induction false} CloneReturns(s: State, l: Label, s': State, t: Tid, keep: bool)
    requires LabelOk(s, l, s') && l == Did(t, Clone(keep)) && HandlesInv(s.sh.handles, s.sh.heap, s.sh.nextTok)
    ensures t in s.threads && s.threads[t].op.Cloning? && s.threads[t].op.a in s.sh.heap
    ensures var a := s.threads[t].op.a;
            && a in s'.sh.heap && s'.sh.heap[a].list == s.sh.heap[a].list
            && (keep ==> OneMoreHandle(s.sh.handles, s'.sh.handles, a, s.threads[t].op.call.c))
            && (keep ==> s'.sh.heap[a].strong == s.sh.heap[a].strong + 1)
            && (!keep ==> s'.sh.handles == s.sh.handles && s'.sh.heap == s.sh.heap)
  {
    var th := s.threads[t];
    var h := Handle(th.op.a, th.op.call.c, th.op.version, Anyone);
    assert s.sh.nextTok !in s.sh.handles;
    assert keep ==> s'.sh.handles == s.sh.handles[s.sh.nextTok := h];
  }

  /** On the fallback path the reference taken under the lock becomes the caller's. */
  lemma {:induction false} FallbackLoadReturns(run: seq<State>, labels: seq<Label>, m: nat, p: nat, t: Tid, c: Cid)
    returns (k: nat)
    requires IsRun(run) && Labels(run, labels) && Calls(run, m, p, t, c, Load) && p < |labels|
    requires labels[p] == Did(t, FbUnlock)
    ensures run[p].threads[t].op.FbUnlocking? && t in run[p + 1].threads && run[p + 1].threads[t].op.Idle?
    ensures m <= k <= p && c in run[k].sh.cells && Hist(run[k].sh.cells[c]) != []
    ensures var s, s', op := run[p].sh, run[p + 1].sh, run[p].threads[t].op;
            && op.a in s.heap && s.heap[op.a].list == L.Current(run[k].sh.cells[c].log)
            && op.arc in s.handles && s.handles[op.arc].addr == op.a && !s.handles[op.arc].holder.Anyone?
            && s'.handles == s.handles[op.arc := s.handles[op.arc].(holder := Anyone)]
  {
    hide IsRun, StateInv, ThreadOk, Inv, LabelOk, Calls;
    LabelAt(run, labels, p);
    OneCall(run, m, p, t, c, Load);
    UnlocksNow(run[p], labels[p], run[p + 1], t);
    k := LoadIsAtomic(run, m, p, t, c, Load);
    RunKept(run, p);
    EachThread(run[p], t);
    ThreadOp(run[p].sh, t, run[p].threads[t]);
  }

  lemma {:induction false} UnlocksNow(s: State, l: Label, s': State, t: Tid)
    requires LabelOk(s, l, s') && l == Did(t, FbUnlock)
    ensures t in s.threads && s.threads[t].op.FbUnlocking? && t in s'.threads
    ensures var op := s.threads[t].op;
            op.arc in s.sh.handles && (op.call.use.Load? ==>
              && s'.threads[t].op.Idle?
              && s'.sh.handles == s.sh.handles[op.arc := s.sh.handles[op.arc].(holder := Anyone)])
  {
  }
}
