/** One-shot handlers run: every dispatch that calls one has its body run, by that dispatch or an earlier one,
    and a dispatch that has come to its end leaves none of its one-shot handlers unrun. */
module SnapOnce {
  import opened HandlerList
  import opened HazardDomain
  import opened SnapCell
  import opened SnapInvariant
  import opened SnapUser
  import opened SnapSafety
  import opened SnapLabels
  import opened SnapLogs
  import opened SnapWait
  import opened SnapDispatch
  import opened SnapCalls
  import L = RegistryLog

  // ----- armed until taken -----------------------------------------------------------------------------------

  /** The closure is still in its mutex, or its body has been run. */
  predicate ArmedOrRun(g: L.Log, id: nat) { id in g.armed || id in g.bodies }

  lemma {:induction false} ArmedAfter(sh: Shared, t: Tid, th: Thread, step: SnapCell.Step, c: Cid, id: nat)
    requires CanThread(sh, t, th, step)
    ensures ArmedOrRun(LogAt(sh.cells, c), id) ==> ArmedOrRun(LogAfter(sh, t, th, step, c), id)
    ensures id in LogAt(sh.cells, c).bodies ==> id in LogAfter(sh, t, th, step, c).bodies
    ensures id in LogAfter(sh, t, th, step, c).abandoned && id !in LogAt(sh.cells, c).abandoned ==>
              step == FinishBody(false) && TopFrame(th) == Body(c, id)
  {
    hide Apply, IsSplit, Can, CanQuiet, CanWrite;
  }

  lemma {:induction false} NextArmed(s: State, l: Label, s': State, c: Cid, id: nat)
    requires LabelOk(s, l, s')
    ensures ArmedOrRun(LogAt(s.sh.cells, c), id) ==> ArmedOrRun(LogAt(s'.sh.cells, c), id)
    ensures id in LogAt(s.sh.cells, c).bodies ==> id in LogAt(s'.sh.cells, c).bodies
  {
    hide CanThread, LogAfter, LabelOk, ArmedOrRun;
    NextLog(s, l, s', c);
    if Acts(l) { ArmedAfter(s.sh, l.t, s.threads[l.t], l.step, c, id); }
  }

  lemma {:induction false} DrawArms(s: State, l: Label, s': State)
    requires LabelOk(s, l, s') && l.Did? && l.step.DrawId? && l.step.once
    ensures l.step.c in s.sh.cells && ArmedOrRun(LogAt(s'.sh.cells, l.step.c), s.sh.cells[l.step.c].log.nextId)
  {
  }

  /** A one-shot registration is armed from the call on until its body is run. */
  lemma {:induction false} OnceIsArmed(run: seq<State>, labels: seq<Label>, i: nat, j: nat, c: Cid, id: nat)
    requires Labels(run, labels) && i < j < |run| && RegistersId(run, labels, i, c, id) && labels[i].step.once
    ensures ArmedOrRun(LogAt(run[j].sh.cells, c), id)
  {
    hide LabelOk, ArmedOrRun;
    LabelAt(run, labels, j - 1);
    if j == i + 1 {
      DrawArms(run[i], labels[i], run[j]);
    } else {
      OnceIsArmed(run, labels, i, j - 1, c, id);
      NextArmed(run[j - 1], labels[j - 1], run[j], c, id);
    }
  }

  /** A one-shot handler in a list some read is over is armed or has been run. */
  lemma {:induction false} ListedIsArmed(run: seq<State>, labels: seq<Label>, j: nat, u: Tid, i: nat, k: nat)
    requires IsRun(run) && Labels(run, labels) && j < |run| && u in run[j].threads && i < |run[j].threads[u].frames|
    requires IsRead(run[j].threads[u].frames[i]) && k < |run[j].threads[u].frames[i].seen|
    requires run[j].threads[u].frames[i].seen[k].once
    ensures var f := run[j].threads[u].frames[i]; ArmedOrRun(LogAt(run[j].sh.cells, f.c), f.seen[k].id)
  {
    hide IsRun, StateInv, ThreadOk, Inv, LabelOk, AsksFor, ArmedOrRun;
    var f := run[j].threads[u].frames[i];
    RunKept(run, j);
    EachThread(run[j], u);
    ReadFrame(run[j].sh, u, run[j].threads[u], i);
    LogOf(run[j], f.c);
    var g := run[j].sh.cells[f.c].log;
    var n := ListedWasInserted(g.hist, g.reqs, f.version, f.seen[k]);
    var m, w, t := WriteWasAsked(run, labels, j, f.c, n);
    LabelAt(run, labels, m);
    Draws(run[m], labels[m], run[m + 1], t, f.c, f.seen[k]);
    OnceIsArmed(run, labels, m, j, f.c, f.seen[k].id);
  }

  // ----- taken when called ---------------------------------------------------------------------------------------

  /** A dispatch that calls a one-shot handler whose closure is still there takes it and runs its body. */
  lemma {:induction false} CallRunsBody(run: seq<State>, labels: seq<Label>, j: nat, t: Tid)
    requires IsRun(run) && Labels(run, labels) && j < |labels| && labels[j] == Did(t, CallHandler)
    ensures t in run[j].threads && run[j].threads[t].frames != [] && t in run[j + 1].threads
    ensures var f := TopFrame(run[j].threads[t]);
            && IsRead(f) && f.next < |f.seen|
            && var e, g, h := f.seen[f.next], LogAt(run[j].sh.cells, f.c), LogAt(run[j + 1].sh.cells, f.c);
               e.once && e.id in g.armed ==>
                 && run[j + 1].threads[t].frames != [] && TopFrame(run[j + 1].threads[t]) == Body(f.c, e.id)
                 && h.bodies == g.bodies + [e.id] && e.id !in h.armed
  {
    hide IsRun, StateInv;
    LabelAt(run, labels, j);
    RunKept(run, j);
    TopSees(run[j], t, CallHandler);
  }

  // ----- reads begin at the first handler -----------------------------------------------------------------------

  /** Every read on the stack was there before, or starts at the first handler. */
  ghost predicate ReadsStart(frames: seq<Frame>, after: seq<Frame>) {
    forall i :: 0 <= i < |after| && IsRead(after[i]) ==>
      (i < |frames| && after[i] == frames[i]) || after[i].next == 0
  }

  lemma {:induction false} QuietStart(sh: Shared, t: Tid, th: Thread, q: QuietStep)
    requires CanQuiet(sh, t, th, q)
    ensures ReadsStart(th.frames, DoQuiet(sh, t, th, q).frames)
  {
  }

  lemma {:induction false} LoudStart(sh: Shared, t: Tid, th: Thread, step: SnapCell.Step)
    requires CanThread(sh, t, th, step) && !step.Quiet? && !step.CallHandler?
    ensures ReadsStart(th.frames, DoThread(sh, t, th, step).1.frames)
  {
    hide Do, Can, StoreSlot, DoQuiet, CanQuiet, Unref, Apply, MoveOut, IsSplit, FreeSlot;
  }

  lemma {:induction false} NextStart(s: State, l: Label, s': State, u: Tid)
    requires LabelOk(s, l, s') && u in s'.threads && l != Did(u, CallHandler)
    ensures ReadsStart(if u in s.threads then s.threads[u].frames else [], s'.threads[u].frames)
  {
    hide CanThread, DoThread, CanQuiet, DoQuiet, Do, Can;
    if l.Did? && l.t == u && !l.step.Spawn? && !l.step.CloseCell? {
      if l.step.Quiet? {
        QuietOf(s.sh, u, s.threads[u], l.step);
        QuietStart(s.sh, u, s.threads[u], l.step.q);
      } else {
        LoudStart(s.sh, u, s.threads[u], l.step);
      }
    }
  }

  /** What the call of a handler does to the stack: the read goes one on, and nothing under it changes. */
  lemma {:induction false} CallStart(s: State, l: Label, s': State, u: Tid)
    requires LabelOk(s, l, s') && l == Did(u, CallHandler)
    ensures u in s.threads && u in s'.threads && s.threads[u].frames != [] && IsRead(TopFrame(s.threads[u]))
    ensures var frames, after, n := s.threads[u].frames, s'.threads[u].frames, |s.threads[u].frames| - 1;
            && |after| > n && after[..n] == frames[..n] && after[n] == frames[n].(next := frames[n].next + 1)
            && forall i :: n < i < |after| ==> !IsRead(after[i])
  {
  }

  // ----- called is run ---------------------------------------------------------------------------------------------

  lemma {:induction false} BodiesStay(run: seq<State>, labels: seq<Label>, j: nat, c: Cid, id: nat)
    requires Labels(run, labels) && j < |labels| && id in LogAt(run[j].sh.cells, c).bodies
    ensures id in LogAt(run[j + 1].sh.cells, c).bodies
  {
    hide LabelOk, ArmedOrRun;
    LabelAt(run, labels, j);
    NextArmed(run[j], labels[j], run[j + 1], c, id);
  }

  /** The handler being called, if it is a one-shot one, has had its body run when the call is made. */
  lemma {:induction false} CalledNow(run: seq<State>, labels: seq<Label>, j: nat, t: Tid)
    requires IsRun(run) && Labels(run, labels) && j < |labels| && labels[j] == Did(t, CallHandler)
    ensures t in run[j].threads && run[j].threads[t].frames != []
    ensures var f := TopFrame(run[j].threads[t]);
            && IsRead(f) && f.next < |f.seen|
            && (f.seen[f.next].once ==> f.seen[f.next].id in LogAt(run[j + 1].sh.cells, f.c).bodies)
  {
    hide IsRun, LabelOk;
    CallRunsBody(run, labels, j, t);
    var frames := run[j].threads[t].frames;
    var f := TopFrame(run[j].threads[t]);
    var e := f.seen[f.next];
    if e.once {
      ListedIsArmed(run, labels, j, t, |frames| - 1, f.next);
      if e.id !in LogAt(run[j].sh.cells, f.c).armed { BodiesStay(run, labels, j, f.c, e.id); }
    }
  }

  /** In every state of every run, the one-shot handlers a dispatch has called have had their bodies run. */
  lemma {:induction false} CalledHasRun(run: seq<State>, labels: seq<Label>, j: nat, u: Tid, i: nat, k: nat)
    requires IsRun(run) && Labels(run, labels) && j < |run| && u in run[j].threads && i < |run[j].threads[u].frames|
    requires var f := run[j].threads[u].frames[i]; IsRead(f) && k < f.next && k < |f.seen| && f.seen[k].once
    ensures var f := run[j].threads[u].frames[i]; f.seen[k].id in LogAt(run[j].sh.cells, f.c).bodies
  {
    hide NextState, LabelOk;
    assert j > 0;
    var f := run[j].threads[u].frames[i];
    LabelAt(run, labels, j - 1);
    if labels[j - 1] != Did(u, CallHandler) {
      NextStart(run[j - 1], labels[j - 1], run[j], u);
      CalledHasRun(run, labels, j - 1, u, i, k);
      BodiesStay(run, labels, j - 1, f.c, f.seen[k].id);
    } else {
      CallStart(run[j - 1], labels[j - 1], run[j], u);
      CalledNow(run, labels, j - 1, u);
      var frames := run[j - 1].threads[u].frames;
      if i < |frames| - 1 { assert run[j].threads[u].frames[..|frames| - 1][i] == frames[..|frames| - 1][i]; }
      if i < |frames| - 1 || k < frames[i].next {
        CalledHasRun(run, labels, j - 1, u, i, k);
        BodiesStay(run, labels, j - 1, f.c, f.seen[k].id);
      }
    }
  }

  /** A `notify` returns, not by unwinding. */
  predicate Returns(l: Label, t: Tid) { l == Did(t, Quiet(LeaveHazard(false))) || l == Did(t, FbRelease(false)) }

  lemma {:induction false} ReturnsAtEnd(s: State, l: Label, s': State, t: Tid)
    requires LabelOk(s, l, s') && Returns(l, t)
    ensures t in s.threads && s.threads[t].frames != [] && IsRead(TopFrame(s.threads[t]))
    ensures TopFrame(s.threads[t]).notify ==> TopFrame(s.threads[t]).next == |TopFrame(s.threads[t]).seen|
  {
    hide Unref;
  }

  /** When a `notify` returns, every one-shot handler of its list has had its body run, exactly once. */
  lemma {:induction false} OneShotRunsOnce(run: seq<State>, labels: seq<Label>, j: nat, t: Tid, k: nat) returns (n: nat)
    requires IsRun(run) && Labels(run, labels) && j < |labels| && Returns(labels[j], t)
    requires t in run[j].threads && run[j].threads[t].frames != []
    requires var f := TopFrame(run[j].threads[t]);
             && IsRead(f) && f.notify && k < |f.seen| && f.seen[k].once && LogAt(run[j].sh.cells, f.c).drawn <= L.U64
    ensures var f := TopFrame(run[j].threads[t]); var bodies := LogAt(run[j].sh.cells, f.c).bodies;
            && n < |bodies| && bodies[n] == f.seen[k].id
            && forall m :: 0 <= m < |bodies| && bodies[m] == f.seen[k].id ==> m == n
  {
    hide IsRun, StateInv, LabelOk;
    LabelAt(run, labels, j);
    ReturnsAtEnd(run[j], labels[j], run[j + 1], t);
    var f := TopFrame(run[j].threads[t]);
    CalledHasRun(run, labels, j, t, |run[j].threads[t].frames| - 1, k);
    var g := LogAt(run[j].sh.cells, f.c);
    RunKept(run, j);
    LogOf(run[j], f.c);
    n :| 0 <= n < |g.bodies| && g.bodies[n] == f.seen[k].id;
  }

  // ----- removed when over -------------------------------------------------------------------------------------------

  /** A one-shot handler is left in the list only when its registry cannot be reached any more. */
  lemma {:induction false} AbandonedOnlyWhenGone(run: seq<State>, labels: seq<Label>, j: nat, c: Cid, id: nat)
    returns (m: nat)
    requires IsRun(run) && Labels(run, labels) && j < |run| && id in LogAt(run[j].sh.cells, c).abandoned
    ensures m < j && labels[m].Did? && labels[m].step == FinishBody(false) && labels[m].t in run[m].threads
    ensures run[m].threads[labels[m].t].frames != [] && TopFrame(run[m].threads[labels[m].t]) == Body(c, id)
  {
    hide NextState, LabelOk, LogAfter;
    assert j > 0;
    m := j - 1;
    LabelAt(run, labels, m);
    NextLog(run[m], labels[m], run[j], c);
    if id in LogAt(run[m].sh.cells, c).abandoned {
      m := AbandonedOnlyWhenGone(run, labels, m, c, id);
    } else {
      ArmedAfter(run[m].sh, labels[m].t, run[m].threads[labels[m].t], labels[m].step, c, id);
    }
  }
}
