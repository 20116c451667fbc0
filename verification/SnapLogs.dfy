/** What each step does to the log of each cell: four steps change one log, all others none. */
module SnapLogs {
  import opened HandlerList
  import opened HazardDomain
  import opened SnapCell
  import opened SnapLabels
  import opened SnapTouch
  import L = RegistryLog

  function LogAt(cells: map<Cid, Cell>, c: Cid): L.Log { if c in cells then cells[c].log else L.FRESH }

  /** The entry a dispatch is about to call. */
  function NextEntry(sh: Shared, t: Tid, th: Thread): Entry
    requires CanCallHandler(sh, t, th)
  {
    sh.heap[TopFrame(th).a].list[TopFrame(th).next]
  }

  ghost function LogAfter(sh: Shared, t: Tid, th: Thread, step: SnapCell.Step, c: Cid): L.Log
    requires CanThread(sh, t, th, step)
  {
    var g := LogAt(sh.cells, c);
    if step.DrawId? && step.c == c then L.Draw(g, t, step.once)
    else if step.Write? && th.op.c == c then
      match Apply(sh.heap[sh.cells[c].current].list, th.op.req)
      case None => L.Miss(g, th.op.req)
      case Some(next) => L.Commit(g, th.op.req, next)
    else if step.CallHandler? && TopFrame(th).c == c && NextEntry(sh, t, th).once && NextEntry(sh, t, th).id in g.armed
    then L.Take(g, NextEntry(sh, t, th).id, t)
    else if step == FinishBody(false) && TopFrame(th).c == c then L.Abandon(g, TopFrame(th).id)
    else g
  }

  /** The log is as it should be, and the current list changes only with the history. */
  ghost predicate LogNext(sh: Shared, t: Tid, th: Thread, step: SnapCell.Step, after: map<Cid, Cell>, c: Cid)
    requires CanThread(sh, t, th, step)
  {
    && LogAt(after, c) == LogAfter(sh, t, th, step, c)
    && (c in sh.cells ==>
          && c in after
          && (|Hist(after[c])| == |Hist(sh.cells[c])| ==> after[c].current == sh.cells[c].current))
  }

  lemma {:induction false} CallLog(sh: Shared, t: Tid, th: Thread, step: SnapCell.Step)
    requires CanThread(sh, t, th, step) && OnCall(step)
    ensures LogNext(sh, t, th, step, DoThread(sh, t, th, step).0.cells, th.op.call.c)
  {
    hide Apply;
  }

  lemma {:induction false} OpLog(sh: Shared, t: Tid, th: Thread, step: SnapCell.Step)
    requires CanThread(sh, t, th, step) && OnOp(step) && !step.Write?
    ensures LogNext(sh, t, th, step, DoThread(sh, t, th, step).0.cells, th.op.c)
  {
    hide Apply, IsSplit, MoveOut;
  }

  lemma {:induction false} WriteLog(sh: Shared, t: Tid, th: Thread, step: SnapCell.Step)
    requires CanThread(sh, t, th, step) && step.Write?
    ensures LogNext(sh, t, th, step, DoThread(sh, t, th, step).0.cells, th.op.c)
  {
    hide Apply;
  }

  lemma {:induction false} FrameLog(sh: Shared, t: Tid, th: Thread, step: SnapCell.Step)
    requires CanThread(sh, t, th, step) && (step.Uncount? || step.HandlerEnds?)
    ensures LogNext(sh, t, th, step, DoThread(sh, t, th, step).0.cells, TopFrame(th).c)
  {
    hide Apply;
  }

  lemma {:induction false} DispatchLog(sh: Shared, t: Tid, th: Thread, step: SnapCell.Step)
    requires CanThread(sh, t, th, step) && (step.CallHandler? || step.FinishBody?)
    ensures LogNext(sh, t, th, step, DoThread(sh, t, th, step).0.cells, TopFrame(th).c)
  {
    hide Apply;
  }

  lemma {:induction false} NamedLog(sh: Shared, t: Tid, th: Thread, step: SnapCell.Step)
    requires CanThread(sh, t, th, step) && OnNamed(step)
    ensures LogNext(sh, t, th, step, DoThread(sh, t, th, step).0.cells, step.c)
  {
    hide Apply;
  }

  lemma {:induction false} ReleaseLog(sh: Shared, t: Tid, th: Thread, step: SnapCell.Step)
    requires CanThread(sh, t, th, step) && step.FbRelease?
    ensures LogNext(sh, t, th, step, DoThread(sh, t, th, step).0.cells, TopFrame(th).c)
  {
    hide CanThread, DoThread;
    ReleaseTouches(sh, t, th, step);
  }

  lemma {:induction false} LogElsewhere(sh: Shared, t: Tid, th: Thread, step: SnapCell.Step, c: Cid)
    requires CanThread(sh, t, th, step) && WorksOn(sh, t, th, step) != Some(c)
    ensures LogAfter(sh, t, th, step, c) == LogAt(sh.cells, c)
  {
    hide CanThread, Apply;
  }

  lemma {:induction false} ThreadLog(sh: Shared, t: Tid, th: Thread, step: SnapCell.Step, c: Cid)
    requires CanThread(sh, t, th, step)
    ensures LogNext(sh, t, th, step, DoThread(sh, t, th, step).0.cells, c)
  {
    hide CanThread, DoThread, LogAfter;
    ThreadTouches(sh, t, th, step);
    if WorksOn(sh, t, th, step) != Some(c) {
      LogElsewhere(sh, t, th, step, c);
    } else {
      hide LogNext, Touches;
      if OnCall(step) {
        CallLog(sh, t, th, step);
      } else if step.Write? {
        WriteLog(sh, t, th, step);
      } else if OnOp(step) {
        OpLog(sh, t, th, step);
      } else if step.FbRelease? {
        ReleaseLog(sh, t, th, step);
      } else if step.CallHandler? || step.FinishBody? {
        DispatchLog(sh, t, th, step);
      } else if OnFrame(step) {
        FrameLog(sh, t, th, step);
      } else {
        NamedLog(sh, t, th, step);
      }
    }
  }

  /** The label is a step of a thread that is running, which `LogAfter` speaks of. */
  ghost predicate Acts(l: Label) { l.Did? && !l.step.Spawn? && !l.step.CloseCell? }

  lemma {:induction false} NextLog(s: State, l: Label, s': State, c: Cid)
    requires LabelOk(s, l, s')
    ensures Acts(l) ==> l.t in s.threads && CanThread(s.sh, l.t, s.threads[l.t], l.step)
    ensures LogAt(s'.sh.cells, c)
            == if Acts(l) then LogAfter(s.sh, l.t, s.threads[l.t], l.step, c) else LogAt(s.sh.cells, c)
    ensures c in s.sh.cells ==> c in s'.sh.cells
  {
    hide CanThread, DoThread, Do, Can, LogAfter;
    if Acts(l) { ThreadLog(s.sh, l.t, s.threads[l.t], l.step, c); }
  }
}
