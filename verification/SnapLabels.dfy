/** Runs with the steps written beside them. */
module SnapLabels {
  import opened HandlerList
  import opened HazardDomain
  import opened SnapCell
  import opened SnapSafety

  datatype Label = Stutter | Did(t: Tid, step: SnapCell.Step)

  ghost predicate LabelOk(s: State, l: Label, s': State) {
    if l.Stutter? then s' == s else CanStep(s, l.t, l.step) && s' == DoStep(s, l.t, l.step)
  }

  /** `labels[i]` is the step from state `i` to state `i + 1`. */
  ghost predicate Labels(run: seq<State>, labels: seq<Label>) {
    |run| == |labels| + 1 && forall i :: 0 <= i < |labels| ==> LabelOk(run[i], labels[i], run[i + 1])
  }

  lemma {:induction false} RunHasLabels(run: seq<State>) returns (labels: seq<Label>)
    requires run != [] && forall i :: 0 <= i < |run| - 1 ==> NextState(run[i], run[i + 1])
    ensures Labels(run, labels)
  {
    hide CanStep, DoStep;
    if |run| == 1 {
      labels := [];
    } else {
      var n := |run| - 2;
      labels := RunHasLabels(run[..n + 1]);
      assert NextState(run[n], run[n + 1]);
      var l := LabelOf(run[n], run[n + 1]);
      forall i | 0 <= i < |labels| ensures LabelOk(run[i], labels[i], run[i + 1]) {
        assert LabelOk(run[..n + 1][i], labels[i], run[..n + 1][i + 1]);
      }
      labels := labels + [l];
    }
  }

  lemma {:induction false} LabelOf(s: State, s': State) returns (l: Label)
    requires NextState(s, s')
    ensures LabelOk(s, l, s')
  {
    if s' == s {
      l := Stutter;
    } else {
      var t, step :| CanStep(s, t, step) && s' == DoStep(s, t, step);
      l := Did(t, step);
    }
  }

  lemma {:induction false} LabelAt(run: seq<State>, labels: seq<Label>, i: nat)
    requires Labels(run, labels) && i < |labels|
    ensures LabelOk(run[i], labels[i], run[i + 1])
  {
    hide LabelOk;
  }

  /** The write the step asks for on cell `c`: a registration draws its id, an unregistration or a clear is
      called, or a one-shot body is over and has the registry unregister it. */
  ghost function AsksFor(s: State, l: Label, t: Tid, c: Cid): Option<Request> {
    if l.Stutter? || l.t != t || t !in s.threads || c !in s.sh.cells then None
    else
      var th := s.threads[t];
      match l.step
      case DrawId(d, priority, once) =>
        if d == c then Some(Insert(Entry(s.sh.cells[c].log.nextId, priority, once))) else None
      case Quiet(q) => if q.BeginWrite? && q.c == c then Some(q.req) else None
      case FinishBody(alive) =>
        if alive && th.frames != [] && TopFrame(th).Body? && TopFrame(th).c == c then Some(Remove(TopFrame(th).id))
        else None
      case _ => None
  }
}
