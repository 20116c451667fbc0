/** Which cell a step works on: all others keep everything but the record of where their versions live. */
module SnapTouch {
  import opened HandlerList
  import opened HazardDomain
  import opened SnapCell
  import opened SnapHeap

  /** Steps on the cell of the call in progress. */
  predicate OnCall(step: SnapCell.Step) { step.FbLock? || step.Count? || step.FbClone? || step.FbUnlock? }

  /** Steps on the cell of the operation. */
  predicate OnOp(step: SnapCell.Step) {
    step.TryLock? || step.Collect? || step.StoreLen? || step.Unlock? || step.Lock? || step.Write?
  }

  /** Steps on the cell of the top frame. */
  predicate OnFrame(step: SnapCell.Step) {
    step.FbRelease? || step.Uncount? || step.CallHandler? || step.FinishBody? || step.HandlerEnds?
  }

  /** Steps on the cell they name. */
  predicate OnNamed(step: SnapCell.Step) { step.OpenCell? || step.DrawId? || step.SetCallback? }

  ghost function WorksOn(sh: Shared, t: Tid, th: Thread, step: SnapCell.Step): Option<Cid>
    requires CanThread(sh, t, th, step)
  {
    if OnCall(step) then Some(th.op.call.c)
    else if OnOp(step) then Some(th.op.c)
    else if OnFrame(step) then Some(TopFrame(th).c)
    else if OnNamed(step) then Some(step.c)
    else None
  }

  /** At most cell `d` has changed, and no cell has gone. */
  ghost predicate Touches(cells: map<Cid, Cell>, after: map<Cid, Cell>, d: Option<Cid>) {
    && (forall c :: c in cells ==> c in after && (d == Some(c) || SameWords(cells[c], after[c])))
    && (forall c :: c in after ==> c in cells || d == Some(c))
    && (d.Some? ==> d.value in after)
  }

  lemma {:induction false} OneCell(cells: map<Cid, Cell>, d: Cid, y: Cell)
    ensures Touches(cells, cells[d := y], Some(d))
    ensures d in cells ==> Touches(cells, cells, Some(d))
  {
  }

  lemma {:induction false} NoCell(cells: map<Cid, Cell>)
    ensures Touches(cells, cells, None)
  {
  }

  lemma {:induction false} UnrefTouches(sh: Shared, a: Addr, place: Place)
    requires a in sh.heap
    ensures Touches(sh.cells, Unref(sh, a, place).cells, None)
  {
  }

  lemma {:induction false} CallTouches(sh: Shared, t: Tid, th: Thread, step: SnapCell.Step)
    requires CanThread(sh, t, th, step) && OnCall(step)
    ensures Touches(sh.cells, DoThread(sh, t, th, step).0.cells, Some(th.op.call.c))
  {
    hide Touches;
    OneCell(sh.cells, th.op.call.c, DoThread(sh, t, th, step).0.cells[th.op.call.c]);
  }

  lemma {:induction false} OpTouches(sh: Shared, t: Tid, th: Thread, step: SnapCell.Step)
    requires CanThread(sh, t, th, step) && OnOp(step)
    ensures Touches(sh.cells, DoThread(sh, t, th, step).0.cells, Some(th.op.c))
  {
    hide Touches, IsSplit, MoveOut, Apply;
    OneCell(sh.cells, th.op.c, DoThread(sh, t, th, step).0.cells[th.op.c]);
  }

  lemma {:induction false} FrameTouches(sh: Shared, t: Tid, th: Thread, step: SnapCell.Step)
    requires CanThread(sh, t, th, step) && OnFrame(step) && !step.FbRelease?
    ensures Touches(sh.cells, DoThread(sh, t, th, step).0.cells, Some(TopFrame(th).c))
  {
    hide Touches;
    OneCell(sh.cells, TopFrame(th).c, DoThread(sh, t, th, step).0.cells[TopFrame(th).c]);
  }

  lemma {:induction false} ReleaseTouches(sh: Shared, t: Tid, th: Thread, step: SnapCell.Step)
    requires CanThread(sh, t, th, step) && step.FbRelease?
    ensures var f, after := TopFrame(th), DoThread(sh, t, th, step).0.cells;
            && Touches(sh.cells, after, Some(f.c)) && f.c in sh.cells
            && SameWords(sh.cells[f.c].(counted := after[f.c].counted), after[f.c])
  {
    hide Unref;
    var f := TopFrame(th);
    var x := sh.cells[f.c];
    var mid := SetCell(sh, f.c, x.(counted := x.counted[f.tok := x.counted[f.tok].(phase := Done)]))
      .(handles := sh.handles - {f.arc});
    UnrefTouches(mid, f.a, sh.heap[f.a].place);
  }

  lemma {:induction false} DropTouches(sh: Shared, t: Tid, th: Thread, step: SnapCell.Step)
    requires CanThread(sh, t, th, step) && (step.DropOne? || step.DropHandle?)
    ensures Touches(sh.cells, DoThread(sh, t, th, step).0.cells, None)
  {
    hide Unref, Touches;
    if step.DropOne? {
      UnrefTouches(sh, TopFrame(th).rest[0], Loose);
    } else {
      var a := sh.handles[step.tok].addr;
      UnrefTouches(sh.(handles := sh.handles - {step.tok}), a, sh.heap[a].place);
    }
  }

  lemma {:induction false} NamedTouches(sh: Shared, t: Tid, th: Thread, step: SnapCell.Step)
    requires CanThread(sh, t, th, step) && OnNamed(step)
    ensures Touches(sh.cells, DoThread(sh, t, th, step).0.cells, Some(step.c))
  {
    hide Touches;
    OneCell(sh.cells, step.c, DoThread(sh, t, th, step).0.cells[step.c]);
  }

  lemma {:induction false} RestTouches(sh: Shared, t: Tid, th: Thread, step: SnapCell.Step)
    requires CanThread(sh, t, th, step) && !OnCall(step) && !OnOp(step) && !OnFrame(step) && !OnNamed(step)
    requires !step.DropOne? && !step.DropHandle?
    ensures DoThread(sh, t, th, step).0.cells == sh.cells
  {
  }

  /** A step changes at most the cell it works on. */
  lemma {:induction false} ThreadTouches(sh: Shared, t: Tid, th: Thread, step: SnapCell.Step)
    requires CanThread(sh, t, th, step)
    ensures Touches(sh.cells, DoThread(sh, t, th, step).0.cells, WorksOn(sh, t, th, step))
    ensures WorksOn(sh, t, th, step).Some? ==> WorksOn(sh, t, th, step).value in DoThread(sh, t, th, step).0.cells
  {
    hide CanThread, DoThread;
    if OnCall(step) {
      CallTouches(sh, t, th, step);
    } else if OnOp(step) {
      OpTouches(sh, t, th, step);
    } else if step.FbRelease? {
      ReleaseTouches(sh, t, th, step);
    } else if OnFrame(step) {
      FrameTouches(sh, t, th, step);
    } else if OnNamed(step) {
      NamedTouches(sh, t, th, step);
    } else if step.DropOne? || step.DropHandle? {
      DropTouches(sh, t, th, step);
    } else {
      RestTouches(sh, t, th, step);
      NoCell(sh.cells);
    }
  }
}
