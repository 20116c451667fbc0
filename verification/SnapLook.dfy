/** What a waiter finds: a round of `wait_for_retired_readers` over one retired list is repeated if and only if
    some load of it returned that list; and with nobody else reading anything retired the wait comes to an end. */
module SnapLook {
  import opened HazardDomain
  import opened SnapCell
  import opened SnapSafety
  import opened SnapLabels
  import opened SnapWait
  import opened SnapWalks
  import opened SnapProgress
  import opened SnapUnwind

  /** Between the states the thread is looking for one retired list, without a break. */
  ghost predicate LooksFrom(run: seq<State>, i: nat, j: nat, t: Tid) {
    i <= j < |run| && forall k :: i <= k <= j ==> t in run[k].threads && run[k].threads[t].op.WaitScan?
  }

  /** The step is a load of a slot of another thread's record, and returns `x`. */
  ghost predicate LookReturns(s: State, l: Label, t: Tid, x: Addr) {
    && l == Did(t, Quiet(OthersSlot)) && t in s.threads && s.threads[t].op.WaitScan? && t in s.sh.dom.locals
    && s.threads[t].op.cursor != s.sh.dom.locals[t].record
    && SlotAt(s.sh.dom, s.threads[t].op.cursor, s.threads[t].op.k).ptr == x
  }

  /** What a step of the search does: it looks for the same list, and has hit it if it had or this load did. */
  ghost predicate LookNext(s: State, l: Label, s': State, t: Tid)
    requires t in s.threads && s.threads[t].op.WaitScan? && t in s'.threads && s'.threads[t].op.WaitScan?
  {
    var op, op' := s.threads[t].op, s'.threads[t].op;
    && op'.w == op.w && op'.todo == op.todo
    && (op.todo != [] ==> op'.hit == (op.hit || LookReturns(s, l, t, op.todo[0])))
  }

  lemma {:induction false} QuietLook(s: State, l: Label, s': State, t: Tid)
    requires LabelOk(s, l, s') && l.Did? && l.t == t && l.step.Quiet? && t in s.threads && s.threads[t].op.WaitScan?
    requires t in s'.threads && s'.threads[t].op.WaitScan?
    ensures LookNext(s, l, s', t)
  {
  }

  lemma {:induction false} NextLook(s: State, l: Label, s': State, t: Tid)
    requires LabelOk(s, l, s') && t in s.threads && s.threads[t].op.WaitScan?
    requires t in s'.threads && s'.threads[t].op.WaitScan?
    ensures LookNext(s, l, s', t)
  {
    hide CanThread, DoThread, Do, Can;
    if l.Did? && l.t == t && !l.step.Spawn? && !l.step.CloseCell? {
      LoudWaiter(s.sh, t, s.threads[t], l.step);
      QuietLook(s, l, s', t);
    }
  }

  /** Some load between these states returned `x`. */
  ghost predicate HasSeen(run: seq<State>, labels: seq<Label>, i: nat, j: nat, t: Tid, x: Addr)
    requires j < |run| && j <= |labels|
  {
    exists k :: i <= k < j && LookReturns(run[k], labels[k], t, x)
  }

  /** The search has hit the list exactly if some load of it returned it. */
  lemma {:induction false} HitIsSeen(run: seq<State>, labels: seq<Label>, i: nat, j: nat, t: Tid)
    requires Labels(run, labels) && LooksFrom(run, i, j, t)
    requires !run[i].threads[t].op.hit && run[i].threads[t].op.todo != []
    ensures run[j].threads[t].op.w == run[i].threads[t].op.w && run[j].threads[t].op.todo == run[i].threads[t].op.todo
    ensures run[j].threads[t].op.hit <==> HasSeen(run, labels, i, j, t, run[i].threads[t].op.todo[0])
  {
    hide LabelOk, LookReturns;
    if i < j {
      HitIsSeen(run, labels, i, j - 1, t);
      LabelAt(run, labels, j - 1);
      NextLook(run[j - 1], labels[j - 1], run[j], t);
    }
  }

  lemma {:induction false} RoundStarts(s: State, l: Label, s': State, t: Tid)
    requires LabelOk(s, l, s') && l == Did(t, Quiet(StartOthers))
    ensures t in s.threads && s.threads[t].op.WaitNext? && s.threads[t].op.todo != [] && t in s'.threads
    ensures var op := s.threads[t].op; s'.threads[t].op == WaitScan(op.w, op.todo, s.sh.dom.head, 0, false)
  {
  }

  lemma {:induction false} RoundEnds(s: State, l: Label, s': State, t: Tid)
    requires LabelOk(s, l, s') && l == Did(t, Quiet(OthersDone))
    ensures t in s.threads && s.threads[t].op.WaitScan? && s.threads[t].op.todo != [] && t in s'.threads
    ensures var op := s.threads[t].op;
            s'.threads[t].op == if op.hit then WaitCheck(op.w) else WaitNext(op.w, op.todo[1..])
  {
  }

  /** A round over the first of the lists still to wait for: the wait starts again if some load of another
      thread's slot returned that list, and is done with it if none did. */
  lemma {:induction false} RoundIsExact(run: seq<State>, labels: seq<Label>, i: nat, j: nat, t: Tid)
    requires Labels(run, labels) && i < j < |labels| && LooksFrom(run, i + 1, j, t)
    requires labels[i] == Did(t, Quiet(StartOthers)) && labels[j] == Did(t, Quiet(OthersDone))
    ensures t in run[i].threads && run[i].threads[t].op.WaitNext? && run[i].threads[t].op.todo != []
    ensures t in run[j + 1].threads
    ensures var op := run[i].threads[t].op;
            run[j + 1].threads[t].op
            == if HasSeen(run, labels, i + 1, j, t, op.todo[0]) then WaitCheck(op.w) else WaitNext(op.w, op.todo[1..])
  {
    hide LabelOk, LookReturns, HasSeen;
    LabelAt(run, labels, i);
    LabelAt(run, labels, j);
    RoundStarts(run[i], labels[i], run[i + 1], t);
    HitIsSeen(run, labels, i + 1, j, t);
    RoundEnds(run[j], labels[j], run[j + 1], t);
  }

  // ----- the wait ends ------------------------------------------------------------------------------------------

  /** Nothing a waiter waits for is there: the lock is free, no fallback read of the cell is in progress (or the
      caller is inside one), and no slot of another thread holds a retired list of the cell. */
  ghost predicate NobodyReads(sh: Shared, t: Tid, w: Waiter) {
    && w.c in sh.cells && t in sh.dom.locals && sh.cells[w.c].lock.Nobody?
    && (w.onFallback || sh.cells[w.c].fallbackReaders == 0)
    && forall r, k :: r != sh.dom.locals[t].record ==> SlotAt(sh.dom, r, k).ptr !in sh.cells[w.c].retired
  }

  /** The waiter looks only for lists retired now, and has met none. */
  predicate Clean(op: Op, retired: seq<Addr>) {
    || op.WaitCheck? || op.WaitCopy?
    || ((op.WaitNext? || op.WaitScan?) && (forall a :: a in op.todo ==> a in retired) && (op.WaitScan? ==> !op.hit))
  }

  function WaitStages(op: Op): nat { if op.WaitCheck? then 2 else if op.WaitCopy? then 1 else 0 }

  function RoundsLeft(op: Op): nat {
    if op.WaitNext? then 2 * |op.todo| + 1 else if op.WaitScan? then 2 * |op.todo| else 0
  }

  /** One step of the wait: it is over, or closer to its end, or one step further in the same round; only a waiter
      that is not clean may have to start again. */
  ghost predicate WaitGoesOn(op: Op, op': Op, retired: seq<Addr>, clean: bool)
    requires InWait(op)
  {
    || op'.Idle?
    || (InWait(op') && op'.w == op.w && (clean ==> Clean(op', retired))
        && (|| WaitStages(op') < WaitStages(op)
            || (WaitStages(op') == WaitStages(op) && RoundsLeft(op') < RoundsLeft(op))
            || (op.WaitScan? && op'.WaitScan? && RoundsLeft(op') == RoundsLeft(op))
            || (!clean && op'.WaitCheck?)))
  }

  lemma {:induction false} QuietWait(sh: Shared, t: Tid, th: Thread, q: QuietStep, clean: bool)
    requires CanQuiet(sh, t, th, q) && InWait(th.op) && NobodyReads(sh, t, th.op.w)
    requires clean ==> Clean(th.op, sh.cells[th.op.w.c].retired)
    ensures WaitGoesOn(th.op, DoQuiet(sh, t, th, q).op, sh.cells[th.op.w.c].retired, clean)
    ensures DoQuiet(sh, t, th, q).frames == th.frames
  {
  }

  ghost function OpOf(run: seq<State>, t: Tid): Op {
    if run != [] && t in Last(run).threads then Last(run).threads[t].op else Idle
  }

  ghost function LookLeft(run: seq<State>, t: Tid): int {
    if run != [] && Walks(Last(run), t, Looker) then WalkLeft(Last(run), t, Looker) else 0
  }

  lemma {:induction false} LookGoesOn(run: seq<State>, more: seq<State>, t: Tid, step: SnapCell.Step)
    requires IsRun(run) && IsRun(more) && CanStep(Last(run), t, step) && more == run + [DoStep(Last(run), t, step)]
    requires t in Last(run).threads && t in Last(run).sh.dom.locals && Last(run).threads[t].op.WaitScan?
    requires t in Last(more).threads && t in Last(more).sh.dom.locals && Last(more).threads[t].op.WaitScan?
    ensures 0 <= LookLeft(more, t) < LookLeft(run, t)
  {
    hide NextState, CanStep, DoStep, WalkLeft;
    WalkShrinks(more, |run| - 1, t, Looker, t, step);
  }

  lemma {:induction false} NotHeldUp(sh: Shared, t: Tid, op: Op)
    requires InWait(op) && NobodyReads(sh, t, op.w)
    ensures !Blocked(sh, op) && !op.Idle?
  {
  }

  lemma {:induction false} ReturnsFrom(run: seq<State>, t: Tid, clean: bool) returns (longer: seq<State>)
    requires IsRun(run) && t in Last(run).threads && InWait(Last(run).threads[t].op)
    requires NobodyReads(Last(run).sh, t, Last(run).threads[t].op.w)
    requires clean ==>
               Clean(Last(run).threads[t].op, Last(run).sh.cells[Last(run).threads[t].op.w.c].retired)
    ensures Later(run, longer) && Rests(longer, t, Last(run).threads[t].frames) && Last(longer).sh == Last(run).sh
    decreases !clean, WaitStages(OpOf(run, t)), RoundsLeft(OpOf(run, t)), LookLeft(run, t)
  {
    hide NextState, CanThread, DoThread, CanStep, CanQuiet, DoQuiet, NobodyReads, Blocked, Clean, WalkLeft;
    var sh, th := Last(run).sh, Last(run).threads[t];
    NotHeldUp(sh, t, th.op);
    var step, more := Goes(run, t);
    LoudWaiter(sh, t, th, step);
    QuietOf(sh, t, th, step);
    SameShared(Last(run), t, step);
    Parts(sh, t, th.op.w);
    QuietWait(sh, t, th, step.q, clean);
    var op' := Last(more).threads[t].op;
    if op'.Idle? {
      longer := more;
    } else {
      if th.op.WaitScan? && op'.WaitScan? { LookGoesOn(run, more, t, step); }
      FreshCheck(op', sh.cells[th.op.w.c].retired);
      longer := ReturnsFrom(more, t, clean || op'.WaitCheck?);
    }
  }

  lemma {:induction false} SameShared(s: State, t: Tid, step: SnapCell.Step)
    requires t in s.threads && CanThread(s.sh, t, s.threads[t], step) && step.Quiet? && CanStep(s, t, step)
    ensures DoStep(s, t, step).sh == s.sh
  {
    hide CanQuiet, DoQuiet;
  }

  lemma {:induction false} Parts(sh: Shared, t: Tid, w: Waiter)
    requires NobodyReads(sh, t, w)
    ensures w.c in sh.cells && t in sh.dom.locals
  {
  }

  lemma {:induction false} FreshCheck(op: Op, retired: seq<Addr>)
    ensures op.WaitCheck? ==> Clean(op, retired)
  {
  }

  /** The wait comes to an end: from any state of any run in which nobody else reads anything retired, the waiter's
      own steps lead out of it, back to where it was called from. */
  lemma {:induction false} WaitComesToAnEnd(run: seq<State>, t: Tid) returns (longer: seq<State>)
    requires IsRun(run) && t in Last(run).threads && InWait(Last(run).threads[t].op)
    requires NobodyReads(Last(run).sh, t, Last(run).threads[t].op.w)
    ensures Later(run, longer) && Rests(longer, t, Last(run).threads[t].frames) && Last(longer).sh == Last(run).sh
  {
    hide IsRun, NobodyReads, InWait;
    longer := ReturnsFrom(run, t, false);
  }
}
