/** Everything a thread begins it can bring to an end.  A call of `read` or `load_arc_if` can get its list, through
    the acquisition of a record, the protect loop or the fallback; and from any point outside a wait a thread can
    return from all it is inside. */
module SnapEnds {
  import opened HandlerList
  import opened HazardDomain
  import opened SnapCell
  import opened SnapInvariant
  import opened SnapQuiet
  import opened SnapSafety
  import opened SnapWait
  import opened SnapWalks
  import opened SnapReads
  import opened SnapProgress
  import opened SnapMutex
  import opened SnapUnwind

  // ----- how far a call is ----------------------------------------------------------------------------------

  /** What is left of a call once it has a slot or gives up having one. */
  function CallStages(sh: Shared, op: Op): nat
    requires InCall(op)
  {
    var current := op.call.c in sh.cells && (op.Validating? || op.Announcing?) && op.p == sh.cells[op.call.c].current;
    match op
    case Loading(_) => 11
    case Pinning(_, _) => 10
    case Announcing(_, _, _) => if current then 7 else 9
    case Validating(_, _, _) => if current then 6 else 8
    case Cloning(_, _, _, _) => 5
    case Counting(_) => 4
    case FbLocking(_, _) => 3
    case FbCloning(_, _) => 2
    case FbUnlocking(_, _, _, _, _) => 1
  }

  /** What is left of the acquisition of a record. */
  function PinStages(d: Domain, t: Tid): nat {
    if t !in d.locals then 0
    else
      var l := d.locals[t];
      match l.acq
      case Resting => if l.record == NULL then 5 else 0
      case Entering => 4
      case Walking(_) => 3
      case Pushing(_, expected) => if expected == d.head then 1 else 2
      case Clearing(_) => 0
  }

  /** A step of a call: it is over, or nearer to its list, or one record further in the search for a free one. */
  ghost predicate CallNears(sh: Shared, t: Tid, op: Op, sh': Shared, op': Op)
    requires InCall(op)
  {
    if !InCall(op') then op'.Idle? || op'.Unpinning?
    else
      || CallStages(sh', op') < CallStages(sh, op)
      || (op.Pinning? && op'.Pinning? && t in sh.dom.locals && t in sh'.dom.locals
          && (|| PinStages(sh'.dom, t) < PinStages(sh.dom, t)
              || (sh.dom.locals[t].acq.Walking? && sh'.dom.locals[t].acq.Walking?)))
  }

  lemma {:induction false} QuietNears(sh: Shared, t: Tid, th: Thread, q: QuietStep)
    requires CanQuiet(sh, t, th, q) && InCall(th.op) && Helps(sh, t, th, Quiet(q)) && th.op.call.c in sh.cells
    ensures CallNears(sh, t, th.op, sh, DoQuiet(sh, t, th, q).op)
  {
  }

  lemma {:induction false} AcquireNears(sh: Shared, t: Tid, th: Thread, step: SnapCell.Step)
    requires CanThread(sh, t, th, step) && th.op.Pinning? && step.Hazards? && Helps(sh, t, th, step)
    requires Inv(sh.dom)
    ensures CallNears(sh, t, th.op, DoThread(sh, t, th, step).0, DoThread(sh, t, th, step).1.op)
  {
    hide CountInv, Active, RecordsInv;
    assert LocalOk(sh.dom.locals[t], t, sh.dom.recs);
  }

  lemma {:induction false} LoudNears(sh: Shared, t: Tid, th: Thread, step: SnapCell.Step)
    requires CanThread(sh, t, th, step) && InCall(th.op) && !step.Quiet? && !step.Hazards?
    ensures CallNears(sh, t, th.op, DoThread(sh, t, th, step).0, DoThread(sh, t, th, step).1.op)
  {
    hide Do, Can, DoQuiet, CanQuiet, Unref, Apply, MoveOut, IsSplit, FreeSlot, SetSlot;
  }

  lemma {:induction false} OnlyPinning(sh: Shared, t: Tid, th: Thread, step: SnapCell.Step)
    requires CanThread(sh, t, th, step) && InCall(th.op) && step.Hazards?
    ensures th.op.Pinning?
  {
    hide Can;
  }

  lemma {:induction false} OpenCall(sh: Shared, t: Tid, n: nat, op: Op)
    requires OpOk(sh, t, n, op) && InCall(op)
    ensures op.call.c in sh.cells
  {
    assert OpenIn(sh.cells, op.call.c);
  }

  lemma {:induction false} StepNears(s: State, t: Tid, step: SnapCell.Step)
    requires StateInv(s) && t in s.threads && InCall(s.threads[t].op)
    requires CanThread(s.sh, t, s.threads[t], step) && Helps(s.sh, t, s.threads[t], step)
    ensures var r := DoThread(s.sh, t, s.threads[t], step); CallNears(s.sh, t, s.threads[t].op, r.0, r.1.op)
  {
    hide StateInv, ThreadOk, Inv, CanThread, DoThread, CanQuiet, DoQuiet, CallNears, InCall, Helps, OpOk, AcqOk;
    var th := s.threads[t];
    EachThread(s, t);
    ThreadOp(s.sh, t, th);
    OpenCall(s.sh, t, |th.frames|, th.op);
    if step.Quiet? {
      QuietOf(s.sh, t, th, step);
      QuietNears(s.sh, t, th, step.q);
    } else if step.Hazards? {
      OnlyPinning(s.sh, t, th, step);
      AcquireNears(s.sh, t, th, step);
    } else {
      LoudNears(s.sh, t, th, step);
    }
  }

  // ----- a call can get its list --------------------------------------------------------------------------------

  ghost function CallLeft(run: seq<State>, t: Tid): nat {
    if run != [] && t in Last(run).threads && InCall(Last(run).threads[t].op)
    then CallStages(Last(run).sh, Last(run).threads[t].op) else 0
  }

  ghost function PinLeft(run: seq<State>, t: Tid): nat {
    if run != [] && t in Last(run).threads && Last(run).threads[t].op.Pinning?
    then PinStages(Last(run).sh.dom, t) else 0
  }

  ghost function ClaimLeft(run: seq<State>, t: Tid): int {
    if run != [] && Walks(Last(run), t, Claimer) then WalkLeft(Last(run), t, Claimer) else 0
  }

  /** If the call waits for the writer lock, the holder gives it back. */
  lemma {:induction false} UnblockCall(run: seq<State>, t: Tid) returns (longer: seq<State>)
    requires IsRun(run) && t in Last(run).threads && InCall(Last(run).threads[t].op)
    ensures Later(run, longer) && t in Last(longer).threads && Last(longer).threads[t] == Last(run).threads[t]
    ensures !Blocked(Last(longer).sh, Last(longer).threads[t].op)
    ensures longer == run || Last(run).threads[t].op.FbLocking?
  {
    hide NextState;
    var s := Last(run);
    var op := s.threads[t].op;
    if Blocked(s.sh, op) {
      var c := op.call.c;
      var u := s.sh.cells[c].lock.tid;
      LockMeansInside(run, |run| - 1, c, u);
      longer := LockComesBack(run, c, u);
    } else {
      longer := run;
    }
  }

  lemma {:induction false} ClaimGoesOn(run: seq<State>, more: seq<State>, t: Tid, step: SnapCell.Step)
    requires IsRun(run) && IsRun(more) && CanStep(Last(run), t, step) && more == run + [DoStep(Last(run), t, step)]
    requires Walks(Last(run), t, Claimer) && Walks(Last(more), t, Claimer)
    ensures 0 <= ClaimLeft(more, t) < ClaimLeft(run, t)
  {
    hide NextState, CanStep, DoStep, WalkLeft, Walks;
    WalkShrinks(more, |run| - 1, t, Claimer, t, step);
  }

  lemma {:induction false} AfterStep(s: State, t: Tid, step: SnapCell.Step)
    requires t in s.threads && CanStep(s, t, step) && CanThread(s.sh, t, s.threads[t], step)
    ensures DoStep(s, t, step).sh == DoThread(s.sh, t, s.threads[t], step).0
  {
    hide DoThread, Do, CanQuiet, CanHazards;
  }

  /** A call can get its list, from any state of any run; all it may need is that the holder of the writer lock
      goes on. */
  lemma {:induction false} CallCanEnd(run: seq<State>, t: Tid) returns (longer: seq<State>)
    requires IsRun(run) && t in Last(run).threads && InCall(Last(run).threads[t].op)
    ensures Later(run, longer) && t in Last(longer).threads && !InCall(Last(longer).threads[t].op)
    ensures Last(longer).threads[t].op.Idle? || Last(longer).threads[t].op.Unpinning?
    decreases CallLeft(run, t), PinLeft(run, t), ClaimLeft(run, t)
  {
    hide NextState, StateInv, CanThread, DoThread, CanStep, DoStep, Blocked, Helps, Finishes, WalkLeft, PinStages;
    var free := UnblockCall(run, t);
    var s := Last(free);
    var step, more := Goes(free, t);
    RunKept(free, |free| - 1);
    StepNears(s, t, step);
    AfterStep(s, t, step);
    longer := more;
    if InCall(Last(more).threads[t].op) {
      if Walks(s, t, Claimer) && Walks(Last(more), t, Claimer) { ClaimGoesOn(free, more, t, step); }
      SameWalking(s.sh.dom, Last(more).sh.dom, t);
      longer := CallCanEnd(more, t);
    }
  }

  lemma {:induction false} SameWalking(d: Domain, e: Domain, t: Tid)
    ensures t in d.locals && t in e.locals && d.locals[t].acq.Walking? && e.locals[t].acq.Walking? ==>
              PinStages(d, t) == PinStages(e, t)
  {
  }

  // ----- and everything else ------------------------------------------------------------------------------------

  lemma {:induction false} TellEnds(sh: Shared, t: Tid, th: Thread, step: SnapCell.Step)
    requires CanThread(sh, t, th, step) && th.op.Telling?
    ensures DoThread(sh, t, th, step).1.op.Idle?
  {
    hide Do, Can, StoreSlot, DoQuiet, Unref, Apply, MoveOut, IsSplit, FreeSlot;
  }

  ghost function SlotsLeft(run: seq<State>, t: Tid): nat {
    if run != [] && t in Last(run).sh.dom.locals && Last(run).sh.dom.locals[t].acq.Clearing?
       && Last(run).sh.dom.locals[t].acq.k <= SLOTS
    then SLOTS - Last(run).sh.dom.locals[t].acq.k else 0
  }

  lemma {:induction false} ExitingStep(sh: Shared, t: Tid, th: Thread, step: SnapCell.Step)
    requires CanThread(sh, t, th, step) && th.op.Exiting?
    ensures t in sh.dom.locals && sh.dom.locals[t].acq.Clearing? && sh.dom.locals[t].acq.k <= SLOTS
    ensures var r := DoThread(sh, t, th, step);
            || r.1.op.Idle?
            || (r.1.op.Exiting? && sh.dom.locals[t].acq.k < SLOTS && t in r.0.dom.locals
                && r.0.dom.locals[t].acq == Clearing(sh.dom.locals[t].acq.k + 1))
  {
    hide StoreSlot, DoQuiet, Unref, Apply, MoveOut, IsSplit, FreeSlot, Active;
  }

  lemma {:induction false} ExitCanEnd(run: seq<State>, t: Tid) returns (longer: seq<State>)
    requires IsRun(run) && t in Last(run).threads && Last(run).threads[t].op.Exiting?
    ensures Later(run, longer) && t in Last(longer).threads && Last(longer).threads[t].op.Idle?
    decreases SlotsLeft(run, t)
  {
    hide NextState, CanThread, DoThread, CanStep, DoStep, Helps, Finishes;
    var s := Last(run);
    var step, more := Goes(run, t);
    ExitingStep(s.sh, t, s.threads[t], step);
    AfterStep(s, t, step);
    longer := more;
    if !Last(more).threads[t].op.Idle? { longer := ExitCanEnd(more, t); }
  }

  /** From any state of any run, a thread that is not inside a wait can return from everything it is inside, at
      whatever point of whatever operation it is. */
  lemma {:induction false} ThreadCanReturn(run: seq<State>, t: Tid) returns (longer: seq<State>)
    requires IsRun(run) && t in Last(run).threads && !InWait(Last(run).threads[t].op)
    ensures Later(run, longer) && Rests(longer, t, [])
  {
    hide NextState, CanThread, DoThread, CanStep, DoStep, Helps, Finishes;
    longer := run;
    if InCall(Last(longer).threads[t].op) { longer := CallCanEnd(longer, t); }
    var s := Last(longer);
    if Exits(s.threads[t].op) {
      longer := FinishOp(longer, t);
    } else if s.threads[t].op.Exiting? {
      longer := ExitCanEnd(longer, t);
    } else if s.threads[t].op.Telling? {
      var step;
      step, longer := Goes(longer, t);
      TellEnds(s.sh, t, s.threads[t], step);
    }
    longer := CanReturn(longer, t, 0);
  }
}
