/** A thread between operations can always return from everything it is inside.  Its dispatches can call the
    handlers they still have, its reads can be left and reclaimed after, its one-shot handlers can be removed;
    all it may need is that the holder of a writer lock goes on. */
module SnapUnwind {
  import opened HandlerList
  import opened HazardDomain
  import opened SnapCell
  import opened SnapInvariant
  import opened SnapUser
  import opened SnapSafety
  import opened SnapWait
  import opened SnapWalks
  import opened SnapProgress
  import opened SnapMutex
  import opened SnapDispatch

  ghost function Last(run: seq<State>): State
    requires run != []
  {
    run[|run| - 1]
  }

  /** The thread is there, between operations, with these frames. */
  ghost predicate Rests(run: seq<State>, t: Tid, frames: seq<Frame>) {
    run != [] && t in Last(run).threads && Last(run).threads[t].op.Idle? && Last(run).threads[t].frames == frames
  }

  /** The run goes on. */
  ghost predicate Later(run: seq<State>, longer: seq<State>) { IsRun(longer) && run <= longer }

  lemma {:induction false} OwnStep(s: State, t: Tid, step: SnapCell.Step)
    requires t in s.threads && CanStep(s, t, step) && CanThread(s.sh, t, s.threads[t], step)
    ensures t in DoStep(s, t, step).threads
    ensures DoStep(s, t, step).threads[t] == DoThread(s.sh, t, s.threads[t], step).1
  {
    hide DoThread, Do, CanQuiet, CanHazards;
  }

  /** One more step of the thread. */
  lemma {:induction false} Goes(run: seq<State>, t: Tid) returns (step: SnapCell.Step, longer: seq<State>)
    requires IsRun(run) && t in Last(run).threads && !Blocked(Last(run).sh, Last(run).threads[t].op)
    requires !Last(run).threads[t].op.Idle? || Last(run).threads[t].frames != []
    ensures var sh, th := Last(run).sh, Last(run).threads[t];
            && CanStep(Last(run), t, step) && CanThread(sh, t, th, step)
            && (th.op.Idle? ==> Finishes(TopFrame(th), step)) && Helps(sh, t, th, step)
            && longer == run + [DoStep(Last(run), t, step)]
            && t in Last(longer).threads && Last(longer).threads[t] == DoThread(sh, t, th, step).1
    ensures Later(run, longer)
  {
    hide NextState, CanThread, DoThread, Blocked, Finishes, Helps, CanStep, DoStep;
    step := NoThreadIsStuck(run, |run| - 1, t);
    OwnStep(Last(run), t, step);
    longer := run + [DoStep(Last(run), t, step)];
    Extended(run, t, step);
  }

  // ----- out of a read, out of a removal ------------------------------------------------------------------

  /** What is left of a read's `release`, or of a write. */
  predicate Exits(op: Op) {
    op.Unpinning? || op.Checking? || op.TryLocking? || op.Locking? || op.Writing? || op.ScanStart? || op.Scanning?
    || op.Storing? || op.Unlocking?
  }

  function ExitStages(op: Op): nat {
    if op.Unpinning? then 9 else if op.Checking? then 8 else if op.TryLocking? then 7 else if op.Locking? then 6
    else StagesLeft(op)
  }

  /** A step nearer to the end, or the end, with the lists to be dropped on top. */
  ghost predicate ExitNext(th: Thread, th': Thread) {
    || (th'.frames == th.frames && Exits(th'.op)
        && (ExitStages(th'.op) < ExitStages(th.op) || (th.op.Scanning? && th'.op.Scanning?)))
    || (th'.op.Idle? && th'.frames == th.frames)
    || (th'.op.Idle? && th.op.Unlocking? && th'.frames == th.frames + [Dropping(th.op.freed)])
  }

  lemma {:induction false} ExitQuiet(sh: Shared, t: Tid, th: Thread, q: QuietStep)
    requires CanQuiet(sh, t, th, q) && Exits(th.op)
    ensures ExitNext(th, DoQuiet(sh, t, th, q))
  {
  }

  lemma {:induction false} ExitLoud(sh: Shared, t: Tid, th: Thread, step: SnapCell.Step)
    requires CanThread(sh, t, th, step) && Exits(th.op) && !step.Quiet?
    ensures ExitNext(th, DoThread(sh, t, th, step).1)
  {
    hide Do, Can, Unref, Apply, IsSplit, MoveOut, StoreSlot, CanQuiet, DoQuiet;
  }

  lemma {:induction false} ExitStep(sh: Shared, t: Tid, th: Thread, step: SnapCell.Step)
    requires CanThread(sh, t, th, step) && Exits(th.op)
    ensures ExitNext(th, DoThread(sh, t, th, step).1)
  {
    hide CanThread, DoThread, CanQuiet, DoQuiet, ExitNext;
    if step.Quiet? {
      QuietOf(sh, t, th, step);
      ExitQuiet(sh, t, th, step.q);
    } else {
      ExitLoud(sh, t, th, step);
    }
  }

  /** If the thread waits for a writer lock, the holder gives it back. */
  lemma {:induction false} Unblock(run: seq<State>, t: Tid) returns (longer: seq<State>)
    requires IsRun(run) && t in Last(run).threads && Exits(Last(run).threads[t].op)
    ensures Later(run, longer) && t in Last(longer).threads && Last(longer).threads[t] == Last(run).threads[t]
    ensures !Blocked(Last(longer).sh, Last(longer).threads[t].op)
    ensures longer == run || Last(run).threads[t].op.Locking?
  {
    hide NextState;
    var s := Last(run);
    var op := s.threads[t].op;
    if Blocked(s.sh, op) {
      var c := op.c;
      var u := s.sh.cells[c].lock.tid;
      LockMeansInside(run, |run| - 1, c, u);
      longer := LockComesBack(run, c, u);
    } else {
      longer := run;
    }
  }

  lemma {:induction false} ScanGoesOn(run: seq<State>, t: Tid, step: SnapCell.Step)
    requires IsRun(run) && |run| > 1 && CanStep(run[|run| - 2], t, step) && Last(run) == DoStep(run[|run| - 2], t, step)
    requires t in run[|run| - 2].threads && run[|run| - 2].threads[t].op.Scanning?
    requires t in Last(run).threads && Last(run).threads[t].op.Scanning?
    ensures 0 <= ScanLeft(Last(run), t) < ScanLeft(run[|run| - 2], t)
  {
    hide NextState, StateInv, CanStep, DoStep, WalkLeft, Walks;
    var j := |run| - 2;
    RunKept(run, j);
    RunKept(run, j + 1);
    ScansOn(run[j], t);
    ScansOn(run[j + 1], t);
    WalkShrinks(run, j, t, Scanner, t, step);
  }

  ghost function ExitOf(run: seq<State>, t: Tid): nat {
    if run != [] && t in Last(run).threads then ExitStages(Last(run).threads[t].op) else 0
  }

  /** The thread comes to the end of the operation; there may be lists to drop. */
  lemma {:induction false} RunExit(run: seq<State>, t: Tid) returns (longer: seq<State>, freed: seq<Addr>)
    requires IsRun(run) && t in Last(run).threads && Exits(Last(run).threads[t].op)
    ensures Later(run, longer)
    ensures var frames := Last(run).threads[t].frames;
            Rests(longer, t, frames) || Rests(longer, t, frames + [Dropping(freed)])
    decreases ExitOf(run, t), ScanOf(run, t)
  {
    hide NextState, CanThread, DoThread, CanStep, DoStep, Blocked, ScanLeft, StagesLeft, Finishes;
    var free := Unblock(run, t);
    var th := Last(free).threads[t];
    var step, more := Goes(free, t);
    ExitStep(Last(free).sh, t, th, step);
    var th' := Last(more).threads[t];
    if th'.op.Idle? {
      longer, freed := more, if th.op.Unlocking? then th.op.freed else [];
    } else {
      if th.op.Scanning? && th'.op.Scanning? {
        assert more[|more| - 2] == Last(free);
        ScanGoesOn(more, t, step);
        SameStages(th.op, th'.op);
      }
      longer, freed := RunExit(more, t);
    }
  }

  // ----- one frame after the other ---------------------------------------------------------------------------

  lemma {:induction false} DropEnds(sh: Shared, t: Tid, th: Thread, step: SnapCell.Step)
    requires CanThread(sh, t, th, step) && step.DropOne?
    ensures var rest, n, th' := TopFrame(th).rest, |th.frames| - 1, DoThread(sh, t, th, step).1;
            && th'.op.Idle? && rest != []
            && th'.frames == if |rest| == 1 then th.frames[..n] else th.frames[..n] + [Dropping(rest[1..])]
  {
    hide Unref;
  }

  lemma {:induction false} FinishDropping(run: seq<State>, t: Tid, frames: seq<Frame>, rest: seq<Addr>)
    returns (longer: seq<State>)
    requires IsRun(run) && Rests(run, t, frames + [Dropping(rest)])
    ensures Later(run, longer) && Rests(longer, t, frames)
    decreases |rest|
  {
    hide NextState, CanThread, DoThread, CanStep, DoStep;
    var th := Last(run).threads[t];
    var step;
    step, longer := Goes(run, t);
    DropEnds(Last(run).sh, t, th, step);
    assert th.frames[..|th.frames| - 1] == frames;
    if |rest| != 1 { longer := FinishDropping(longer, t, frames, rest[1..]); }
  }

  /** Out of the operation and of what it leaves to drop. */
  lemma {:induction false} FinishOp(run: seq<State>, t: Tid) returns (longer: seq<State>)
    requires IsRun(run) && t in Last(run).threads && Exits(Last(run).threads[t].op)
    ensures Later(run, longer) && Rests(longer, t, Last(run).threads[t].frames)
  {
    hide NextState, Exits;
    var freed;
    longer, freed := RunExit(run, t);
    var frames := Last(run).threads[t].frames;
    if !Rests(longer, t, frames) { longer := FinishDropping(longer, t, frames, freed); }
  }

  /** Frames one step ends, or one step and an operation. */
  predicate Ends(f: Frame) { f.Leaving? || f.Handler? || f.Callback? || f.Body? }

  lemma {:induction false} FrameEnds(sh: Shared, t: Tid, th: Thread, step: SnapCell.Step)
    requires CanThread(sh, t, th, step) && Top(th) && Ends(TopFrame(th)) && Finishes(TopFrame(th), step)
    ensures var th' := DoThread(sh, t, th, step).1;
            th'.frames == th.frames[..|th.frames| - 1] && (th'.op.Idle? || th'.op.Locking?)
  {
  }

  lemma {:induction false} FinishFrame(run: seq<State>, t: Tid, frames: seq<Frame>, f: Frame)
    returns (longer: seq<State>)
    requires IsRun(run) && Rests(run, t, frames + [f]) && (Ends(f) || f.Dropping?)
    ensures Later(run, longer) && Rests(longer, t, frames)
  {
    hide NextState, CanThread, DoThread, CanStep, DoStep, Finishes;
    if f.Dropping? {
      longer := FinishDropping(run, t, frames, f.rest);
    } else {
      var th := Last(run).threads[t];
      var step;
      step, longer := Goes(run, t);
      FrameEnds(Last(run).sh, t, th, step);
      assert th.frames[..|th.frames| - 1] == frames;
      if !Last(longer).threads[t].op.Idle? { longer := FinishOp(longer, t); }
    }
  }

  /** A dispatch that has called its next handler. */
  ghost predicate HasCalled(frames: seq<Frame>, f: Frame, frames': seq<Frame>) {
    && IsRead(f) && f.next < |f.seen|
    && var called := frames + [f.(next := f.next + 1), Handler(f.c, f.seen[f.next].id)];
       frames' == called || frames' == called + [Body(f.c, f.seen[f.next].id)]
  }

  lemma {:induction false} CallShape(s: State, t: Tid, step: SnapCell.Step, frames: seq<Frame>, f: Frame)
    requires StateInv(s) && t in s.threads && CanThread(s.sh, t, s.threads[t], step) && step.CallHandler?
    requires s.threads[t].frames == frames + [f]
    ensures var th' := DoThread(s.sh, t, s.threads[t], step).1; th'.op.Idle? && HasCalled(frames, f, th'.frames)
  {
    hide StateInv;
    TopSees(s, t, step);
  }

  /** The next handler of a dispatch is called. */
  lemma {:induction false} CallsNext(run: seq<State>, t: Tid, frames: seq<Frame>, f: Frame) returns (longer: seq<State>)
    requires IsRun(run) && Rests(run, t, frames + [f]) && IsRead(f) && !Complete(f)
    ensures Later(run, longer) && t in Last(longer).threads && HasCalled(frames, f, Last(longer).threads[t].frames)
    ensures Rests(longer, t, Last(longer).threads[t].frames)
  {
    hide NextState, StateInv, CanThread, DoThread, CanStep, DoStep, HasCalled;
    var step;
    step, longer := Goes(run, t);
    RunKept(run, |run| - 1);
    CallShape(Last(run), t, step, frames, f);
  }

  /** It returns. */
  lemma {:induction false} HandlerReturns(run: seq<State>, t: Tid, frames: seq<Frame>, f: Frame)
    returns (longer: seq<State>)
    requires IsRun(run) && t in Last(run).threads && HasCalled(frames, f, Last(run).threads[t].frames)
    requires Rests(run, t, Last(run).threads[t].frames)
    ensures Later(run, longer) && Rests(longer, t, frames + [f.(next := f.next + 1)])
  {
    hide NextState;
    var now := Last(run).threads[t].frames;
    var called, body := Handler(f.c, f.seen[f.next].id), Body(f.c, f.seen[f.next].id);
    var below := frames + [f.(next := f.next + 1)];
    assert below + [called] == frames + [f.(next := f.next + 1), called];
    longer := run;
    if now != below + [called] { longer := FinishFrame(run, t, below + [called], body); }
    longer := FinishFrame(longer, t, below, called);
  }

  lemma {:induction false} LeaveRead(sh: Shared, t: Tid, th: Thread, step: SnapCell.Step, frames: seq<Frame>, f: Frame)
    requires CanThread(sh, t, th, step) && th.op.Idle? && th.frames == frames + [f]
    requires IsRead(f) && Complete(f) && Finishes(f, step)
    ensures var th' := DoThread(sh, t, th, step).1;
            if f.Hazard? then th'.frames == frames && th'.op.Unpinning?
            else th'.op.Idle? && th'.frames == frames + [Leaving(f.c, f.tok)]
  {
    hide Unref;
  }

  lemma {:induction false} FinishRead(run: seq<State>, t: Tid, frames: seq<Frame>, f: Frame)
    returns (longer: seq<State>)
    requires IsRun(run) && Rests(run, t, frames + [f]) && IsRead(f)
    ensures Later(run, longer) && Rests(longer, t, frames)
    decreases |f.seen| - f.next
  {
    hide NextState, StateInv, CanThread, DoThread, CanStep, DoStep, Finishes, HasCalled;
    if Complete(f) {
      var step;
      step, longer := Goes(run, t);
      LeaveRead(Last(run).sh, t, Last(run).threads[t], step, frames, f);
      if f.Hazard? {
        longer := FinishOp(longer, t);
      } else {
        longer := FinishFrame(longer, t, frames, Leaving(f.c, f.tok));
      }
    } else {
      longer := CallsNext(run, t, frames, f);
      StillToCall(frames, f, Last(longer).threads[t].frames);
      longer := HandlerReturns(longer, t, frames, f);
      longer := FinishRead(longer, t, frames, f.(next := f.next + 1));
    }
  }

  lemma {:induction false} StillToCall(frames: seq<Frame>, f: Frame, frames': seq<Frame>)
    requires HasCalled(frames, f, frames')
    ensures IsRead(f) && f.next < |f.seen|
  {
  }

  /** From any state of any run, a thread between operations can return from what is above frame `n` of its
      stack, down to nothing at all. */
  lemma {:induction false} CanReturn(run: seq<State>, t: Tid, n: nat) returns (longer: seq<State>)
    requires IsRun(run) && t in Last(run).threads && Last(run).threads[t].op.Idle?
    requires n <= |Last(run).threads[t].frames|
    ensures Later(run, longer) && Rests(longer, t, Last(run).threads[t].frames[..n])
    decreases |Last(run).threads[t].frames|
  {
    hide NextState;
    var frames := Last(run).threads[t].frames;
    var m := |frames| - 1;
    if n == |frames| {
      longer := run;
      assert frames[..n] == frames;
    } else {
      assert frames == frames[..m] + [frames[m]];
      if IsRead(frames[m]) {
        longer := FinishRead(run, t, frames[..m], frames[m]);
      } else {
        longer := FinishFrame(run, t, frames[..m], frames[m]);
      }
      longer := CanReturn(longer, t, n);
      assert frames[..m][..n] == frames[..n];
    }
  }
}
