/** The writer lock is always given back.  Whoever holds it is inside a step-by-step critical section that
    waits for nothing, and its own steps end the section whatever the other threads do meanwhile. */
module SnapMutex {
  import opened HandlerList
  import opened HazardDomain
  import opened SnapCell
  import opened SnapInvariant
  import opened SnapQuiet
  import opened SnapSafety
  import opened SnapTouch
  import opened SnapWait
  import opened SnapWalks
  import opened SnapProgress

  /** The critical sections of the writer lock of `c`: a write, a read's `try_reclaim`, a fallback reader's clone. */
  predicate HoldsLock(op: Op, c: Cid) {
    || ((op.Writing? || op.ScanStart? || op.Scanning? || op.Storing? || op.Unlocking?) && op.c == c)
    || ((op.FbCloning? || op.FbUnlocking?) && op.call.c == c)
  }

  /** A lock that is taken is held by a thread inside a critical section of it. */
  ghost predicate HolderInside(s: State, c: Cid) {
    c in s.sh.cells && s.sh.cells[c].lock.By? ==>
      var t := s.sh.cells[c].lock.tid; t in s.threads && HoldsLock(s.threads[t].op, c)
  }

  // ----- one step -------------------------------------------------------------------------------

  predicate Unlocks(step: SnapCell.Step) { step.Unlock? || step.FbUnlock? }

  /** A step inside the critical section stays inside, unless it is the unlock. */
  lemma {:induction false} HolderSteps(sh: Shared, t: Tid, th: Thread, step: SnapCell.Step, c: Cid)
    requires CanThread(sh, t, th, step) && HoldsLock(th.op, c)
    ensures !Unlocks(step) ==> HoldsLock(DoThread(sh, t, th, step).1.op, c)
    ensures Unlocks(step) ==> WorksOn(sh, t, th, step) == Some(c)
  {
    hide Do, Can, Unref, Apply, IsSplit, MoveOut;
  }

  lemma {:induction false} UnlockFrees(sh: Shared, t: Tid, th: Thread, step: SnapCell.Step, c: Cid)
    requires CanThread(sh, t, th, step) && Unlocks(step) && WorksOn(sh, t, th, step) == Some(c)
    ensures c in DoThread(sh, t, th, step).0.cells && DoThread(sh, t, th, step).0.cells[c].lock.Nobody?
  {
  }

  /** How a step may change the lock of the cell it works on. */
  ghost predicate LockNext(sh: Shared, t: Tid, th: Thread, step: SnapCell.Step, c: Cid)
    requires CanThread(sh, t, th, step)
  {
    var r := DoThread(sh, t, th, step);
    c in r.0.cells ==>
      var l := r.0.cells[c].lock;
      || (c in sh.cells && l == sh.cells[c].lock)
      || (c in sh.cells && sh.cells[c].lock.Nobody? && l == By(t) && HoldsLock(r.1.op, c))
      || (l.Nobody? && (c in sh.cells ==> Unlocks(step)))
  }

  lemma {:induction false} CallLocks(sh: Shared, t: Tid, th: Thread, step: SnapCell.Step)
    requires CanThread(sh, t, th, step) && OnCall(step)
    ensures LockNext(sh, t, th, step, th.op.call.c)
  {
  }

  lemma {:induction false} OpLocks(sh: Shared, t: Tid, th: Thread, step: SnapCell.Step)
    requires CanThread(sh, t, th, step) && OnOp(step)
    ensures LockNext(sh, t, th, step, th.op.c)
  {
    hide Apply, IsSplit, MoveOut;
  }

  lemma {:induction false} FrameLocks(sh: Shared, t: Tid, th: Thread, step: SnapCell.Step)
    requires CanThread(sh, t, th, step) && OnFrame(step) && !step.FbRelease?
    ensures LockNext(sh, t, th, step, TopFrame(th).c)
  {
  }

  lemma {:induction false} NamedLocks(sh: Shared, t: Tid, th: Thread, step: SnapCell.Step)
    requires CanThread(sh, t, th, step) && OnNamed(step)
    ensures LockNext(sh, t, th, step, step.c)
  {
  }

  lemma {:induction false} ThreadLocks(sh: Shared, t: Tid, th: Thread, step: SnapCell.Step, c: Cid)
    requires CanThread(sh, t, th, step)
    ensures LockNext(sh, t, th, step, c)
    ensures c in sh.cells ==> c in DoThread(sh, t, th, step).0.cells
  {
    hide CanThread, DoThread, HoldsLock;
    ThreadTouches(sh, t, th, step);
    if WorksOn(sh, t, th, step) == Some(c) {
      if OnCall(step) {
        CallLocks(sh, t, th, step);
      } else if OnOp(step) {
        OpLocks(sh, t, th, step);
      } else if step.FbRelease? {
        ReleaseTouches(sh, t, th, step);
      } else if OnFrame(step) {
        FrameLocks(sh, t, th, step);
      } else {
        NamedLocks(sh, t, th, step);
      }
    }
  }

  lemma {:induction false} NextHolder(s: State, s': State, c: Cid)
    requires NextState(s, s') && HolderInside(s, c)
    ensures HolderInside(s', c)
  {
    hide CanThread, DoThread, Do, Can, HoldsLock;
    if s' != s {
      var t, step :| CanStep(s, t, step) && s' == DoStep(s, t, step);
      if !step.Spawn? && !step.CloseCell? {
        var th := s.threads[t];
        ThreadLocks(s.sh, t, th, step, c);
        if HoldsLock(th.op, c) {
          HolderSteps(s.sh, t, th, step, c);
          if Unlocks(step) { UnlockFrees(s.sh, t, th, step, c); }
        }
      } else {
        IdleHolds(c);
      }
    }
  }

  lemma {:induction false} IdleHolds(c: Cid)
    ensures !HoldsLock(Idle, c)
  {
  }

  lemma {:induction false} RunHolder(run: seq<State>, j: nat, c: Cid)
    requires IsRun(run) && j < |run|
    ensures HolderInside(run[j], c)
  {
    hide NextState;
    if j > 0 {
      RunHolder(run, j - 1, c);
      assert NextState(run[j - 1], run[j - 1 + 1]);
      NextHolder(run[j - 1], run[j], c);
    }
  }

  lemma {:induction false} InsideHolds(sh: Shared, t: Tid, th: Thread, c: Cid)
    requires ThreadOk(sh, t, th) && HoldsLock(th.op, c)
    ensures c in sh.cells && sh.cells[c].lock == By(t)
  {
    hide CallsOk, PinsOk, TakesOk, OwnsOk, PendingOk, ScanOk, WaitOk, UsesOk;
  }

  /** In every state of every run the lock of a cell is taken if and only if some thread is inside a critical
      section of it; that thread is the holder, and it waits for nothing. */
  lemma {:induction false} LockMeansInside(run: seq<State>, j: nat, c: Cid, t: Tid)
    requires IsRun(run) && j < |run|
    ensures c in run[j].sh.cells && run[j].sh.cells[c].lock == By(t)
            <==> t in run[j].threads && HoldsLock(run[j].threads[t].op, c)
    ensures t in run[j].threads && HoldsLock(run[j].threads[t].op, c) ==> !Blocked(run[j].sh, run[j].threads[t].op)
  {
    hide IsRun, StateInv, ThreadOk, Inv;
    RunHolder(run, j, c);
    if t in run[j].threads && HoldsLock(run[j].threads[t].op, c) {
      RunKept(run, j);
      EachThread(run[j], t);
      InsideHolds(run[j].sh, t, run[j].threads[t], c);
    }
  }

  // ----- the way to the unlock ------------------------------------------------------------------------

  /** How many stages the critical section has left. */
  function StagesLeft(op: Op): nat {
    match op
    case Writing(_, _) => 5
    case ScanStart(_) => 4
    case Scanning(_, _, _, _) => 3
    case Storing(_, _) => 2
    case FbCloning(_, _) => 2
    case Unlocking(_, _) => 1
    case FbUnlocking(_, _, _, _, _) => 1
    case _ => 0
  }

  /** How much of a scan is left. */
  ghost function ScanLeft(s: State, t: Tid): int {
    if Walks(s, t, Scanner) then WalkLeft(s, t, Scanner) else 0
  }

  /** The thread is closer to the unlock in `s'` than in `s`. */
  ghost predicate Closer(s: State, s': State, t: Tid)
    requires t in s.threads && t in s'.threads
  {
    var left, left' := StagesLeft(s.threads[t].op), StagesLeft(s'.threads[t].op);
    left' < left || (left' == left && 0 <= ScanLeft(s', t) < ScanLeft(s, t))
  }

  lemma {:induction false} StagesGoDown(sh: Shared, t: Tid, th: Thread, step: SnapCell.Step, c: Cid)
    requires CanThread(sh, t, th, step) && HoldsLock(th.op, c)
    ensures var op := DoThread(sh, t, th, step).1.op;
            StagesLeft(op) < StagesLeft(th.op) || (th.op.Scanning? && op.Scanning?)
  {
    hide Do, Can, Unref, Apply, IsSplit, MoveOut;
  }

  lemma {:induction false} NextOfHolder(run: seq<State>, j: nat, c: Cid, t: Tid, step: SnapCell.Step)
    requires IsRun(run) && j + 1 < |run| && CanStep(run[j], t, step) && run[j + 1] == DoStep(run[j], t, step)
    requires t in run[j].threads && HoldsLock(run[j].threads[t].op, c)
    ensures t in run[j + 1].threads && Closer(run[j], run[j + 1], t)
    ensures c in run[j + 1].sh.cells
    ensures HoldsLock(run[j + 1].threads[t].op, c) <==> !Unlocks(step)
    ensures Unlocks(step) ==> run[j + 1].sh.cells[c].lock.Nobody?
  {
    hide IsRun, StateInv, ThreadOk, Inv, CanThread, DoThread, WalkLeft, HoldsLock, StagesLeft;
    LockMeansInside(run, j, c, t);
    var sh, th := run[j].sh, run[j].threads[t];
    NotIdle(th.op, c);
    HolderSteps(sh, t, th, step, c);
    ThreadLocks(sh, t, th, step, c);
    StagesGoDown(sh, t, th, step, c);
    if Unlocks(step) {
      UnlockFrees(sh, t, th, step, c);
      LockMeansInside(run, j + 1, c, t);
    }
    if th.op.Scanning? && run[j + 1].threads[t].op.Scanning? {
      RunKept(run, j);
      RunKept(run, j + 1);
      ScansOn(run[j], t);
      ScansOn(run[j + 1], t);
      WalkShrinks(run, j, t, Scanner, t, step);
      SameStages(th.op, run[j + 1].threads[t].op);
    }
  }

  lemma {:induction false} NotIdle(op: Op, c: Cid)
    requires HoldsLock(op, c)
    ensures !op.Idle?
  {
  }

  lemma {:induction false} SameStages(op: Op, op': Op)
    requires op.Scanning? && op'.Scanning?
    ensures StagesLeft(op) == StagesLeft(op')
  {
  }

  lemma {:induction false} ScansOn(s: State, t: Tid)
    requires StateInv(s) && t in s.threads && s.threads[t].op.Scanning?
    ensures Walks(s, t, Scanner)
  {
    hide StateInv, ThreadOk, Inv, OpOk, AcqOk;
    EachThread(s, t);
    ThreadOp(s.sh, t, s.threads[t]);
  }

  /** Every step of the holder brings the unlock closer, and the unlock frees the lock; a step of anybody else
      leaves the lock taken and the holder where it was. */
  lemma {:induction false} HolderGoesOn(run: seq<State>, j: nat, c: Cid, t: Tid, u: Tid, step: SnapCell.Step)
    requires IsRun(run) && j + 1 < |run| && CanStep(run[j], u, step) && run[j + 1] == DoStep(run[j], u, step)
    requires c in run[j].sh.cells && run[j].sh.cells[c].lock == By(t)
    ensures t in run[j].threads && t in run[j + 1].threads && c in run[j + 1].sh.cells
    ensures u == t ==> Closer(run[j], run[j + 1], t)
    ensures u == t && Unlocks(step) ==> run[j + 1].sh.cells[c].lock.Nobody?
    ensures u == t && !Unlocks(step) ==> run[j + 1].sh.cells[c].lock == By(t)
    ensures u != t ==>
              && run[j + 1].sh.cells[c].lock == By(t) && run[j + 1].threads[t] == run[j].threads[t]
              && ScanLeft(run[j + 1], t) == ScanLeft(run[j], t)
  {
    hide IsRun, StateInv, ThreadOk, Inv, CanThread, DoThread, WalkLeft, HoldsLock, Closer, CanStep, DoStep;
    LockMeansInside(run, j, c, t);
    if u == t {
      NextOfHolder(run, j, c, t, step);
      LockMeansInside(run, j + 1, c, t);
    } else {
      OthersStep(run[j], u, step);
      LockMeansInside(run, j + 1, c, t);
      if run[j].threads[t].op.Scanning? {
        RunKept(run, j);
        RunKept(run, j + 1);
        ScansOn(run[j], t);
        ScansOn(run[j + 1], t);
        WalkShrinks(run, j, t, Scanner, u, step);
      }
    }
  }

  /** Every other thread is where it was. */
  ghost predicate OthersStay(threads: map<Tid, Thread>, after: map<Tid, Thread>, t: Tid) {
    forall u :: u in threads && u != t ==> u in after && after[u] == threads[u]
  }

  lemma {:induction false} OthersStep(s: State, t: Tid, step: SnapCell.Step)
    requires CanStep(s, t, step)
    ensures OthersStay(s.threads, DoStep(s, t, step).threads, t)
  {
    hide CanThread, DoThread, Do;
  }

  // ----- the lock comes back ---------------------------------------------------------------------------

  /** From state `i` on only thread `t` moves. */
  ghost predicate MovesAlone(run: seq<State>, i: nat, t: Tid) {
    forall j :: i <= j < |run| - 1 ==> StepOf(run[j], run[j + 1], t)
  }

  ghost predicate StepOf(s: State, s': State, t: Tid) {
    exists step :: CanStep(s, t, step) && s' == DoStep(s, t, step)
  }

  /** So nobody waits for the lock in vain: from any state of any run the holder alone can bring it back. */
  lemma {:induction false} LockComesBack(run: seq<State>, c: Cid, t: Tid) returns (longer: seq<State>)
    requires IsRun(run) && c in run[|run| - 1].sh.cells && run[|run| - 1].sh.cells[c].lock == By(t)
    ensures IsRun(longer) && run <= longer && MovesAlone(longer, |run| - 1, t)
    ensures c in longer[|longer| - 1].sh.cells && longer[|longer| - 1].sh.cells[c].lock.Nobody?
    ensures OthersStay(run[|run| - 1].threads, longer[|longer| - 1].threads, t)
    decreases StagesOf(run, t), ScanOf(run, t)
  {
    hide NextState, CanStep, DoStep, ScanLeft, StagesLeft, HoldsLock, Blocked;
    var last := |run| - 1;
    LockMeansInside(run, last, c, t);
    NotIdle(run[last].threads[t].op, c);
    var step := NoThreadIsStuck(run, last, t);
    var more := run + [DoStep(run[last], t, step)];
    Extended(run, t, step);
    OthersStep(run[last], t, step);
    HolderGoesOn(more, last, c, t, t, step);
    if Unlocks(step) {
      longer := more;
    } else {
      longer := LockComesBack(more, c, t);
    }
    assert StepOf(more[last], more[last + 1], t);
  }

  ghost function StagesOf(run: seq<State>, t: Tid): nat {
    if run != [] && t in run[|run| - 1].threads then StagesLeft(run[|run| - 1].threads[t].op) else 0
  }

  ghost function ScanOf(run: seq<State>, t: Tid): int { if run != [] then ScanLeft(run[|run| - 1], t) else 0 }
}
