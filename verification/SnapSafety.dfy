/** Every step keeps the invariant, so it holds of every state of every run. */
module SnapSafety {
  import opened HazardDomain
  import opened SnapCell
  import opened SnapInvariant
  import opened SnapStable
  import opened SnapQuiet
  import opened SnapReader
  import opened SnapLock
  import opened SnapUser
  import opened SnapHeap
  import opened SnapFallback
  import opened SnapWrite
  import opened SnapLife

  // ----- from the acting thread to the whole state ----------------------------------------

  lemma {:induction false} OneState(s: State)
    requires StateInv(s)
    ensures SharedInv(s.sh)
  {
    hide SharedInv;
  }

  lemma {:induction false} TheActor(s: State, t: Tid)
    requires StateInv(s) && t in s.threads
    ensures SharedInv(s.sh) && ActorOk(s.sh, t, s.threads[t])
  {
    hide SharedInv, ThreadOk, PinsBacked;
  }

  lemma {:induction false} GoodKept(s: State, t: Tid, after: Shared, th: Thread, gone: set<Cid>)
    requires StateInv(s) && Good(s.sh, after, t, th, gone)
    requires forall u :: u in s.threads && u != t ==> Avoids(s.threads[u], gone)
    ensures StateInv(State(after, s.threads[t := th]))
  {
    hide StateInv, SharedInv, Guarantee, ActorOk, Avoids;
    StateKept(s, after, t, th, gone);
  }

  lemma {:induction false} GoodStep(s: State, t: Tid, after: Shared, th: Thread)
    requires StateInv(s) && Good(s.sh, after, t, th, {})
    ensures StateInv(State(after, s.threads[t := th]))
  {
    hide StateInv, Good;
    GoodKept(s, t, after, th, {});
  }

  /** Two changes by the same thread in a row. */
  lemma {:induction false} GoodTwice(s: State, t: Tid, mid: Shared, th1: Thread, after: Shared, th2: Thread)
    requires StateInv(s) && Good(s.sh, mid, t, th1, {}) && Good(mid, after, t, th2, {})
    ensures StateInv(State(after, s.threads[t := th2]))
  {
    hide StateInv, Good;
    GoodStep(s, t, mid, th1);
    var s1 := State(mid, s.threads[t := th1]);
    GoodStep(s1, t, after, th2);
    assert s1.threads[t := th2] == s.threads[t := th2];
  }

  lemma {:induction false} GoodParts(sh: Shared, after: Shared, t: Tid, th: Thread)
    requires Good(sh, after, t, th, {})
    ensures SharedInv(after) && ActorOk(after, t, th)
  {
  }

  // ----- the composite steps ---------------------------------------------------------------

  lemma {:induction false} CloneKept(s: State, t: Tid, keep: bool)
    requires StateInv(s) && t in s.threads && CanClone(s.sh, t, s.threads[t])
    ensures var r := DoClone(s.sh, t, s.threads[t], keep); StateInv(State(r.0, s.threads[t := r.1]))
  {
    hide StateInv, SharedInv, ActorOk, Good, ThreadOk, HeapInv, CellsInv, SlotsInv, HandleOk;
    var sh, th := s.sh, s.threads[t];
    TheActor(s, t);
    if keep {
      var h := Handle(th.op.a, th.op.call.c, th.op.version, Anyone);
      var mid := Ref(sh, th.op.a).(handles := sh.handles[sh.nextTok := h], nextTok := sh.nextTok + 1);
      SlotsPart(sh);
      ActorThread(sh, t, th);
      ClonedIsAllocated(sh, t, th);
      AddKept(sh, t, th, th.op.a, h, mid);
      GoodParts(sh, mid, t, th);
      UnpinNext(mid, t, th);
      GoodTwice(s, t, mid, th, mid, SetOp(th, Unpinning(th.op.call.c, th.op.a, th.op.k, th.op.version, false)));
    } else {
      UnpinNext(sh, t, th);
      GoodStep(s, t, sh, SetOp(th, Unpinning(th.op.call.c, th.op.a, th.op.k, th.op.version, false)));
    }
  }

  lemma {:induction false} FbCloneKept(s: State, t: Tid)
    requires StateInv(s) && t in s.threads && CanFbClone(s.sh, t, s.threads[t])
    ensures var r := DoFbClone(s.sh, t, s.threads[t]); StateInv(State(r.0, s.threads[t := r.1]))
  {
    hide StateInv, SharedInv, ActorOk, Good, HeapInv, CellsInv, SlotsInv, HandleOk;
    var sh, th := s.sh, s.threads[t];
    var c := th.op.call.c;
    var a, v := sh.cells[c].current, Newest(sh.cells[c]);
    var h := Handle(a, c, v, Held(t, |th.frames|));
    var mid := Ref(sh, a).(handles := sh.handles[sh.nextTok := h], nextTok := sh.nextTok + 1);
    var r := DoFbClone(sh, t, th);
    TheActor(s, t);
    SlotsPart(sh);
    FbCloneHandle(sh, t, th);
    AddKept(sh, t, th, a, h, mid);
    GoodParts(sh, mid, t, th);
    assert r.0 == if th.op.call.Borrows() then r.0 else mid by {
      assert mid.cells[c := mid.cells[c]] == mid.cells;
    }
    FbClonedKept(mid, t, th, sh.nextTok, a, v, r.0);
    GoodTwice(s, t, mid, th, r.0, r.1);
  }

  lemma {:induction false} FbUnlockKept(s: State, t: Tid)
    requires StateInv(s) && t in s.threads && CanFbUnlock(s.sh, t, s.threads[t])
    ensures var r := DoFbUnlock(s.sh, t, s.threads[t]); StateInv(State(r.0, s.threads[t := r.1]))
  {
    hide StateInv, SharedInv, ActorOk, Good, ThreadOk, Droppable;
    var sh, th := s.sh, s.threads[t];
    var r := DoFbUnlock(sh, t, th);
    TheActor(s, t);
    if th.op.call.Borrows() {
      FbUnlockBorrow(sh, t, th);
      GoodStep(s, t, r.0, r.1);
    } else {
      var c := th.op.call.c;
      var mid := SetCell(sh, c, sh.cells[c].(lock := Nobody));
      FbUnlockOwns(sh, t, th);
      FbUnlockOwned(sh, t, th);
      GoodParts(sh, mid, t, r.1);
      ActorThread(mid, t, r.1);
      FreeArcs(mid, t, r.1, th.op.arc);
      HandOver(mid, t, r.1, th.op.arc);
      GoodTwice(s, t, mid, r.1, r.0, r.1);
    }
  }

  lemma {:induction false} FbReleaseKept(s: State, t: Tid)
    requires StateInv(s) && t in s.threads && CanFbRelease(s.sh, t, s.threads[t], true)
    ensures var r := DoFbRelease(s.sh, t, s.threads[t]); StateInv(State(r.0, s.threads[t := r.1]))
  {
    hide StateInv, SharedInv, ActorOk, Good, ThreadOk, Unref;
    var sh, th := s.sh, s.threads[t];
    var f := TopFrame(th);
    var x := sh.cells[f.c];
    var mid := SetCell(sh, f.c, x.(counted := x.counted[f.tok := x.counted[f.tok].(phase := Done)]));
    var r := DoFbRelease(sh, t, th);
    TheActor(s, t);
    ActorThread(sh, t, th);
    FallbackTop(sh, t, th);
    FbLeave(sh, t, th);
    GoodParts(sh, mid, t, r.1);
    ActorThread(mid, t, r.1);
    ReleasedArc(mid, t, r.1, f.arc);
    DropRefKept(mid, t, r.1, f.arc);
    GoodTwice(s, t, mid, r.1, r.0, r.1);
  }

  /** The handle of a frame that has just stopped reading is held by no frame. */
  lemma {:induction false} ReleasedArc(sh: Shared, t: Tid, th: Thread, arc: Tok)
    requires ThreadOk(sh, t, th) && th.frames != [] && TopFrame(th).Leaving?
    requires arc in sh.handles && sh.handles[arc].holder == Held(t, |th.frames| - 1)
    ensures Droppable(sh, t, th, arc)
  {
    hide ThreadOk;
    Frames(sh, t, th);
    forall i | 0 <= i < |th.frames| && th.frames[i].Fallback? ensures th.frames[i].arc != arc {
      assert FrameOk(sh, t, i, th.frames[i]);
    }
  }

  lemma {:induction false} CloseKept(s: State, t: Tid, c: Cid)
    requires StateInv(s) && CanCloseCell(s, t, c)
    ensures var r := DoCloseCell(s.sh, t, s.threads[t], c); StateInv(State(r.0, s.threads[t := r.1]))
  {
    hide StateInv, SharedInv, ActorOk, Good, UsesCell;
    TheActor(s, t);
    CloseCellKept(s, t, c);
    var r := DoCloseCell(s.sh, t, s.threads[t], c);
    GoodKept(s, t, r.0, r.1, {c});
  }

  // ----- every step ---------------------------------------------------------------------

  predicate IsComposite(step: SnapCell.Step) {
    step.Clone? || step.FbClone? || step.FbUnlock? || step.FbRelease? || step.Spawn? || step.CloseCell?
  }

  lemma {:induction false} ThreadStepGood(sh: Shared, t: Tid, th: Thread, step: SnapCell.Step)
    requires SharedInv(sh) && ActorOk(sh, t, th) && CanThread(sh, t, th, step) && !IsComposite(step)
    ensures var r := DoThread(sh, t, th, step); Good(sh, r.0, t, r.1, {})
  {
    hide SharedInv, ActorOk, Good, CanQuiet, DoQuiet, CanHazards, DoHazards, CanOpenCell, DoOpenCell, CanPin, DoPin;
    hide CanAnnounce, DoAnnounce, CanValidate, DoValidate, CanUnpin, DoUnpin, CanTryLock, DoTryLock, CanCollect;
    hide DoCollect, CanStoreLen, DoStoreLen, CanUnlock, DoUnlock, CanDrawId, DoDrawId, CanLock, DoLock, CanWrite;
    hide DoWrite, CanCount, DoCount, CanFbLock, DoFbLock, CanUncount, DoUncount, CanCallHandler, DoCallHandler;
    hide CanFinishBody, DoFinishBody, CanHandlerEnds, DoHandlerEnds, CanTell, DoTell, CanCallbackEnds, DoCallbackEnds;
    hide CanSetCallback, DoSetCallback, CanDropOne, DoDropOne, CanDropHandle, DoDropHandle;
    match step
    case Quiet(q) => QuietKept(sh, t, th, q);
    case Hazards(d) => HazardsKept(sh, t, th, d);
    case OpenCell(c, a) => OpenCellKept(sh, t, th, c, a);
    case Pin => PinKept(sh, t, th);
    case Announce => AnnounceKept(sh, t, th);
    case Validate => ValidateKept(sh, t, th);
    case Unpin => UnpinKept(sh, t, th);
    case TryLock => TryLockKept(sh, t, th);
    case Collect(kept, freed) => CollectKept(sh, t, th, kept, freed);
    case StoreLen => StoreLenKept(sh, t, th);
    case Unlock => UnlockKept(sh, t, th);
    case DrawId(c, priority, once) => DrawIdKept(sh, t, th, c, priority, once);
    case Lock => LockKept(sh, t, th);
    case Write(a) => WriteKept(sh, t, th, a);
    case Count => CountKept(sh, t, th);
    case FbLock => FbLockKept(sh, t, th);
    case Uncount => UncountKept(sh, t, th);
    case CallHandler => CallHandlerKept(sh, t, th);
    case FinishBody(alive) => FinishBodyKept(sh, t, th, alive);
    case HandlerEnds(panicked) => HandlerEndsKept(sh, t, th, panicked);
    case Tell => TellKept(sh, t, th);
    case CallbackEnds(panicked) => CallbackEndsKept(sh, t, th, panicked);
    case SetCallback(c, on) => SetCallbackKept(sh, t, th, c, on);
    case DropOne => DropOneKept(sh, t, th);
    case DropHandle(tok) => DropHandleKept(sh, t, th, tok);
  }

  lemma {:induction false} CompositeKept(s: State, t: Tid, step: SnapCell.Step)
    requires StateInv(s) && t in s.threads && CanThread(s.sh, t, s.threads[t], step)
    requires step.Clone? || step.FbClone? || step.FbUnlock? || step.FbRelease?
    ensures var r := DoThread(s.sh, t, s.threads[t], step); StateInv(State(r.0, s.threads[t := r.1]))
  {
    hide StateInv, CanClone, DoClone, CanFbClone, DoFbClone, CanFbUnlock, DoFbUnlock, DoFbRelease;
    if step.Clone? {
      CloneKept(s, t, step.keep);
    } else if step.FbClone? {
      FbCloneKept(s, t);
    } else if step.FbUnlock? {
      FbUnlockKept(s, t);
    } else {
      FbReleaseKept(s, t);
    }
  }

  /** Every step of every thread keeps the invariant. */
  lemma {:induction false} StateStepKept(s: State, t: Tid, step: SnapCell.Step)
    requires StateInv(s) && CanStep(s, t, step)
    ensures StateInv(DoStep(s, t, step))
  {
    hide StateInv, SharedInv, ActorOk, Good, CanCloseCell, DoCloseCell, CanThread, DoThread;
    if step.Spawn? {
      SpawnKept(s, t);
      GoodStep(s, t, DoStep(s, t, step).sh, Thread([], Idle, 0));
    } else if step.CloseCell? {
      CloseKept(s, t, step.c);
    } else if IsComposite(step) {
      CompositeKept(s, t, step);
    } else {
      TheActor(s, t);
      ThreadStepGood(s.sh, t, s.threads[t], step);
      var r := DoThread(s.sh, t, s.threads[t], step);
      GoodStep(s, t, r.0, r.1);
    }
  }

  // ----- runs ---------------------------------------------------------------------------

  ghost predicate NextState(s: State, s': State) {
    s' == s || exists t, step :: CanStep(s, t, step) && s' == DoStep(s, t, step)
  }

  /** A run of the machine from the empty state. */
  ghost predicate IsRun(run: seq<State>) {
    && run != [] && run[0] == EMPTY_STATE
    && forall i :: 0 <= i < |run| - 1 ==> NextState(run[i], run[i + 1])
  }

  lemma {:induction false} Extended(run: seq<State>, t: Tid, step: SnapCell.Step)
    requires IsRun(run) && CanStep(run[|run| - 1], t, step)
    ensures IsRun(run + [DoStep(run[|run| - 1], t, step)])
  {
    hide CanStep, DoStep;
    var longer := run + [DoStep(run[|run| - 1], t, step)];
    forall i | 0 <= i < |longer| - 1 ensures NextState(longer[i], longer[i + 1]) {
      if i < |run| - 1 { assert NextState(run[i], run[i + 1]); }
    }
  }

  lemma {:induction false} EmptyHolds()
    ensures StateInv(EMPTY_STATE)
  {
  }

  lemma {:induction false} NextKept(s: State, s': State)
    requires StateInv(s) && NextState(s, s')
    ensures StateInv(s')
  {
    hide StateInv, CanStep, DoStep;
    if s' != s {
      var t, step :| CanStep(s, t, step) && s' == DoStep(s, t, step);
      StateStepKept(s, t, step);
    }
  }

  lemma {:induction false} RunKept(run: seq<State>, i: nat)
    requires IsRun(run) && i < |run|
    ensures StateInv(run[i])
  {
    hide StateInv, NextState;
    if i == 0 {
      EmptyHolds();
    } else {
      RunKept(run, i - 1);
      assert NextState(run[i - 1], run[i - 1 + 1]);
      NextKept(run[i - 1], run[i]);
    }
  }
}
