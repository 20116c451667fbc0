/** `notify` and `handle_panic` of `src/sync/mod.rs` in every run, with nested and concurrent dispatches
    in between: what one dispatch does, what its panics are reported as, and what the counter counts. */
module SnapDispatch {
  import opened HandlerList
  import opened HazardDomain
  import opened SnapCell
  import opened SnapInvariant
  import opened SnapStable
  import opened SnapLock
  import opened SnapUser
  import opened SnapSafety
  import opened SnapLabels
  import opened SnapTouch
  import opened SnapWait
  import L = RegistryLog

  // ----- the panic counter and the panic callback ------------------------------------------------------

  /** The step is the end of a handler of the cell, by a panic. */
  ghost predicate Panics(s: State, l: Label, c: Cid) {
    && l.Did? && l.step == HandlerEnds(true) && l.t in s.threads && s.threads[l.t].frames != []
    && TopFrame(s.threads[l.t]).Handler? && TopFrame(s.threads[l.t]).c == c
  }

  /** How many handlers of the cell have panicked in the first `j` steps. */
  ghost function PanicsSoFar(run: seq<State>, labels: seq<Label>, j: nat, c: Cid): nat
    requires j <= |labels| < |run|
  {
    if j == 0 then 0 else PanicsSoFar(run, labels, j - 1, c) + (if Panics(run[j - 1], labels[j - 1], c) then 1 else 0)
  }

  /** What the last of the first `j` steps that set or cleared the callback of the cell left: none before any. */
  function LastCallback(labels: seq<Label>, j: nat, c: Cid): bool
    requires j <= |labels|
  {
    if j == 0 then false
    else if labels[j - 1].Did? && labels[j - 1].step.SetCallback? && labels[j - 1].step.c == c
    then labels[j - 1].step.on
    else LastCallback(labels, j - 1, c)
  }

  function PanicCount(cells: map<Cid, Cell>, c: Cid): nat { if c in cells then cells[c].panics else 0 }

  function HasCallback(cells: map<Cid, Cell>, c: Cid): bool { c in cells && cells[c].callback }

  /** Only the end of a handler by a panic counts, and only the two calls change the callback. */
  ghost predicate PanicsNext(cells: map<Cid, Cell>, th: Thread, step: SnapCell.Step, after: map<Cid, Cell>, c: Cid) {
    && PanicCount(after, c)
       == (if step == HandlerEnds(true) && th.frames != [] && TopFrame(th).Handler? && TopFrame(th).c == c
           then (PanicCount(cells, c) + 1) % L.U64 else PanicCount(cells, c))
    && HasCallback(after, c) == (if step.SetCallback? && step.c == c then step.on else HasCallback(cells, c))
  }

  lemma {:induction false} CallPanics(sh: Shared, t: Tid, th: Thread, step: SnapCell.Step)
    requires CanThread(sh, t, th, step) && OnCall(step)
    ensures PanicsNext(sh.cells, th, step, DoThread(sh, t, th, step).0.cells, th.op.call.c)
  {
  }

  lemma {:induction false} OpPanics(sh: Shared, t: Tid, th: Thread, step: SnapCell.Step)
    requires CanThread(sh, t, th, step) && OnOp(step)
    ensures PanicsNext(sh.cells, th, step, DoThread(sh, t, th, step).0.cells, th.op.c)
  {
    hide IsSplit, MoveOut, Apply;
  }

  lemma {:induction false} FramePanics(sh: Shared, t: Tid, th: Thread, step: SnapCell.Step)
    requires CanThread(sh, t, th, step) && OnFrame(step) && !step.FbRelease?
    ensures PanicsNext(sh.cells, th, step, DoThread(sh, t, th, step).0.cells, TopFrame(th).c)
  {
  }

  lemma {:induction false} NamedPanics(sh: Shared, t: Tid, th: Thread, step: SnapCell.Step)
    requires CanThread(sh, t, th, step) && OnNamed(step)
    ensures PanicsNext(sh.cells, th, step, DoThread(sh, t, th, step).0.cells, step.c)
  {
  }

  lemma {:induction false} PanicsElsewhere(sh: Shared, t: Tid, th: Thread, step: SnapCell.Step, c: Cid)
    requires CanThread(sh, t, th, step) && WorksOn(sh, t, th, step) != Some(c)
    ensures !(step == HandlerEnds(true) && th.frames != [] && TopFrame(th).c == c)
    ensures !(step.SetCallback? && step.c == c)
  {
    hide CanThread;
  }

  lemma {:induction false} ThreadPanics(sh: Shared, t: Tid, th: Thread, step: SnapCell.Step, c: Cid)
    requires CanThread(sh, t, th, step)
    ensures PanicsNext(sh.cells, th, step, DoThread(sh, t, th, step).0.cells, c)
  {
    hide CanThread, DoThread;
    ThreadTouches(sh, t, th, step);
    if WorksOn(sh, t, th, step) != Some(c) {
      PanicsElsewhere(sh, t, th, step, c);
    } else {
      hide PanicsNext, Touches;
      if OnCall(step) {
        CallPanics(sh, t, th, step);
      } else if OnOp(step) {
        OpPanics(sh, t, th, step);
      } else if step.FbRelease? {
        ReleasePanics(sh, t, th, step);
      } else if OnFrame(step) {
        FramePanics(sh, t, th, step);
      } else {
        NamedPanics(sh, t, th, step);
      }
    }
  }

  lemma {:induction false} ReleasePanics(sh: Shared, t: Tid, th: Thread, step: SnapCell.Step)
    requires CanThread(sh, t, th, step) && step.FbRelease?
    ensures PanicsNext(sh.cells, th, step, DoThread(sh, t, th, step).0.cells, TopFrame(th).c)
  {
    hide CanThread, DoThread;
    ReleaseTouches(sh, t, th, step);
  }

  lemma {:induction false} NextPanics(s: State, l: Label, s': State, c: Cid)
    requires LabelOk(s, l, s')
    ensures PanicCount(s'.sh.cells, c)
            == (if Panics(s, l, c) then (PanicCount(s.sh.cells, c) + 1) % L.U64 else PanicCount(s.sh.cells, c))
    ensures HasCallback(s'.sh.cells, c)
            == (if l.Did? && l.step.SetCallback? && l.step.c == c then l.step.on else HasCallback(s.sh.cells, c))
  {
    hide CanThread, DoThread, Do, Can;
    if l.Did? && !l.step.Spawn? && !l.step.CloseCell? { ThreadPanics(s.sh, l.t, s.threads[l.t], l.step, c); }
  }

  /** `panic_count` is the number of handler panics caught in the run so far, in 64 bits. */
  lemma {:induction false} PanicCountIsExact(run: seq<State>, labels: seq<Label>, j: nat, c: Cid)
    requires IsRun(run) && Labels(run, labels) && j < |run|
    ensures PanicCount(run[j].sh.cells, c) == PanicsSoFar(run, labels, j, c) % L.U64
  {
    hide NextState, LabelOk, Panics, PanicCount;
    if j > 0 {
      PanicCountIsExact(run, labels, j - 1, c);
      LabelAt(run, labels, j - 1);
      NextPanics(run[j - 1], labels[j - 1], run[j], c);
      L.WrapsAround(PanicsSoFar(run, labels, j - 1, c));
    } else {
      assert PanicCount(EMPTY_STATE.sh.cells, c) == 0 by { NoCellYet(c); }
    }
  }

  lemma {:induction false} NoCellYet(c: Cid)
    ensures PanicCount(EMPTY_STATE.sh.cells, c) == 0 && !HasCallback(EMPTY_STATE.sh.cells, c)
  {
  }

  /** The callback a panic is told to is the one set last: `on_panic` installs it, `clear_panic_callback` takes
      it out, nothing else does either. */
  lemma {:induction false} CallbackIsTheLastSet(run: seq<State>, labels: seq<Label>, j: nat, c: Cid)
    requires IsRun(run) && Labels(run, labels) && j < |run|
    ensures HasCallback(run[j].sh.cells, c) == LastCallback(labels, j, c)
  {
    hide NextState, LabelOk, Panics, HasCallback;
    if j > 0 {
      CallbackIsTheLastSet(run, labels, j - 1, c);
      LabelAt(run, labels, j - 1);
      NextPanics(run[j - 1], labels[j - 1], run[j], c);
    } else {
      NoCellYet(c);
    }
  }

  // ----- what one dispatch does ---------------------------------------------------------------------

  /** A handler is called, a handler ends, a panic is told (`heard` by a callback or not). */
  datatype Event = Called(id: nat) | Ended(id: nat, panicked: bool) | Told(id: nat, heard: bool)

  /** What the step does for the dispatch whose read is frame number `d` of thread `t`. */
  ghost function EventOf(s: State, l: Label, t: Tid, d: nat): seq<Event> {
    if l.Stutter? || l.t != t || t !in s.threads then [] else ThreadEvent(s.sh, t, s.threads[t], l.step, d)
  }

  ghost function ThreadEvent(sh: Shared, t: Tid, th: Thread, step: SnapCell.Step, d: nat): seq<Event> {
    if step.CallHandler? && |th.frames| == d + 1 && CanCallHandler(sh, t, th) then
      [Called(sh.heap[TopFrame(th).a].list[TopFrame(th).next].id)]
    else if step.HandlerEnds? && |th.frames| == d + 2 && CanHandlerEnds(sh, t, th) then
      [Ended(TopFrame(th).id, step.panicked)]
    else if step.Tell? && |th.frames| == d + 1 && CanTell(sh, t, th) then
      [Told(th.op.id, sh.cells[th.op.c].callback)]
    else []
  }

  ghost function Events(run: seq<State>, labels: seq<Label>, i: nat, j: nat, t: Tid, d: nat): seq<Event>
    requires i <= j <= |labels| < |run|
  {
    if i == j then [] else Events(run, labels, i, j - 1, t, d) + EventOf(run[j - 1], labels[j - 1], t, d)
  }

  /** One handler's turn: it is called and returns, or it is called, panics, and the panic is told at once. */
  ghost predicate IsTurn(es: seq<Event>, id: nat) {
    || es == [Called(id), Ended(id, false)]
    || es == [Called(id), Ended(id, true), Told(id, true)]
    || es == [Called(id), Ended(id, true), Told(id, false)]
  }

  /** A whole dispatch: the turns of the list's handlers, in order. */
  ghost predicate IsDispatch(es: seq<Event>, list: seq<Entry>)
    decreases |list|
  {
    if list == [] then es == []
    else exists k :: 0 <= k <= |es| && IsDispatch(es[..k], list[..|list| - 1]) && IsTurn(es[k..], list[|list| - 1].id)
  }

  lemma {:induction false} OneMoreTurn(base: seq<Event>, turn: seq<Event>, list: seq<Entry>, n: nat)
    requires n < |list| && IsDispatch(base, list[..n]) && IsTurn(turn, list[n].id)
    ensures IsDispatch(base + turn, list[..n + 1])
  {
    var es, k := base + turn, |base|;
    assert es[..k] == base && es[k..] == turn && list[..n + 1][..n] == list[..n];
    assert IsDispatch(es[..k], list[..n + 1][..|list[..n + 1]| - 1]) && IsTurn(es[k..], list[..n + 1][n].id);
  }

  /** The turn of handler number `n` is at `tail`; the turns before it are over. */
  ghost predicate InTurn(es: seq<Event>, tail: seq<Event>, list: seq<Entry>, n: nat) {
    && 0 < n <= |list| && |tail| <= |es| && es[|es| - |tail|..] == tail
    && IsDispatch(es[..|es| - |tail|], list[..n - 1])
  }

  lemma {:induction false} TurnGoesOn(es: seq<Event>, tail: seq<Event>, e: Event, list: seq<Entry>, n: nat)
    requires InTurn(es, tail, list, n)
    ensures InTurn(es + [e], tail + [e], list, n)
  {
    var es', tail' := es + [e], tail + [e];
    assert es'[..|es'| - |tail'|] == es[..|es| - |tail|];
  }

  lemma {:induction false} TurnStarts(es: seq<Event>, list: seq<Entry>, n: nat)
    requires n < |list| && IsDispatch(es, list[..n])
    ensures InTurn(es + [Called(list[n].id)], [Called(list[n].id)], list, n + 1)
  {
    var es' := es + [Called(list[n].id)];
    assert es'[..|es'| - 1] == es;
  }

  lemma {:induction false} TurnEnds(es: seq<Event>, turn: seq<Event>, list: seq<Entry>, n: nat)
    requires InTurn(es, turn, list, n) && IsTurn(turn, list[n - 1].id)
    ensures IsDispatch(es, list[..n])
  {
    OneMoreTurn(es[..|es| - |turn|], turn, list, n - 1);
    assert es == es[..|es| - |turn|] + turn;
  }

  /** Frame number `d` is the read of a `notify` over `list`. */
  ghost predicate Dispatches(th: Thread, d: nat, list: seq<Entry>) {
    && d < |th.frames| && IsRead(th.frames[d]) && th.frames[d].notify && th.frames[d].seen == list
    && th.frames[d].next <= |list|
  }

  /** What has happened so far, read off the stack: a handler is running, its panic is about to be told,
      or every handler called so far has had its turn. */
  ghost predicate SoFar(th: Thread, d: nat, es: seq<Event>, list: seq<Entry>)
    requires Dispatches(th, d, list)
  {
    var n := th.frames[d].next;
    if |th.frames| > d + 1 && th.frames[d + 1].Handler? then
      InTurn(es, [Called(th.frames[d + 1].id)], list, n) && list[n - 1].id == th.frames[d + 1].id
    else if |th.frames| == d + 1 && th.op.Telling? then
      InTurn(es, [Called(th.op.id), Ended(th.op.id, true)], list, n) && list[n - 1].id == th.op.id
    else IsDispatch(es, list[..n])
  }

  // ----- one step of the thread ----------------------------------------------------------------------

  /** Below the top, and above it, a step changes nothing of the stack. */
  ghost predicate TopOnly(th: Thread, th': Thread) {
    && |th.frames| <= |th'.frames| + 1
    && forall i :: 0 <= i < |th.frames| - 1 ==> th'.frames[i] == th.frames[i]
  }

  lemma {:induction false} QuietTop(sh: Shared, t: Tid, th: Thread, q: QuietStep)
    requires CanQuiet(sh, t, th, q)
    ensures TopOnly(th, DoQuiet(sh, t, th, q))
    ensures var th' := DoQuiet(sh, t, th, q);
            !th'.op.Telling? && (th'.frames == th.frames
                || (th.frames != [] && TopFrame(th).Hazard? && |th'.frames| < |th.frames|))
    ensures !th.op.Telling?
  {
  }

  /** What a step other than the four of a dispatch does to the top of the stack. */
  ghost predicate Unrelated(th: Thread, th': Thread) {
    && TopOnly(th, th') && !th.op.Telling? && !th'.op.Telling?
    && (forall i :: |th.frames| <= i < |th'.frames| ==> !th'.frames[i].Handler?)
    && (th.frames != [] && TopFrame(th).Handler? ==> th.frames <= th'.frames)
    && (|th.frames| > 0 && |th'.frames| >= |th.frames| ==>
          || th'.frames[|th.frames| - 1] == TopFrame(th)
          || (!th'.frames[|th.frames| - 1].Handler? && !IsRead(th'.frames[|th.frames| - 1])))
  }

  predicate OfDispatch(step: SnapCell.Step) {
    step.CallHandler? || step.HandlerEnds? || step.Tell? || step.CallbackEnds?
  }

  lemma {:induction false} LoudTop(sh: Shared, t: Tid, th: Thread, step: SnapCell.Step)
    requires CanThread(sh, t, th, step) && !step.Quiet? && !OfDispatch(step)
    ensures Unrelated(th, DoThread(sh, t, th, step).1)
  {
    hide Do, Can, StoreSlot, DoQuiet, CanQuiet, Unref, Apply, MoveOut, IsSplit, FreeSlot;
  }

  lemma {:induction false} QuietUnrelated(th: Thread, th': Thread)
    requires TopOnly(th, th') && !th.op.Telling? && !th'.op.Telling?
    requires th'.frames == th.frames || (th.frames != [] && TopFrame(th).Hazard? && |th'.frames| < |th.frames|)
    ensures Unrelated(th, th')
  {
  }

  lemma {:induction false} UnrelatedSoFar(th: Thread, th': Thread, d: nat, es: seq<Event>, list: seq<Entry>)
    requires Dispatches(th, d, list) && SoFar(th, d, es, list) && Unrelated(th, th')
    requires d < |th'.frames| && IsRead(th'.frames[d])
    ensures Dispatches(th', d, list) && SoFar(th', d, es, list)
  {
    hide InTurn, IsDispatch;
    if |th.frames| > d + 1 { assert th'.frames[d] == th.frames[d]; }
    if |th.frames| > d + 2 { assert th'.frames[d + 1] == th.frames[d + 1]; }
  }

  lemma {:induction false} CallSoFar(sh: Shared, t: Tid, th: Thread, d: nat, es: seq<Event>, list: seq<Entry>)
    requires Dispatches(th, d, list) && SoFar(th, d, es, list) && CanCallHandler(sh, t, th)
    requires sh.heap[TopFrame(th).a].list == TopFrame(th).seen
    ensures var th' := DoCallHandler(sh, t, th).1;
            Dispatches(th', d, list) && SoFar(th', d, es + ThreadEvent(sh, t, th, CallHandler, d), list)
  {
    hide InTurn, IsDispatch;
    if |th.frames| == d + 1 {
      TurnStarts(es, list, th.frames[d].next);
    } else {
      assert es + [] == es;
    }
  }

  lemma {:induction false} EndSoFar(
    sh: Shared, t: Tid, th: Thread, panicked: bool, d: nat, es: seq<Event>, list: seq<Entry>)
    requires Dispatches(th, d, list) && SoFar(th, d, es, list) && CanHandlerEnds(sh, t, th)
    ensures var th' := DoHandlerEnds(sh, t, th, panicked).1;
            && Dispatches(th', d, list)
            && SoFar(th', d, es + ThreadEvent(sh, t, th, HandlerEnds(panicked), d), list)
  {
    hide InTurn, IsDispatch;
    if |th.frames| == d + 2 {
      var n, id := th.frames[d].next, TopFrame(th).id;
      TurnGoesOn(es, [Called(id)], Ended(id, panicked), list, n);
      assert [Called(id)] + [Ended(id, panicked)] == [Called(id), Ended(id, panicked)];
      if !panicked { TurnEnds(es + [Ended(id, false)], [Called(id), Ended(id, false)], list, n); }
    } else {
      assert es + [] == es;
    }
  }

  lemma {:induction false} TellSoFar(sh: Shared, t: Tid, th: Thread, d: nat, es: seq<Event>, list: seq<Entry>)
    requires Dispatches(th, d, list) && SoFar(th, d, es, list) && CanTell(sh, t, th)
    ensures var th' := DoTell(sh, t, th).1;
            Dispatches(th', d, list) && SoFar(th', d, es + ThreadEvent(sh, t, th, Tell, d), list)
  {
    hide InTurn, IsDispatch;
    if |th.frames| == d + 1 {
      var n, id, e := th.frames[d].next, th.op.id, Told(th.op.id, sh.cells[th.op.c].callback);
      TurnGoesOn(es, [Called(id), Ended(id, true)], e, list, n);
      assert [Called(id), Ended(id, true)] + [e] == [Called(id), Ended(id, true), e];
      TurnEnds(es + [e], [Called(id), Ended(id, true), e], list, n);
    } else {
      assert es + [] == es;
    }
  }

  lemma {:induction false} CallbackSoFar(
    sh: Shared, t: Tid, th: Thread, panicked: bool, d: nat, es: seq<Event>, list: seq<Entry>)
    requires Dispatches(th, d, list) && SoFar(th, d, es, list) && CanCallbackEnds(sh, t, th)
    ensures var th' := DoCallbackEnds(sh, t, th, panicked).1; Dispatches(th', d, list) && SoFar(th', d, es, list)
  {
    hide InTurn, IsDispatch;
  }

  lemma {:induction false} ThreadSoFar(
    sh: Shared, t: Tid, th: Thread, step: SnapCell.Step, d: nat, es: seq<Event>, list: seq<Entry>)
    requires Dispatches(th, d, list) && SoFar(th, d, es, list) && CanThread(sh, t, th, step)
    requires step.CallHandler? ==> TopFrame(th).a in sh.heap && sh.heap[TopFrame(th).a].list == TopFrame(th).seen
    requires d < |DoThread(sh, t, th, step).1.frames| && IsRead(DoThread(sh, t, th, step).1.frames[d])
    ensures var th' := DoThread(sh, t, th, step).1;
            Dispatches(th', d, list) && SoFar(th', d, es + ThreadEvent(sh, t, th, step, d), list)
  {
    hide Dispatches, SoFar, CanCallHandler, DoCallHandler, CanHandlerEnds, DoHandlerEnds, CanTell, DoTell;
    hide CanCallbackEnds, DoCallbackEnds;
    var th' := DoThread(sh, t, th, step).1;
    if step.CallHandler? {
      CallSoFar(sh, t, th, d, es, list);
    } else if step.HandlerEnds? {
      EndSoFar(sh, t, th, step.panicked, d, es, list);
    } else if step.Tell? {
      TellSoFar(sh, t, th, d, es, list);
    } else {
      assert es + [] == es;
      if step.CallbackEnds? {
        CallbackSoFar(sh, t, th, step.panicked, d, es, list);
      } else {
        RestUnrelated(sh, t, th, step);
        UnrelatedSoFar(th, th', d, es, list);
      }
    }
  }

  lemma {:induction false} RestUnrelated(sh: Shared, t: Tid, th: Thread, step: SnapCell.Step)
    requires CanThread(sh, t, th, step) && !OfDispatch(step)
    ensures Unrelated(th, DoThread(sh, t, th, step).1)
  {
    hide CanThread, DoThread, CanQuiet, DoQuiet, Unrelated;
    if step.Quiet? {
      QuietOf(sh, t, th, step);
      QuietTop(sh, t, th, step.q);
      QuietUnrelated(th, DoThread(sh, t, th, step).1);
    } else {
      LoudTop(sh, t, th, step);
    }
  }

  // ----- whole dispatches -----------------------------------------------------------------------------

  lemma {:induction false} TopSees(s: State, t: Tid, step: SnapCell.Step)
    requires StateInv(s) && t in s.threads && CanThread(s.sh, t, s.threads[t], step) && step.CallHandler?
    ensures s.threads[t].frames != []
    ensures var f := TopFrame(s.threads[t]); IsRead(f) && f.a in s.sh.heap && s.sh.heap[f.a].list == f.seen
  {
    hide StateInv, SharedInv, ActorOk, ThreadOk;
    TheActor(s, t);
    ActorThread(s.sh, t, s.threads[t]);
    ReaderSees(s.sh, t, s.threads[t], |s.threads[t].frames| - 1);
  }

  lemma {:induction false} CloseSoFar(th: Thread, f: Frame, d: nat, es: seq<Event>, list: seq<Entry>)
    requires Dispatches(th, d, list) && SoFar(th, d, es, list) && th.op.Idle? && f.Dropping?
    ensures Dispatches(Push(th, f), d, list) && SoFar(Push(th, f), d, es, list)
  {
    hide InTurn, IsDispatch;
  }

  lemma {:induction false} NextSoFar(s: State, l: Label, s': State, t: Tid, d: nat, es: seq<Event>, list: seq<Entry>)
    requires StateInv(s) && LabelOk(s, l, s') && t in s.threads && t in s'.threads
    requires Dispatches(s.threads[t], d, list) && SoFar(s.threads[t], d, es, list)
    requires d < |s'.threads[t].frames| && IsRead(s'.threads[t].frames[d])
    ensures Dispatches(s'.threads[t], d, list) && SoFar(s'.threads[t], d, es + EventOf(s, l, t, d), list)
  {
    hide StateInv, CanThread, DoThread, Do, Can, Dispatches, SoFar;
    if l.Stutter? || l.t != t {
      assert es + [] == es;
    } else if l.step.CloseCell? {
      assert es + [] == es;
      var frames := s'.threads[t].frames;
      CloseSoFar(s.threads[t], frames[|frames| - 1], d, es, list);
    } else {
      if l.step.CallHandler? { TopSees(s, t, l.step); }
      ThreadSoFar(s.sh, t, s.threads[t], l.step, d, es, list);
    }
  }

  /** Frame number `d` of thread `t` is a read in progress from state `i`, where `notify` has just got its
      list, to state `j`. */
  ghost predicate InNotify(run: seq<State>, i: nat, j: nat, t: Tid, d: nat) {
    && i <= j < |run|
    && (forall k :: i <= k <= j ==>
        t in run[k].threads && d < |run[k].threads[t].frames| && IsRead(run[k].threads[t].frames[d]))
    && var th := run[i].threads[t];
       th.op.Idle? && |th.frames| == d + 1 && th.frames[d].notify && th.frames[d].next == 0
  }

  lemma {:induction false} NotifySoFar(run: seq<State>, labels: seq<Label>, i: nat, j: nat, t: Tid, d: nat)
    requires IsRun(run) && Labels(run, labels) && InNotify(run, i, j, t, d)
    ensures var list := run[i].threads[t].frames[d].seen;
            Dispatches(run[j].threads[t], d, list) && SoFar(run[j].threads[t], d, Events(run, labels, i, j, t, d), list)
  {
    hide LabelOk, NextState, StateInv, SoFar, Dispatches;
    var list := run[i].threads[t].frames[d].seen;
    if i == j {
      FirstSoFar(run[i].threads[t], d);
    } else {
      NotifySoFar(run, labels, i, j - 1, t, d);
      assert LabelOk(run[j - 1], labels[j - 1], run[j - 1 + 1]);
      RunKept(run, j - 1);
      NextSoFar(run[j - 1], labels[j - 1], run[j], t, d, Events(run, labels, i, j - 1, t, d), list);
    }
  }

  lemma {:induction false} FirstSoFar(th: Thread, d: nat)
    requires th.op.Idle? && |th.frames| == d + 1 && IsRead(th.frames[d]) && th.frames[d].notify
    requires th.frames[d].next == 0
    ensures Dispatches(th, d, th.frames[d].seen) && SoFar(th, d, [], th.frames[d].seen)
  {
    assert th.frames[d].seen[..0] == [];
  }

  /** The dispatch is about to leave its read, and not by unwinding. */
  ghost predicate Leaves(run: seq<State>, labels: seq<Label>, j: nat, t: Tid, d: nat)
    requires Labels(run, labels) && j < |labels| && t in run[j].threads
  {
    && labels[j].Did? && labels[j].t == t && |run[j].threads[t].frames| == d + 1
    && (labels[j].step == Quiet(LeaveHazard(false)) || labels[j].step == FbRelease(false))
  }

  /** A `notify` that leaves without unwinding has given every handler of its list its turn, in list order
      and once each, whatever panicked, with any nested and concurrent dispatches in between; each panic
      was told right after it, before the next handler was called. */
  lemma {:induction false} NotifyIsADispatch(run: seq<State>, labels: seq<Label>, i: nat, j: nat, t: Tid, d: nat)
    requires IsRun(run) && Labels(run, labels) && InNotify(run, i, j, t, d) && j < |labels|
    requires Leaves(run, labels, j, t, d)
    ensures var es, list := Events(run, labels, i, j, t, d), run[i].threads[t].frames[d].seen;
            IsDispatch(es, list) && Pick(es, Calls) == Ids(list) && Pick(es, Reports) == Pick(es, Panicking)
  {
    hide IsRun, InTurn, IsDispatch, CanStep, DoStep, Pick;
    NotifySoFar(run, labels, i, j, t, d);
    assert LabelOk(run[j], labels[j], run[j + 1]);
    LeavesAtEnd(run[j], labels[j], t, d);
    var list := run[i].threads[t].frames[d].seen;
    assert list[..|list|] == list;
    DispatchIds(Events(run, labels, i, j, t, d), list);
  }

  lemma {:induction false} LeavesAtEnd(s: State, l: Label, t: Tid, d: nat)
    requires t in s.threads && l.Did? && l.t == t && |s.threads[t].frames| == d + 1 && CanStep(s, t, l.step)
    requires l.step == Quiet(LeaveHazard(false)) || l.step == FbRelease(false)
    ensures s.threads[t].op.Idle? && IsRead(s.threads[t].frames[d]) && Complete(s.threads[t].frames[d])
  {
  }

  // ----- what a dispatch means -----------------------------------------------------------------------

  function Ids(list: seq<Entry>): seq<nat> { seq(|list|, i requires 0 <= i < |list| => list[i].id) }

  /** Which ids to look at: of handlers called, of handlers that panicked, of panics told. */
  datatype Which = Calls | Panicking | Reports

  function One(e: Event, w: Which): seq<nat> {
    var wanted := match w
      case Calls => e.Called?
      case Panicking => e.Ended? && e.panicked
      case Reports => e.Told?;
    if wanted then [e.id] else []
  }

  function Pick(es: seq<Event>, w: Which): seq<nat> {
    if es == [] then [] else Pick(es[..|es| - 1], w) + One(es[|es| - 1], w)
  }

  lemma {:induction false} PickAppend(a: seq<Event>, b: seq<Event>, w: Which)
    ensures Pick(a + b, w) == Pick(a, w) + Pick(b, w)
  {
    hide One;
    if b == [] {
      assert a + b == a;
    } else {
      var m := |b| - 1;
      PickAppend(a, b[..m], w);
      assert (a + b)[..|a + b| - 1] == a + b[..m] && (a + b)[|a + b| - 1] == b[m];
      assert Pick(a, w) + (Pick(b[..m], w) + One(b[m], w)) == (Pick(a, w) + Pick(b[..m], w)) + One(b[m], w);
    }
  }

  lemma {:induction false} PickPair(x: Event, y: Event, w: Which)
    ensures Pick([x, y], w) == One(x, w) + One(y, w)
  {
    hide One;
    assert [x, y][..1] == [x] && [x][..0] == [];
    assert Pick([x], w) == One(x, w);
  }

  lemma {:induction false} TurnIds(es: seq<Event>, id: nat)
    requires IsTurn(es, id)
    ensures Pick(es, Calls) == [id] && Pick(es, Panicking) == Pick(es, Reports)
  {
    PickPair(es[0], es[1], Calls);
    PickPair(es[0], es[1], Panicking);
    PickPair(es[0], es[1], Reports);
    if |es| == 2 {
      assert es == [es[0], es[1]];
    } else {
      assert es[..2] == [es[0], es[1]];
    }
  }

  /** In a dispatch the handlers called are the list's, in order and once each, and the panics told are
      the panics, in order and once each. */
  lemma {:induction false} DispatchIds(es: seq<Event>, list: seq<Entry>)
    requires IsDispatch(es, list)
    ensures Pick(es, Calls) == Ids(list) && Pick(es, Panicking) == Pick(es, Reports)
    decreases |list|
  {
    hide Pick, IsTurn;
    if list == [] {
      NothingPicked();
    } else {
      var n := |list| - 1;
      var k :| 0 <= k <= |es| && IsDispatch(es[..k], list[..n]) && IsTurn(es[k..], list[n].id);
      DispatchIds(es[..k], list[..n]);
      TurnIds(es[k..], list[n].id);
      forall w: Which ensures Pick(es, w) == Pick(es[..k], w) + Pick(es[k..], w) {
        PickAppend(es[..k], es[k..], w);
        assert es == es[..k] + es[k..];
      }
      assert Ids(list) == Ids(list[..n]) + [list[n].id];
    }
  }

  lemma {:induction false} NothingPicked()
    ensures forall w :: Pick([], w) == []
  {
  }

  // ----- the report is the thread's next step ---------------------------------------------------------

  lemma {:induction false} OnlyTell(s: State, t: Tid, step: SnapCell.Step)
    requires t in s.threads && s.threads[t].op.Telling? && CanStep(s, t, step)
    ensures step.Tell?
  {
    hide Can, IsSplit;
  }

  lemma {:induction false} OpStays(run: seq<State>, labels: seq<Label>, i: nat, j: nat, t: Tid)
    requires Labels(run, labels) && i <= j <= |labels| && t in run[i].threads
    requires forall k :: i <= k < j ==> labels[k].Stutter? || labels[k].t != t
    ensures t in run[j].threads && run[j].threads[t] == run[i].threads[t]
  {
    hide LabelOk;
    if i < j {
      OpStays(run, labels, i, j - 1, t);
      assert LabelOk(run[j - 1], labels[j - 1], run[j - 1 + 1]);
      NotHisStep(run[j - 1], labels[j - 1], run[j], t);
    }
  }

  lemma {:induction false} NotHisStep(s: State, l: Label, s': State, t: Tid)
    requires LabelOk(s, l, s') && t in s.threads && (l.Stutter? || l.t != t)
    ensures t in s'.threads && s'.threads[t] == s.threads[t]
  {
    hide CanThread, DoThread, Do, Can;
  }

  /** A handler that panics is reported by its thread's very next step, to the callback installed then. */
  lemma {:induction false} PanicIsToldNext(run: seq<State>, labels: seq<Label>, i: nat, j: nat, t: Tid)
    requires IsRun(run) && Labels(run, labels) && i < j < |labels| && labels[i] == Did(t, HandlerEnds(true))
    requires labels[j].Did? && labels[j].t == t && forall k :: i < k < j ==> labels[k].Stutter? || labels[k].t != t
    ensures t in run[i].threads && run[i].threads[t].frames != [] && TopFrame(run[i].threads[t]).Handler?
    ensures labels[j].step.Tell? && t in run[j].threads && t in run[j + 1].threads
    ensures var f, th := TopFrame(run[i].threads[t]), run[j].threads[t];
            && th.op == Telling(f.c, f.id) && f.c in run[j].sh.cells
            && run[j + 1].threads[t] == if run[j].sh.cells[f.c].callback
                then Push(th, Callback(f.c, f.id)) else SetOp(th, Idle)
  {
    hide IsRun;
    assert LabelOk(run[i], labels[i], run[i + 1]);
    PanicTells(run[i], t, run[i + 1]);
    OpStays(run, labels, i + 1, j, t);
    assert LabelOk(run[j], labels[j], run[j + 1]);
    OnlyTell(run[j], t, labels[j].step);
    TellTells(run[j], t, run[j + 1]);
  }

  lemma {:induction false} PanicTells(s: State, t: Tid, s': State)
    requires CanStep(s, t, HandlerEnds(true)) && s' == DoStep(s, t, HandlerEnds(true))
    ensures t in s.threads && s.threads[t].frames != [] && TopFrame(s.threads[t]).Handler? && t in s'.threads
    ensures s'.threads[t].op == Telling(TopFrame(s.threads[t]).c, TopFrame(s.threads[t]).id)
  {
  }

  lemma {:induction false} TellTells(s: State, t: Tid, s': State)
    requires CanStep(s, t, Tell) && s' == DoStep(s, t, Tell)
    ensures t in s.threads && s.threads[t].op.Telling? && s.threads[t].op.c in s.sh.cells && t in s'.threads
    ensures var th := s.threads[t];
            s'.threads[t] == if s.sh.cells[th.op.c].callback
                then Push(th, Callback(th.op.c, th.op.id)) else SetOp(th, Idle)
  {
  }
}
