/** What `unregister_and_wait` and `clear_and_wait` promise about running handlers: after the wait a removed
    handler runs nowhere, unless the caller itself was inside it or inside a dispatch still to call it. */
module SnapRemoval {
  import opened HandlerList
  import opened HazardDomain
  import opened SnapCell
  import opened SnapInvariant
  import opened SnapStable
  import opened SnapUser
  import opened SnapSafety
  import opened SnapRuns
  import opened SnapWait
  import opened SnapProgress
  import opened SnapDispatch
  import opened SnapUnwind
  import L = RegistryLog

  // ----- a running handler stands on the read that called it --------------------------------------

  /** Frame `i` is a handler just called by the read under it. */
  ghost predicate StandsOnRead(frames: seq<Frame>, i: nat)
    requires i < |frames| && frames[i].Handler?
  {
    && i > 0 && IsRead(frames[i - 1]) && frames[i - 1].c == frames[i].c && frames[i - 1].notify
    && 0 < frames[i - 1].next <= |frames[i - 1].seen|
    && frames[i - 1].seen[frames[i - 1].next - 1].id == frames[i].id
  }

  ghost predicate HandlersStand(th: Thread) {
    forall i :: 0 <= i < |th.frames| && th.frames[i].Handler? ==> StandsOnRead(th.frames, i)
  }

  lemma {:induction false} UnrelatedStands(th: Thread, th': Thread)
    requires HandlersStand(th) && Unrelated(th, th')
    ensures HandlersStand(th')
  {
    forall i | 0 <= i < |th'.frames| && th'.frames[i].Handler? ensures StandsOnRead(th'.frames, i) {
      assert i < |th.frames| && th'.frames[i] == th.frames[i];
      assert StandsOnRead(th.frames, i);
    }
  }

  lemma {:induction false} PrefixStands(th: Thread, th': Thread)
    requires HandlersStand(th) && |th'.frames| <= |th.frames| && th'.frames == th.frames[..|th'.frames|]
    ensures HandlersStand(th')
  {
    forall i | 0 <= i < |th'.frames| && th'.frames[i].Handler? ensures StandsOnRead(th'.frames, i) {
      assert StandsOnRead(th.frames, i);
    }
  }

  lemma {:induction false} PushStands(th: Thread, f: Frame)
    requires HandlersStand(th) && !f.Handler?
    ensures HandlersStand(Push(th, f))
  {
    forall i | 0 <= i < |th.frames| && th.frames[i].Handler? ensures StandsOnRead(Push(th, f).frames, i) {
      assert StandsOnRead(th.frames, i);
    }
  }

  lemma {:induction false} CallStands(sh: Shared, t: Tid, th: Thread)
    requires HandlersStand(th) && CanCallHandler(sh, t, th) && sh.heap[TopFrame(th).a].list == TopFrame(th).seen
    ensures HandlersStand(DoCallHandler(sh, t, th).1)
  {
    var th' := DoCallHandler(sh, t, th).1;
    forall i | 0 <= i < |th'.frames| && th'.frames[i].Handler? ensures StandsOnRead(th'.frames, i) {
      if i < |th.frames| { assert StandsOnRead(th.frames, i); }
    }
  }

  /** The steps that end a handler, tell a panic and end the callback. */
  lemma {:induction false} EndStands(sh: Shared, t: Tid, th: Thread, step: SnapCell.Step)
    requires HandlersStand(th) && CanThread(sh, t, th, step) && OfDispatch(step) && !step.CallHandler?
    ensures HandlersStand(DoThread(sh, t, th, step).1)
  {
    hide HandlersStand;
    var th' := DoThread(sh, t, th, step).1;
    if step.Tell? && |th'.frames| > |th.frames| {
      PushStands(th, TopFrame(th'));
    } else {
      PrefixStands(th, th');
    }
  }

  lemma {:induction false} NextStands(s: State, s': State, u: Tid)
    requires StateInv(s) && NextState(s, s') && u in s'.threads && (u in s.threads ==> HandlersStand(s.threads[u]))
    ensures HandlersStand(s'.threads[u])
  {
    hide StateInv, CanThread, DoThread, Do, Can, HandlersStand;
    if s' != s {
      var t, step :| CanStep(s, t, step) && s' == DoStep(s, t, step);
      if t == u {
        if step.Spawn? {
          FreshStands();
        } else if step.CloseCell? {
          PushStands(s.threads[u], TopFrame(s'.threads[u]));
        } else {
          ThreadStands(s, u, step);
        }
      }
    }
  }

  lemma {:induction false} FreshStands()
    ensures HandlersStand(Thread([], Idle, 0))
  {
  }

  lemma {:induction false} ThreadStands(s: State, u: Tid, step: SnapCell.Step)
    requires StateInv(s) && u in s.threads && CanThread(s.sh, u, s.threads[u], step) && HandlersStand(s.threads[u])
    ensures HandlersStand(DoThread(s.sh, u, s.threads[u], step).1)
  {
    hide StateInv, HandlersStand, Unrelated, CanCallHandler, DoCallHandler;
    var th := s.threads[u];
    if step.CallHandler? {
      TopSees(s, u, step);
      CallStands(s.sh, u, th);
    } else if OfDispatch(step) {
      EndStands(s.sh, u, th, step);
    } else {
      RestUnrelated(s.sh, u, th, step);
      UnrelatedStands(th, DoThread(s.sh, u, th, step).1);
    }
  }

  /** In every state of every run, a handler that is running was called by the read right under it, which is
      of its cell and has its id in the list. */
  lemma {:induction false} HandlerStandsOnItsRead(run: seq<State>, j: nat, u: Tid, i: nat)
    requires IsRun(run) && j < |run| && u in run[j].threads && i < |run[j].threads[u].frames|
    requires run[j].threads[u].frames[i].Handler?
    ensures StandsOnRead(run[j].threads[u].frames, i)
    ensures HasId(run[j].threads[u].frames[i - 1].seen, run[j].threads[u].frames[i].id)
  {
    RunStands(run, j, u);
    var frames := run[j].threads[u].frames;
    assert StandsOnRead(frames, i);
    assert frames[i - 1].seen[frames[i - 1].next - 1].id == frames[i].id;
  }

  lemma {:induction false} RunStands(run: seq<State>, j: nat, u: Tid)
    requires IsRun(run) && j < |run| && u in run[j].threads
    ensures HandlersStand(run[j].threads[u])
  {
    hide NextState, StateInv, HandlersStand;
    if j > 0 {
      RunKept(run, j - 1);
      assert NextState(run[j - 1], run[j - 1 + 1]);
      if u in run[j - 1].threads { RunStands(run, j - 1, u); }
      NextStands(run[j - 1], run[j], u);
    }
  }

  // ----- the reads the caller was inside ----------------------------------------------------------------

  /** How many of the frames thread `t` had at state `p` it has not left since. */
  ghost function NotLeft(run: seq<State>, p: nat, q: nat, t: Tid): nat
    requires p <= q < |run|
    decreases q
  {
    var depth := if t in run[q].threads then |run[q].threads[t].frames| else 0;
    if p == q then depth else var before := NotLeft(run, p, q - 1, t); if depth < before then depth else before
  }

  /** What may become of a frame that stays: a read goes on to its next handlers, a handler stays as it is. */
  ghost predicate SameFrame(f: Frame, g: Frame) {
    && (IsRead(g) ==> IsRead(f) && g.c == f.c && g.seen == f.seen && g.notify == f.notify && g.next >= f.next)
    && (g.Handler? ==> g == f)
  }

  /** One step of the stack: frames stay or go, and a handler comes on top only when the read under it calls it. */
  ghost predicate StackNext(frames: seq<Frame>, after: seq<Frame>) {
    && (forall i :: 0 <= i < |frames| && i < |after| ==> SameFrame(frames[i], after[i]))
    && (|after| > |frames| && after[|frames|].Handler? ==>
          && frames != [] && IsRead(frames[|frames| - 1]) && IsRead(after[|frames| - 1])
          && frames[|frames| - 1].next < after[|frames| - 1].next)
  }

  lemma {:induction false} CallStack(sh: Shared, t: Tid, th: Thread)
    requires CanCallHandler(sh, t, th)
    ensures StackNext(th.frames, DoCallHandler(sh, t, th).1.frames)
  {
    var th' := DoCallHandler(sh, t, th).1;
    forall i | 0 <= i < |th.frames| ensures SameFrame(th.frames[i], th'.frames[i]) {
      if i < |th.frames| - 1 { assert th'.frames[i] == th.frames[i]; }
    }
  }

  lemma {:induction false} EndStack(sh: Shared, t: Tid, th: Thread, step: SnapCell.Step)
    requires CanThread(sh, t, th, step) && OfDispatch(step) && !step.CallHandler?
    ensures StackNext(th.frames, DoThread(sh, t, th, step).1.frames)
  {
  }

  lemma {:induction false} ThreadStack(sh: Shared, t: Tid, th: Thread, step: SnapCell.Step)
    requires CanThread(sh, t, th, step)
    ensures StackNext(th.frames, DoThread(sh, t, th, step).1.frames)
  {
    if step.CallHandler? {
      hide StackNext, CanCallHandler, DoCallHandler;
      CallStack(sh, t, th);
    } else if OfDispatch(step) {
      hide CanThread, DoThread, StackNext;
      EndStack(sh, t, th, step);
    } else {
      hide CanThread, DoThread;
      RestUnrelated(sh, t, th, step);
    }
  }

  /** Since state `p`: the first `low` frames are still there, and a handler right above them has been called. */
  ghost predicate StackSince(frames: seq<Frame>, now: seq<Frame>, low: nat) {
    && low <= |frames| && low <= |now| && (forall i :: 0 <= i < low ==> SameFrame(frames[i], now[i]))
    && (low < |now| && now[low].Handler? ==>
          low > 0 && IsRead(frames[low - 1]) && IsRead(now[low - 1]) && frames[low - 1].next < now[low - 1].next)
  }

  lemma {:induction false} StackGoesOn(frames: seq<Frame>, now: seq<Frame>, after: seq<Frame>, low: nat)
    requires StackSince(frames, now, low) && StackNext(now, after)
    requires low < |after| && after[low].Handler? ==> low > 0 && IsRead(after[low - 1])
    ensures StackSince(frames, after, if |after| < low then |after| else low)
  {
    if low < |after| && after[low].Handler? && low < |now| {
      assert SameFrame(now[low], after[low]) && SameFrame(now[low - 1], after[low - 1]);
    }
  }

  /** Frames the caller has not left are what they were; its reads above them are recent. */
  ghost predicate OwnReads(run: seq<State>, p: nat, q: nat, t: Tid, c: Cid, floor: nat)
    requires p <= q < |run|
  {
    && t in run[p].threads && t in run[q].threads && Recent(run[q].sh, c, floor)
    && StackSince(run[p].threads[t].frames, run[q].threads[t].frames, NotLeft(run, p, q, t))
    && ReadsFrom(run[q].threads[t], c, floor, true, NotLeft(run, p, q, t))
  }

  lemma {:induction false} NextOwn(s: State, s': State, t: Tid, c: Cid, floor: nat, low: nat)
    requires NextState(s, s') && t in s.threads && Recent(s.sh, c, floor)
    requires ReadsFrom(s.threads[t], c, floor, true, low)
    ensures t in s'.threads && Recent(s'.sh, c, floor)
    ensures ReadsFrom(s'.threads[t], c, floor, true, low) && StackNext(s.threads[t].frames, s'.threads[t].frames)
  {
    hide CanThread, DoThread, Do, Can, ReadsFrom;
    NextCells(s, s');
    if s' != s {
      var u, step :| CanStep(s, u, step) && s' == DoStep(s, u, step);
      if u == t {
        if step.CloseCell? {
          PushReads(s.threads[t], s'.threads[t], c, floor, true, low);
        } else {
          ThreadReads(s.sh, t, s.threads[t], step, c, floor, true, low);
          ThreadStack(s.sh, t, s.threads[t], step);
        }
      }
    }
  }

  lemma {:induction false} LowerStill(th: Thread, c: Cid, floor: nat, low: nat)
    requires ReadsFrom(th, c, floor, true, low) && |th.frames| <= low
    ensures ReadsFrom(th, c, floor, true, |th.frames|)
  {
  }

  lemma {:induction false} OwnReadsKept(run: seq<State>, p: nat, q: nat, t: Tid, c: Cid, floor: nat)
    requires IsRun(run) && p <= q < |run| && t in run[p].threads && InWait(run[p].threads[t].op)
    requires Recent(run[p].sh, c, floor)
    ensures OwnReads(run, p, q, t, c, floor)
  {
    hide NextState, ReadsFrom, StackSince, StackNext;
    if p == q {
      NoReadAbove(run[p].threads[t], c, floor);
    } else {
      OwnReadsKept(run, p, q - 1, t, c, floor);
      assert NextState(run[q - 1], run[q - 1 + 1]);
      var low, th := NotLeft(run, p, q - 1, t), run[q - 1].threads[t];
      NextOwn(run[q - 1], run[q], t, c, floor, low);
      var th' := run[q].threads[t];
      if |th'.frames| < low { LowerStill(th', c, floor, low); }
      if low < |th'.frames| && th'.frames[low].Handler? { HandlerStandsOnItsRead(run, q, t, low); }
      StackGoesOn(run[p].threads[t].frames, th.frames, th'.frames, low);
    }
  }

  lemma {:induction false} NoReadAbove(th: Thread, c: Cid, floor: nat)
    requires InWait(th.op)
    ensures ReadsFrom(th, c, floor, true, |th.frames|) && StackSince(th.frames, th.frames, |th.frames|)
  {
  }

  // ----- where a removed handler can still run ------------------------------------------------------------

  /** A call of `unregister_and_wait` or `clear_and_wait` by thread `t`: the id is listed at state `a` and out of
      the list at `g`, the wait is called at `b` and about to return at `p`. */
  ghost predicate RemovesAndWaits(run: seq<State>, a: nat, g: nat, b: nat, p: nat, t: Tid, c: Cid, id: nat) {
    && a <= g <= b <= p < |run| && Listed(run[a], c, id) && !Listed(run[g], c, id)
    && BeginsWait(run[b], t, c) && WaitsFrom(run, b, p, t)
    && run[p].threads[t].op.WaitNext? && run[p].threads[t].op.todo == []
  }

  /** Frame `i` is a dispatch of the cell that has still to call the handler. */
  predicate StillToRun(frames: seq<Frame>, c: Cid, id: nat, i: nat) {
    && i < |frames| && IsRead(frames[i]) && frames[i].c == c && frames[i].notify && frames[i].next <= |frames[i].seen|
    && HasId(frames[i].seen[frames[i].next..], id)
  }

  /** The thread is running the handler, or a dispatch it is inside has still to call it. */
  ghost predicate RunsOrWill(frames: seq<Frame>, c: Cid, id: nat) {
    Handler(c, id) in frames || exists i :: StillToRun(frames, c, id, i)
  }

  lemma {:induction false} OwnRemoval(
    run: seq<State>, a: nat, g: nat, b: nat, p: nat, q: nat, t: Tid, c: Cid, id: nat, i: nat)
    requires IsRun(run) && RemovesAndWaits(run, a, g, b, p, t, c, id) && p <= q < |run|
    requires c in run[q].sh.cells && run[q].sh.cells[c].log.drawn <= L.U64
    requires t in run[q].threads && i < |run[q].threads[t].frames| && IsRead(run[q].threads[t].frames[i])
    requires run[q].threads[t].frames[i].c == c && HasId(run[q].threads[t].frames[i].seen, id)
    ensures i < NotLeft(run, p, q, t) && t in run[p].threads
    ensures StackSince(run[p].threads[t].frames, run[q].threads[t].frames, NotLeft(run, p, q, t))
  {
    hide IsRun, StateInv, SharedInv, ActorOk, ThreadOk, HasId, Listed, Lost, ReadsFrom, StackSince;
    var f := run[q].threads[t].frames[i];
    UnlistedIsLost(run, a, g, c, id);
    RunCells(run, g, b, c);
    RunCells(run, b, p, c);
    RunCells(run, g, q, c);
    var m, n := |Hist(run[a].sh.cells[c])| - 1, |Hist(run[g].sh.cells[c])| - 1;
    OwnReadsKept(run, p, q, t, c, n);
    if i >= NotLeft(run, p, q, t) {
      RunKept(run, q);
      EachThread(run[q], t);
      ReadFrame(run[q].sh, t, run[q].threads[t], i);
      TheActor(run[q], t);
      AboveIsRecent(run[q].threads[t], c, n, NotLeft(run, p, q, t), i);
      GoneForGood(run[q].sh, run[g].sh.cells[c].log, c, id, m, n, f.version);
    }
  }

  lemma {:induction false} AboveIsRecent(th: Thread, c: Cid, floor: nat, low: nat, i: nat)
    requires ReadsFrom(th, c, floor, true, low) && low <= i < |th.frames| && IsRead(th.frames[i]) && th.frames[i].c == c
    ensures th.frames[i].version >= floor
  {
  }

  /** A handler running at frame `i` now was running then, or was still to run. */
  lemma {:induction false} RanOrWould(frames: seq<Frame>, now: seq<Frame>, low: nat, c: Cid, id: nat, i: nat)
    requires StackSince(frames, now, low) && i < |now| && now[i] == Handler(c, id) && StandsOnRead(now, i) && i <= low
    ensures RunsOrWill(frames, c, id)
  {
    if i < low {
      assert SameFrame(frames[i], now[i]);
    } else {
      var f, g := frames[i - 1], now[i - 1];
      assert SameFrame(f, g) && f.seen[f.next..][g.next - 1 - f.next] == g.seen[g.next - 1];
      assert StillToRun(frames, c, id, i - 1);
    }
  }

  /** A removed handler that still runs, in any continuation `q`, runs on the caller's thread, which was running it
      or inside a dispatch still to call it when the wait returned; or for another thread's fallback read, if the
      caller was inside a fallback read itself. */
  lemma {:induction false} WhereItStillRuns(
    run: seq<State>, a: nat, g: nat, b: nat, p: nat, q: nat, t: Tid, c: Cid, id: nat, u: Tid, i: nat)
    requires IsRun(run) && RemovesAndWaits(run, a, g, b, p, t, c, id) && p <= q < |run|
    requires c in run[q].sh.cells && run[q].sh.cells[c].log.drawn <= L.U64
    requires u in run[q].threads && i < |run[q].threads[u].frames| && run[q].threads[u].frames[i] == Handler(c, id)
    ensures u == t ==> RunsOrWill(run[p].threads[t].frames, c, id)
    ensures u != t ==> run[b].threads[t].fallbackDepth > 0 && i > 0 && run[q].threads[u].frames[i - 1].Fallback?
  {
    hide IsRun, HasId, Listed, StackSince, RunsOrWill;
    HandlerStandsOnItsRead(run, q, u, i);
    if u == t {
      OwnRemoval(run, a, g, b, p, q, t, c, id, i - 1);
      RanOrWould(run[p].threads[t].frames, run[q].threads[t].frames, NotLeft(run, p, q, t), c, id, i);
    } else if run[q].threads[u].frames[i - 1].Hazard? || run[b].threads[t].fallbackDepth == 0 {
      WaitingRemoval(run, a, g, b, p, q, t, c, id, u, i - 1);
    }
  }

  /** So if the caller was inside no fallback read, was not running the handler and was inside no dispatch still to
      call it, then no thread is running the handler when the wait returns, and it never runs again. */
  lemma {:induction false} NeverRunsAgain(
    run: seq<State>, a: nat, g: nat, b: nat, p: nat, q: nat, t: Tid, c: Cid, id: nat, u: Tid)
    requires IsRun(run) && RemovesAndWaits(run, a, g, b, p, t, c, id) && p <= q < |run|
    requires c in run[q].sh.cells && run[q].sh.cells[c].log.drawn <= L.U64
    requires run[b].threads[t].fallbackDepth == 0 && !RunsOrWill(run[p].threads[t].frames, c, id)
    requires u in run[q].threads
    ensures Handler(c, id) !in run[q].threads[u].frames
  {
    hide IsRun, RunsOrWill;
    var frames := run[q].threads[u].frames;
    forall i | 0 <= i < |frames| ensures frames[i] != Handler(c, id) {
      if frames[i] == Handler(c, id) {
        WhereItStillRuns(run, a, g, b, p, q, t, c, id, u, i);
      }
    }
  }

  // ----- and there it can --------------------------------------------------------------------------------

  /** A dispatch goes on until it calls the handler. */
  lemma {:induction false} CallUntil(run: seq<State>, t: Tid, frames: seq<Frame>, f: Frame, id: nat)
    returns (longer: seq<State>)
    requires IsRun(run) && Rests(run, t, frames + [f]) && IsRead(f) && f.notify && f.next <= |f.seen|
    requires HasId(f.seen[f.next..], id)
    ensures Later(run, longer) && t in Last(longer).threads && Handler(f.c, id) in Last(longer).threads[t].frames
    decreases |f.seen| - f.next
  {
    hide NextState;
    longer := CallsNext(run, t, frames, f);
    var called := frames + [f.(next := f.next + 1), Handler(f.c, f.seen[f.next].id)];
    assert called[|frames| + 1] == Handler(f.c, f.seen[f.next].id);
    if f.seen[f.next].id != id {
      longer := HandlerReturns(longer, t, frames, f);
      NotTheFirst(f.seen[f.next..], id);
      assert f.seen[f.next..][1..] == f.seen[f.next + 1..];
      longer := CallUntil(longer, t, frames, f.(next := f.next + 1), id);
    }
  }

  lemma {:induction false} NotTheFirst(list: seq<Entry>, id: nat)
    requires HasId(list, id) && list[0].id != id
    ensures HasId(list[1..], id)
  {
    var i :| 0 <= i < |list| && list[i].id == id;
    assert list[1..][i - 1].id == id;
  }

  /** The condition is exact: if the caller is running the handler, or inside a dispatch still to call it, then
      there is a continuation in which the handler runs after the wait. */
  lemma {:induction false} RunsAgain(run: seq<State>, t: Tid, c: Cid, id: nat) returns (longer: seq<State>)
    requires IsRun(run) && t in Last(run).threads
    requires Last(run).threads[t].op.WaitNext? && Last(run).threads[t].op.todo == []
    requires RunsOrWill(Last(run).threads[t].frames, c, id)
    ensures Later(run, longer) && |longer| > |run| && t in Last(longer).threads
    ensures Handler(c, id) in Last(longer).threads[t].frames
  {
    hide NextState, CanThread, DoThread, CanStep, DoStep, Blocked, HasId;
    var s := Last(run);
    WaitEnds(s, t);
    Extended(run, t, Quiet(WaitReturns));
    longer := run + [DoStep(s, t, Quiet(WaitReturns))];
    var frames := s.threads[t].frames;
    if Handler(c, id) !in frames {
      var i: nat :| StillToRun(frames, c, id, i);
      longer := CanReturn(longer, t, i + 1);
      assert frames[..i + 1] == frames[..i] + [frames[i]];
      longer := CallUntil(longer, t, frames[..i], frames[i], id);
    }
  }

  lemma {:induction false} WaitEnds(s: State, t: Tid)
    requires t in s.threads && s.threads[t].op.WaitNext? && s.threads[t].op.todo == []
    ensures CanStep(s, t, Quiet(WaitReturns)) && t in DoStep(s, t, Quiet(WaitReturns)).threads
    ensures DoStep(s, t, Quiet(WaitReturns)).threads[t] == SetOp(s.threads[t], Idle)
  {
  }
}
