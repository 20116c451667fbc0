/** What `unregister_and_wait` and `clear_and_wait` promise when they return. */
module SnapWait {
  import opened HandlerList
  import opened HazardDomain
  import opened SnapCell
  import opened SnapInvariant
  import opened SnapStable
  import opened SnapQuiet
  import opened SnapReader
  import opened SnapUser
  import opened SnapSafety
  import opened SnapRuns
  import O = RegistryOrder
  import L = RegistryLog

  // ----- a waiter about to return ------------------------------------------------------------

  /** The checks of the wait loop are behind the thread and nothing is left to check. */
  predicate Returning(th: Thread, w: Waiter) { th.op == WaitNext(w, []) }

  /** Distinct threads own distinct records. */
  lemma {:induction false} OtherRecords(d: Domain, t: Tid, u: Tid)
    requires Inv(d) && t in d.locals && u in d.locals && t != u && d.locals[u].record != NULL
    ensures IsOther(d, t, d.locals[u].record)
  {
    assert LocalOk(d.locals[t], t, d.recs) && LocalOk(d.locals[u], u, d.recs);
  }

  lemma {:induction false} HazardIsRecent(sh: Shared, t: Tid, w: Waiter, u: Tid, i: nat, f: Frame)
    requires Inv(sh.dom) && OthersIn(sh.dom, t, w, []) && t in sh.dom.locals && u in sh.dom.locals && t != u
    requires f.Hazard? && f.c == w.c && FramePins(sh.dom, u, i, f)
    ensures f.version >= w.floor
  {
    var d := sh.dom;
    var r := d.locals[u].record;
    assert OwnSlot(d, u, f.k) == SlotAt(d, r, f.k);
    OtherRecords(d, t, u);
  }

  lemma {:induction false} FallbackIsRecent(sh: Shared, w: Waiter, u: Tid, i: nat, tok: Tok, v: nat)
    requires w.c in sh.cells && NoOldFallback(sh.cells[w.c], w.floor)
    requires IsCounted(sh.cells, w.c, tok, Counted(u, i, Reading(v)))
    ensures v >= w.floor
  {
  }

  lemma {:induction false} FramesAreRecent(sh: Shared, t: Tid, w: Waiter, u: Tid, th: Thread)
    requires Inv(sh.dom) && OthersIn(sh.dom, t, w, []) && t in sh.dom.locals && t != u
    requires w.c in sh.cells && (!w.onFallback ==> NoOldFallback(sh.cells[w.c], w.floor)) && ThreadOk(sh, u, th)
    ensures ReadsFrom(th, w.c, w.floor, !w.onFallback, 0)
  {
    hide ThreadOk, Inv, OthersIn, NoOldFallback, OpOk;
    Frames(sh, u, th);
    ThreadOp(sh, u, th);
    forall i | 0 <= i < |th.frames| && Watched(th.frames[i], !w.onFallback) && th.frames[i].c == w.c
      ensures th.frames[i].version >= w.floor
    {
      var f := th.frames[i];
      assert FrameOk(sh, u, i, f);
      if f.Hazard? { HazardIsRecent(sh, t, w, u, i, f); } else { FallbackIsRecent(sh, w, u, i, f.tok, f.version); }
    }
    if !w.onFallback && th.op.FbUnlocking? && th.op.call.c == w.c && th.op.call.Borrows() {
      UnlockingCounted(sh, u, |th.frames|, th.op);
      FallbackIsRecent(sh, w, u, |th.frames|, th.op.tok, th.op.version);
    }
  }

  lemma {:induction false} UnlockingCounted(sh: Shared, u: Tid, n: nat, op: Op)
    requires OpOk(sh, u, n, op) && op.FbUnlocking? && op.call.Borrows()
    ensures IsCounted(sh.cells, op.call.c, op.tok, Counted(u, n, Reading(op.version)))
  {
  }

  lemma {:induction false} WaiterKnows(sh: Shared, t: Tid, n: nat, w: Waiter)
    requires OpOk(sh, t, n, WaitNext(w, []))
    ensures WaiterOk(sh.cells, w) && (!w.onFallback ==> NoOldFallback(sh.cells[w.c], w.floor))
    ensures OthersIn(sh.dom, t, w, [])
  {
  }

  lemma {:induction false} EachThread(s: State, u: Tid)
    requires StateInv(s) && u in s.threads
    ensures ThreadOk(s.sh, u, s.threads[u]) && Inv(s.sh.dom)
  {
  }

  /** When the wait returns, every read of the cell on another thread is of a version at least as new
      as the one current when the wait began; a caller inside a fallback read is promised it of reads under
      a hazard slot only. */
  lemma {:induction false} WaitLeavesOnlyRecent(run: seq<State>, p: nat, t: Tid, w: Waiter)
    requires IsRun(run) && p < |run| && t in run[p].threads && Returning(run[p].threads[t], w)
    ensures OthersRecent(run[p], t, w.c, w.floor, !w.onFallback)
  {
    hide IsRun, StateInv, ThreadOk, Inv, OthersIn, NoOldFallback, OpOk, ReadsFrom;
    var s := run[p];
    RunKept(run, p);
    EachThread(s, t);
    ThreadOp(s.sh, t, s.threads[t]);
    WaiterKnows(s.sh, t, |s.threads[t].frames|, w);
    forall u | u in s.threads && u != t ensures ReadsFrom(s.threads[u], w.c, w.floor, !w.onFallback, 0) {
      EachThread(s, u);
      FramesAreRecent(s.sh, t, w, u, s.threads[u]);
    }
  }

  // ----- whole runs -----------------------------------------------------------------------------

  /** The list of version `m` had `id` and the list of version `n` has lost it. */
  ghost predicate Lost(g: L.Log, id: nat, m: nat, n: nat) {
    m < n < |g.hist| && HasId(g.hist[m], id) && !HasId(g.hist[n], id)
  }

  /** A handler removed before a wait that has returned is in no list any other thread is reading, then
      or at any later point of the run; fallback reads are included unless the caller was inside one. */
  lemma {:induction false} RemovedHandlerNeverRunsElsewhere(
    run: seq<State>, p: nat, q: nat, t: Tid, w: Waiter, id: nat, m: nat, n: nat, u: Tid, i: nat)
    requires IsRun(run) && p <= q < |run|
    requires t in run[p].threads && Returning(run[p].threads[t], w) && w.c in run[p].sh.cells
    requires Lost(run[p].sh.cells[w.c].log, id, m, n) && n <= w.floor
    requires u in run[q].threads && u != t && i < |run[q].threads[u].frames|
    requires Watched(run[q].threads[u].frames[i], !w.onFallback) && run[q].threads[u].frames[i].c == w.c
    requires w.c in run[q].sh.cells && run[q].sh.cells[w.c].log.drawn <= L.U64
    ensures !HasId(run[q].threads[u].frames[i].seen, id)
  {
    hide IsRun, StateInv, OthersRecent, HasId, ThreadOk, SharedInv, ActorOk;
    RunKept(run, q);
    WaitLeavesOnlyRecent(run, p, t, w);
    RunStaysRecent(run, p, q, t, w.c, w.floor, !w.onFallback);
    RunCells(run, p, q, w.c);
    var f := run[q].threads[u].frames[i];
    RecentFrame(run[q], t, w, u, i);
    EachThread(run[q], u);
    ReadFrame(run[q].sh, u, run[q].threads[u], i);
    TheActor(run[q], u);
    GoneForGood(run[q].sh, run[p].sh.cells[w.c].log, w.c, id, m, n, f.version);
  }

  lemma {:induction false} RecentFrame(s: State, t: Tid, w: Waiter, u: Tid, i: nat)
    requires OthersRecent(s, t, w.c, w.floor, !w.onFallback) && u in s.threads && u != t && i < |s.threads[u].frames|
    requires Watched(s.threads[u].frames[i], !w.onFallback) && s.threads[u].frames[i].c == w.c
    ensures s.threads[u].frames[i].version >= w.floor
  {
    assert ReadsFrom(s.threads[u], w.c, w.floor, !w.onFallback, 0);
  }

  lemma {:induction false} ReadFrame(sh: Shared, u: Tid, th: Thread, i: nat)
    requires ThreadOk(sh, u, th) && i < |th.frames| && IsRead(th.frames[i])
    ensures var f := th.frames[i]; ReadOk(sh.cells, f.c, f.version, f.since, f.seen, f.next)
  {
    hide ThreadOk;
    Frames(sh, u, th);
    assert FrameOk(sh, u, i, th.frames[i]);
  }

  lemma {:induction false} GoneForGood(sh: Shared, g: L.Log, c: Cid, id: nat, m: nat, n: nat, v: nat)
    requires SharedInv(sh) && c in sh.cells && LogLater(g, sh.cells[c].log) && sh.cells[c].log.drawn <= L.U64
    requires Lost(g, id, m, n) && n <= v < |Hist(sh.cells[c])|
    ensures !HasId(Hist(sh.cells[c])[v], id)
  {
    hide HasId, Inv, HeapInv, CellsInv, HandlesInv, StrongInv, SlotsInv, SettledInv, CountersInv;
    var h := sh.cells[c].log;
    assert L.LogInv(h);
    assert h.hist[m] == g.hist[m] && h.hist[n] == g.hist[n];
    O.LeavesForGood(h.hist, h.reqs, id, m, n, v);
  }

  // ----- the two public calls -----------------------------------------------------------------------

  predicate InWait(op: Op) { op.WaitCheck? || op.WaitCopy? || op.WaitNext? || op.WaitScan? }

  lemma {:induction false} QuietWaiter(sh: Shared, t: Tid, th: Thread, q: QuietStep)
    requires InWait(th.op) && CanQuiet(sh, t, th, q)
    ensures var op := DoQuiet(sh, t, th, q).op; InWait(op) ==> op.w == th.op.w
  {
  }

  lemma {:induction false} LoudWaiter(sh: Shared, t: Tid, th: Thread, step: SnapCell.Step)
    requires InWait(th.op) && CanThread(sh, t, th, step)
    ensures step.Quiet?
  {
    hide CanQuiet, Can, IsSplit;
  }

  lemma {:induction false} NextWaiter(s: State, s': State, t: Tid)
    requires NextState(s, s') && t in s.threads && InWait(s.threads[t].op) && t in s'.threads
    requires InWait(s'.threads[t].op)
    ensures s'.threads[t].op.w == s.threads[t].op.w
  {
    hide CanThread, Do, Can, CanQuiet, DoQuiet;
    if s' != s {
      var u, step :| CanStep(s, u, step) && s' == DoStep(s, u, step);
      if u == t {
        LoudWaiter(s.sh, t, s.threads[t], step);
        QuietOf(s.sh, t, s.threads[t], step);
        QuietWaiter(s.sh, t, s.threads[t], step.q);
      }
    }
  }

  lemma {:induction false} QuietOf(sh: Shared, t: Tid, th: Thread, step: SnapCell.Step)
    requires step.Quiet? && CanThread(sh, t, th, step)
    ensures CanQuiet(sh, t, th, step.q) && DoThread(sh, t, th, step) == (sh, DoQuiet(sh, t, th, step.q))
  {
    hide CanQuiet, DoQuiet;
  }

  /** Thread `t` has just called `wait_for_retired_readers` on `c`. */
  ghost predicate BeginsWait(s: State, t: Tid, c: Cid) {
    && t in s.threads && c in s.sh.cells && Hist(s.sh.cells[c]) != []
    && s.threads[t].op == WaitCheck(Waiter(c, s.threads[t].fallbackDepth > 0, Newest(s.sh.cells[c])))
  }

  /** From state `b` to state `p` thread `t` is inside one call of `wait_for_retired_readers`. */
  ghost predicate WaitsFrom(run: seq<State>, b: nat, p: nat, t: Tid) {
    b <= p < |run| && forall k :: b <= k <= p ==> t in run[k].threads && InWait(run[k].threads[t].op)
  }

  lemma {:induction false} OneWaiter(run: seq<State>, b: nat, p: nat, t: Tid)
    requires IsRun(run) && WaitsFrom(run, b, p, t)
    ensures run[p].threads[t].op.w == run[b].threads[t].op.w
  {
    hide NextState;
    if p > b {
      OneWaiter(run, b, p - 1, t);
      assert NextState(run[p - 1], run[p - 1 + 1]);
      NextWaiter(run[p - 1], run[p], t);
    }
  }

  /** The current list of `c` has `id`. */
  ghost predicate Listed(s: State, c: Cid, id: nat) {
    c in s.sh.cells && Hist(s.sh.cells[c]) != [] && HasId(L.Current(s.sh.cells[c].log), id)
  }

  lemma {:induction false} UnlistedIsLost(run: seq<State>, a: nat, g: nat, c: Cid, id: nat)
    requires IsRun(run) && a <= g < |run| && Listed(run[a], c, id) && !Listed(run[g], c, id)
    ensures c in run[a].sh.cells && c in run[g].sh.cells
    ensures |Hist(run[a].sh.cells[c])| > 0 && |Hist(run[g].sh.cells[c])| > 0
    ensures Lost(run[g].sh.cells[c].log, id, |Hist(run[a].sh.cells[c])| - 1, |Hist(run[g].sh.cells[c])| - 1)
  {
    hide IsRun, HasId;
    RunCells(run, a, g, c);
    var x, y := run[a].sh.cells[c].log, run[g].sh.cells[c].log;
    assert x.hist == y.hist[..|x.hist|] && y.hist[..|y.hist|] == y.hist;
  }

  /** The write of a removal that finds its id, or of a clear, takes the ids it removes out of the list. */
  lemma {:induction false} RemovalUnlists(run: seq<State>, a: nat, t: Tid, c: Cid, id: nat, addr: Addr)
    requires IsRun(run) && a < |run| && t in run[a].threads && CanWrite(run[a].sh, t, run[a].threads[t], addr)
    requires run[a].threads[t].op.c == c && (run[a].threads[t].op.req == Remove(id) || run[a].threads[t].op.req.Clear?)
    requires Listed(run[a], c, id) && run[a].sh.cells[c].log.drawn <= L.U64
    ensures !Listed(DoStep(run[a], t, Write(addr)), c, id)
  {
    hide IsRun, StateInv, SharedInv, HasId, Apply, L.LogInv, L.Distinct;
    var sh, req := run[a].sh, run[a].threads[t].op.req;
    var g := sh.cells[c].log;
    RunKept(run, a);
    WritersList(run[a], t, c);
    LogOf(run[a], c);
    RemovesSome(L.Current(g), req, id);
    var next := Apply(L.Current(g), req).value;
    L.CurrentIsTidy(g);
    L.DistinctAfter(L.Current(g), req, next);
    ClearedIsEmpty(L.Current(g), req, next, id);
  }

  /** The list a writer sees is the last one of the history. */
  lemma {:induction false} WritersList(s: State, t: Tid, c: Cid)
    requires StateInv(s) && t in s.threads && s.threads[t].op.Writing? && s.threads[t].op.c == c
    ensures c in s.sh.cells && s.sh.cells[c].current in s.sh.heap && Hist(s.sh.cells[c]) != []
    ensures s.sh.heap[s.sh.cells[c].current].list == L.Current(s.sh.cells[c].log)
  {
    hide StateInv, SharedInv, ThreadOk, PinsBacked, Answers, HeapInv, CellsInv, SlotsInv, LocksOk, PendingOk;
    TheActor(s, t);
    ThreadOp(s.sh, t, s.threads[t]);
    SlotsPart(s.sh);
    assert OpenIn(s.sh.cells, c);
    CurrentIsAllocated(s.sh, c);
  }

  lemma {:induction false} RemovesSome(list: seq<Entry>, req: Request, id: nat)
    requires HasId(list, id) && (req == Remove(id) || req.Clear?)
    ensures Apply(list, req).Some?
  {
  }

  lemma {:induction false} ClearedIsEmpty(list: seq<Entry>, req: Request, next: seq<Entry>, id: nat)
    requires Apply(list, req) == Some(next) && (req == Remove(id) || req.Clear?)
    requires req == Remove(id) ==> !HasId(next, id)
    ensures !HasId(next, id)
  {
  }

  lemma {:induction false} LogOf(s: State, c: Cid)
    requires StateInv(s) && c in s.sh.cells
    ensures L.LogInv(s.sh.cells[c].log)
  {
  }

  lemma {:induction false} LostLater(g: L.Log, h: L.Log, id: nat, m: nat, n: nat)
    requires LogLater(g, h) && Lost(g, id, m, n)
    ensures Lost(h, id, m, n)
  {
    hide HasId;
  }

  /** `unregister_and_wait` returning true, or `clear_and_wait` returning after removing.  An id listed at
      `a`, out of the list at `g`, and a wait called at `b` about to return at `p`: no other thread reads a
      list with the id, in any continuation `q`.  If the caller was inside a fallback read this covers
      other threads' reads under a hazard slot; otherwise it covers all of them. */
  lemma {:induction false} WaitingRemoval(
    run: seq<State>, a: nat, g: nat, b: nat, p: nat, q: nat, t: Tid, c: Cid, id: nat, u: Tid, i: nat)
    requires IsRun(run) && a <= g <= b <= p <= q < |run|
    requires Listed(run[a], c, id) && !Listed(run[g], c, id)
    requires BeginsWait(run[b], t, c) && WaitsFrom(run, b, p, t)
    requires run[p].threads[t].op.WaitNext? && run[p].threads[t].op.todo == []
    requires u in run[q].threads && u != t && i < |run[q].threads[u].frames|
    requires Watched(run[q].threads[u].frames[i], run[b].threads[t].fallbackDepth == 0)
    requires run[q].threads[u].frames[i].c == c
    requires c in run[q].sh.cells && run[q].sh.cells[c].log.drawn <= L.U64
    ensures !HasId(run[q].threads[u].frames[i].seen, id)
  {
    hide IsRun, HasId, Listed, Lost;
    var w := run[p].threads[t].op.w;
    OneWaiter(run, b, p, t);
    UnlistedIsLost(run, a, g, c, id);
    RunCells(run, g, b, c);
    RunCells(run, g, p, c);
    var m, n := |Hist(run[a].sh.cells[c])| - 1, |Hist(run[g].sh.cells[c])| - 1;
    LostLater(run[g].sh.cells[c].log, run[p].sh.cells[c].log, id, m, n);
    RemovedHandlerNeverRunsElsewhere(run, p, q, t, w, id, m, n, u, i);
  }

  // ----- when the caller counts as being on the fallback path ------------------------------------

  function FallbackFrames(frames: seq<Frame>): nat {
    if frames == [] then 0
    else
      var top := frames[|frames| - 1];
      FallbackFrames(frames[..|frames| - 1]) + (if top.Fallback? || top.Leaving? then 1 else 0)
  }

  predicate OpOnFallback(op: Op) {
    (op.FbLocking? || op.FbCloning? || op.FbUnlocking?) && op.call.Borrows()
  }

  /** `FALLBACK_DEPTH` is the number of fallback reads the thread is inside. */
  predicate DepthOk(th: Thread) {
    th.fallbackDepth == FallbackFrames(th.frames) + (if OpOnFallback(th.op) then 1 else 0)
  }

  lemma {:induction false} PushDepth(frames: seq<Frame>, f: Frame)
    ensures FallbackFrames(frames + [f]) == FallbackFrames(frames) + (if f.Fallback? || f.Leaving? then 1 else 0)
  {
    assert (frames + [f])[..|frames|] == frames;
  }

  lemma {:induction false} TopDepth(frames: seq<Frame>, f: Frame)
    requires frames != []
    requires ((f.Fallback? || f.Leaving?) <==> (frames[|frames| - 1].Fallback? || frames[|frames| - 1].Leaving?))
    ensures FallbackFrames(frames[|frames| - 1 := f]) == FallbackFrames(frames)
  {
    assert frames[|frames| - 1 := f][..|frames| - 1] == frames[..|frames| - 1];
  }

  predicate MovesStack(step: SnapCell.Step) {
    PushesFrame(step) || PopsFrame(step) || step.CallHandler?
  }

  lemma {:induction false} QuietDepth(sh: Shared, t: Tid, th: Thread, q: QuietStep)
    requires CanQuiet(sh, t, th, q) && DepthOk(th)
    ensures DepthOk(DoQuiet(sh, t, th, q))
  {
  }

  lemma {:induction false} StillDepth(sh: Shared, t: Tid, th: Thread, step: SnapCell.Step)
    requires CanThread(sh, t, th, step) && DepthOk(th) && !MovesStack(step) && !step.Quiet?
    ensures DepthOk(DoThread(sh, t, th, step).1)
  {
    hide FallbackFrames, DoQuiet, CanQuiet, Unref, Apply, Do, Can;
  }

  predicate PushesFrame(step: SnapCell.Step) { step.Validate? || step.Unlock? || step.FbUnlock? || step.Tell? }

  predicate PopsFrame(step: SnapCell.Step) {
    step.FbRelease? || step.DropOne? || step.Uncount? || step.FinishBody? || step.HandlerEnds? || step.CallbackEnds?
  }

  lemma {:induction false} PushingDepth(sh: Shared, t: Tid, th: Thread, step: SnapCell.Step)
    requires CanThread(sh, t, th, step) && DepthOk(th) && PushesFrame(step)
    ensures DepthOk(DoThread(sh, t, th, step).1)
  {
    hide FallbackFrames, StoreSlot;
    var frames := th.frames;
    var th' := DoThread(sh, t, th, step).1;
    if |th'.frames| > |frames| { PushDepth(frames, th'.frames[|frames|]); }
  }

  lemma {:induction false} HandlerDepth(sh: Shared, t: Tid, th: Thread)
    requires CanCallHandler(sh, t, th) && DepthOk(th)
    ensures DepthOk(DoCallHandler(sh, t, th).1)
  {
    hide FallbackFrames;
    var th' := DoCallHandler(sh, t, th).1;
    var f := TopFrame(th);
    var g := f.(next := f.next + 1);
    TopDepth(th.frames, g);
    var th1 := SetTop(th, g);
    var th2 := Push(th1, th'.frames[|th.frames|]);
    PushDepth(th1.frames, th'.frames[|th.frames|]);
    if |th'.frames| > |th2.frames| { PushDepth(th2.frames, th'.frames[|th2.frames|]); }
  }

  lemma {:induction false} PoppingDepth(sh: Shared, t: Tid, th: Thread, step: SnapCell.Step)
    requires CanThread(sh, t, th, step) && DepthOk(th) && PopsFrame(step)
    ensures DepthOk(DoThread(sh, t, th, step).1)
  {
    hide Unref;
    var th' := DoThread(sh, t, th, step).1;
    if step.FbRelease? || (step.DropOne? && |TopFrame(th).rest| != 1) {
      TopDepth(th.frames, th'.frames[|th.frames| - 1]);
    }
  }

  lemma {:induction false} StackDepth(sh: Shared, t: Tid, th: Thread, step: SnapCell.Step)
    requires CanThread(sh, t, th, step) && DepthOk(th) && MovesStack(step)
    ensures DepthOk(DoThread(sh, t, th, step).1)
  {
    hide DepthOk, DoCallHandler, CanCallHandler;
    if PushesFrame(step) {
      PushingDepth(sh, t, th, step);
    } else if step.CallHandler? {
      HandlerDepth(sh, t, th);
    } else {
      PoppingDepth(sh, t, th, step);
    }
  }

  lemma {:induction false} ThreadDepth(sh: Shared, t: Tid, th: Thread, step: SnapCell.Step)
    requires CanThread(sh, t, th, step) && DepthOk(th)
    ensures DepthOk(DoThread(sh, t, th, step).1)
  {
    hide DepthOk;
    if step.Quiet? {
      QuietDepth(sh, t, th, step.q);
    } else if MovesStack(step) {
      StackDepth(sh, t, th, step);
    } else {
      StillDepth(sh, t, th, step);
    }
  }

  lemma {:induction false} NextDepth(s: State, s': State)
    requires NextState(s, s') && forall t :: t in s.threads ==> DepthOk(s.threads[t])
    ensures forall t :: t in s'.threads ==> DepthOk(s'.threads[t])
  {
    hide CanThread, DoThread, Do, Can;
    if s' != s {
      var t, step :| CanStep(s, t, step) && s' == DoStep(s, t, step);
      if step.CloseCell? {
        PushDepth(s.threads[t].frames, s'.threads[t].frames[|s.threads[t].frames|]);
      } else if !step.Spawn? {
        ThreadDepth(s.sh, t, s.threads[t], step);
      }
    }
  }

  /** In every state of every run the thread-local depth is exact. */
  lemma {:induction false} RunDepth(run: seq<State>, i: nat, t: Tid)
    requires IsRun(run) && i < |run| && t in run[i].threads
    ensures DepthOk(run[i].threads[t])
  {
    AllDepths(run, i);
  }

  lemma {:induction false} AllDepths(run: seq<State>, i: nat)
    requires IsRun(run) && i < |run|
    ensures forall t :: t in run[i].threads ==> DepthOk(run[i].threads[t])
  {
    hide NextState;
    if i > 0 {
      AllDepths(run, i - 1);
      assert NextState(run[i - 1], run[i - 1 + 1]);
      NextDepth(run[i - 1], run[i]);
    }
  }

  lemma {:induction false} NoFallbackNoDepth(frames: seq<Frame>)
    ensures FallbackFrames(frames) == 0 <==>
            forall i :: 0 <= i < |frames| ==> !frames[i].Fallback? && !frames[i].Leaving?
  {
    if frames != [] {
      var below := frames[..|frames| - 1];
      NoFallbackNoDepth(below);
      assert forall i :: 0 <= i < |below| ==> below[i] == frames[i];
      assert frames == below + [frames[|frames| - 1]];
    }
  }

  /** A wait skips fallback readers exactly when its caller is inside a fallback read. */
  lemma {:induction false} SkipsFallbackIffInside(run: seq<State>, i: nat, t: Tid, c: Cid)
    requires IsRun(run) && i < |run| && t in run[i].threads && CanQuiet(run[i].sh, t, run[i].threads[t], BeginWait(c))
    ensures var th := run[i].threads[t];
            var w := DoQuiet(run[i].sh, t, th, BeginWait(c)).op.w;
            w.onFallback <==> exists k :: 0 <= k < |th.frames| && (th.frames[k].Fallback? || th.frames[k].Leaving?)
  {
    hide IsRun;
    RunDepth(run, i, t);
    NoFallbackNoDepth(run[i].threads[t].frames);
  }
}
