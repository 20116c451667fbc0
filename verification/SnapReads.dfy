/** Reads are atomic: whatever a call of `read` or `load_arc_if` gets was the cell's current list at
    some instant of the call. */
module SnapReads {
  import opened HandlerList
  import opened HazardDomain
  import opened SnapCell
  import opened SnapInvariant
  import opened SnapStable
  import opened SnapQuiet
  import opened SnapLock
  import opened SnapUser
  import opened SnapHeap
  import opened SnapSafety
  import opened SnapRuns
  import opened SnapWait
  import L = RegistryLog

  /** Inside a call that has not yet got its list. */
  predicate InCall(op: Op) {
    op.Loading? || op.Pinning? || op.Validating? || op.Announcing? || op.Cloning?
    || op.Counting? || op.FbLocking? || op.FbCloning? || op.FbUnlocking?
  }

  /** A step of a thread inside a call: the call stays the same, and a frame it pushes is its read. */
  ghost predicate CallGoesOn(th: Thread, th': Thread)
    requires InCall(th.op)
  {
    && (InCall(th'.op) ==> th'.op.call == th.op.call && th'.frames == th.frames)
    && (|th'.frames| > |th.frames| ==>
          && th.op.call.Borrows() && |th'.frames| == |th.frames| + 1 && IsRead(TopFrame(th'))
          && TopFrame(th').c == th.op.call.c && TopFrame(th').since == th.op.call.since && TopFrame(th').next == 0
          && TopFrame(th').notify == th.op.call.use.Notify?)
  }

  lemma {:induction false} CallQuiet(sh: Shared, t: Tid, th: Thread, q: QuietStep)
    requires InCall(th.op) && CanQuiet(sh, t, th, q)
    ensures CallGoesOn(th, DoQuiet(sh, t, th, q))
  {
  }

  lemma {:induction false} CallLoud(sh: Shared, t: Tid, th: Thread, step: SnapCell.Step)
    requires InCall(th.op) && CanThread(sh, t, th, step) && !step.Quiet?
    ensures CallGoesOn(th, DoThread(sh, t, th, step).1)
  {
    hide Do, Can, StoreSlot, DoQuiet, CanQuiet, Unref, Apply, MoveOut, IsSplit;
  }

  lemma {:induction false} NextCall(s: State, s': State, t: Tid)
    requires NextState(s, s') && t in s.threads && InCall(s.threads[t].op) && t in s'.threads
    ensures CallGoesOn(s.threads[t], s'.threads[t])
  {
    hide CanThread, DoThread, Do, Can, CanQuiet, DoQuiet, CallGoesOn;
    if s' == s {
      SameCall(s.threads[t], s.threads[t]);
    } else {
      var u, step :| CanStep(s, u, step) && s' == DoStep(s, u, step);
      if u != t {
        SameCall(s.threads[t], s'.threads[t]);
      } else if step.Quiet? {
        QuietOf(s.sh, t, s.threads[t], step);
        CallQuiet(s.sh, t, s.threads[t], step.q);
      } else {
        CallLoud(s.sh, t, s.threads[t], step);
      }
    }
  }

  lemma {:induction false} SameCall(th: Thread, th': Thread)
    requires InCall(th.op) && th' == th
    ensures CallGoesOn(th, th')
  {
  }

  /** At state `m` thread `t` calls `read` or `load_arc_if` on `c`, and from then to `p` it is inside that call. */
  ghost predicate Calls(run: seq<State>, m: nat, p: nat, t: Tid, c: Cid, use: Use) {
    && m < p < |run| && t in run[m].threads
    && CanQuiet(run[m].sh, t, run[m].threads[t], BeginRead(c, use))
    && run[m + 1] == DoStep(run[m], t, Quiet(BeginRead(c, use)))
    && forall k :: m < k <= p ==> t in run[k].threads && InCall(run[k].threads[t].op)
  }

  lemma {:induction false} OneCall(run: seq<State>, m: nat, p: nat, t: Tid, c: Cid, use: Use)
    requires IsRun(run) && Calls(run, m, p, t, c, use)
    ensures c in run[m].sh.cells && Hist(run[m].sh.cells[c]) != []
    ensures run[p].threads[t].op.call == Call(c, use, Newest(run[m].sh.cells[c]))
    ensures run[p].threads[t].frames == run[m].threads[t].frames
  {
    hide NextState;
    if p > m + 1 {
      OneCall(run, m, p - 1, t, c, use);
      assert NextState(run[p - 1], run[p - 1 + 1]);
      NextCall(run[p - 1], run[p], t);
    }
  }

  /** The list a read iterates over was current at some instant between its call and its first handler,
      on the hazard path and on the locked fallback alike. */
  lemma {:induction false} ReadIsAtomic(run: seq<State>, m: nat, p: nat, t: Tid, c: Cid, use: Use) returns (k: nat)
    requires IsRun(run) && Calls(run, m, p, t, c, use) && p + 1 < |run|
    requires t in run[p + 1].threads && |run[p + 1].threads[t].frames| > |run[m].threads[t].frames|
    ensures var f := TopFrame(run[p + 1].threads[t]);
            && IsRead(f) && f.c == c && f.next == 0 && f.notify == use.Notify?
            && m <= k <= p + 1 && c in run[k].sh.cells && Hist(run[k].sh.cells[c]) != []
            && f.seen == L.Current(run[k].sh.cells[c].log)
  {
    hide IsRun, StateInv, SharedInv, ActorOk, ThreadOk, NextState, L.LogInv;
    OneCall(run, m, p, t, c, use);
    RunStep(run, p);
    NextCall(run[p], run[p + 1], t);
    RunKept(run, p + 1);
    EachThread(run[p + 1], t);
    var th := run[p + 1].threads[t];
    var f := TopFrame(th);
    ReadFrame(run[p + 1].sh, t, th, |th.frames| - 1);
    k := WasCurrent(run, m, p + 1, c, f.version);
  }

  lemma {:induction false} RunStep(run: seq<State>, p: nat)
    requires IsRun(run) && p + 1 < |run|
    ensures NextState(run[p], run[p + 1])
  {
    hide NextState;
  }

  lemma {:induction false} WasCurrent(run: seq<State>, m: nat, p: nat, c: Cid, v: nat) returns (k: nat)
    requires IsRun(run) && m <= p < |run| && c in run[m].sh.cells && c in run[p].sh.cells
    requires |Hist(run[m].sh.cells[c])| <= v + 1 <= |Hist(run[p].sh.cells[c])|
    ensures m <= k <= p && c in run[k].sh.cells && Hist(run[k].sh.cells[c]) != []
    ensures L.Current(run[k].sh.cells[c].log) == Hist(run[p].sh.cells[c])[v]
  {
    hide IsRun;
    k := EveryVersionWasNewest(run, m, p, c, v);
    RunCells(run, k, p, c);
  }

  /** A call of `load_arc_if` that is taking its own reference, under its hazard or under the writer lock:
      the list is allocated, its strong count at least one, and it was current at some instant of the call. */
  lemma {:induction false} LoadIsAtomic(run: seq<State>, m: nat, p: nat, t: Tid, c: Cid, use: Use) returns (k: nat)
    requires IsRun(run) && Calls(run, m, p, t, c, use)
    requires run[p].threads[t].op.Cloning? || run[p].threads[t].op.FbUnlocking?
    ensures var sh, op := run[p].sh, run[p].threads[t].op;
            && op.a in sh.heap && sh.heap[op.a].strong >= 1
            && m <= k <= p && c in run[k].sh.cells && Hist(run[k].sh.cells[c]) != []
            && sh.heap[op.a].list == L.Current(run[k].sh.cells[c].log)
  {
    hide IsRun, StateInv, SharedInv, ActorOk, ThreadOk, NextState, L.LogInv, HeapInv, CellsInv, SlotsInv, HandlesInv;
    hide StrongInv;
    OneCall(run, m, p, t, c, use);
    RunKept(run, p);
    TheActor(run[p], t);
    var sh, th := run[p].sh, run[p].threads[t];
    ActorThread(sh, t, th);
    SlotsPart(sh);
    HandlesPart(sh);
    ThreadOp(sh, t, th);
    if th.op.Cloning? { ClonedIsAllocated(sh, t, th); } else { HeldIsAllocated(sh, th.op); }
    VersionIsList(sh, th.op.a);
    k := WasCurrent(run, m, p, c, th.op.version);
  }

  lemma {:induction false} HeldIsAllocated(sh: Shared, op: Op)
    requires HandlesInv(sh.handles, sh.heap, sh.nextTok) && op.FbUnlocking? && op.arc in sh.handles
    requires sh.handles[op.arc].addr == op.a && sh.handles[op.arc].version == op.version
    requires sh.handles[op.arc].cell == op.call.c
    ensures op.a in sh.heap && sh.heap[op.a].cell == op.call.c && sh.heap[op.a].version == op.version
  {
    assert HandleOk(sh.handles[op.arc], sh.heap);
  }

  lemma {:induction false} VersionIsList(sh: Shared, a: Addr)
    requires HeapInv(sh.heap, sh.cells) && a in sh.heap
    ensures var o := sh.heap[a];
            && o.strong >= 1 && o.cell in sh.cells && o.version < |Hist(sh.cells[o.cell])|
            && o.list == Hist(sh.cells[o.cell])[o.version]
  {
    assert ObjOk(a, sh.heap[a], sh.cells);
  }

  // ----- how often a reader retries ----------------------------------------------------------

  predicate Announces(op: Op) { op.Validating? || op.Announcing? }

  predicate NotYetPinned(op: Op) {
    op.Loading? || op.Pinning? || op.Counting? || op.FbLocking? || op.FbCloning? || op.FbUnlocking?
  }

  /** The validating load of `protect` has just seen another list. */
  predicate Retried(op: Op, op': Op) { op.Validating? && op'.Announcing? }

  /** How one step of a call moves the announcement: a retry announces what is current. */
  ghost predicate Moves(current: Addr, op: Op, op': Op) {
    && (NotYetPinned(op') ==> NotYetPinned(op))
    && (Retried(op, op') ==> op.p != current && op'.p == current)
    && (Announces(op') && !Retried(op, op') ==> op.Pinning? || (Announces(op) && op'.p == op.p))
  }

  lemma {:induction false} QuietMoves(sh: Shared, t: Tid, th: Thread, q: QuietStep)
    requires InCall(th.op) && th.op.call.c in sh.cells && CanQuiet(sh, t, th, q) && InCall(DoQuiet(sh, t, th, q).op)
    ensures Moves(sh.cells[th.op.call.c].current, th.op, DoQuiet(sh, t, th, q).op)
  {
  }

  lemma {:induction false} LoudMoves(sh: Shared, t: Tid, th: Thread, step: SnapCell.Step)
    requires InCall(th.op) && th.op.call.c in sh.cells && CanThread(sh, t, th, step) && !step.Quiet?
    requires InCall(DoThread(sh, t, th, step).1.op)
    ensures Moves(sh.cells[th.op.call.c].current, th.op, DoThread(sh, t, th, step).1.op)
    ensures !Retried(th.op, DoThread(sh, t, th, step).1.op)
  {
    hide Do, Can, StoreSlot, DoQuiet, CanQuiet, Unref, Apply, MoveOut, IsSplit;
  }

  lemma {:induction false} NextMoves(s: State, s': State, t: Tid)
    requires NextState(s, s') && t in s.threads && InCall(s.threads[t].op) && s.threads[t].op.call.c in s.sh.cells
    requires t in s'.threads && InCall(s'.threads[t].op)
    ensures Moves(s.sh.cells[s.threads[t].op.call.c].current, s.threads[t].op, s'.threads[t].op)
    ensures Retried(s.threads[t].op, s'.threads[t].op) ==> s'.sh == s.sh
  {
    hide CanThread, DoThread, Do, Can, CanQuiet, DoQuiet;
    if s' != s {
      var u, step :| CanStep(s, u, step) && s' == DoStep(s, u, step);
      if u == t {
        if step.Quiet? {
          QuietOf(s.sh, t, s.threads[t], step);
          QuietMoves(s.sh, t, s.threads[t], step.q);
        } else {
          LoudMoves(s.sh, t, s.threads[t], step);
        }
      }
    }
  }

  /** How often the call retried between states `m` and `p`. */
  ghost function Retries(run: seq<State>, m: nat, p: nat, t: Tid): nat
    requires p < |run| && forall k :: m < k <= p ==> t in run[k].threads
  {
    if p <= m + 1 then 0
    else Retries(run, m, p - 1, t) + (if Retried(run[p - 1].threads[t].op, run[p].threads[t].op) then 1 else 0)
  }

  /** Writes since the call, and one more retry allowed while the announcement is of the current list. */
  ghost predicate RetriesPaid(retries: nat, writes: int, current: Addr, op: Op) {
    && retries <= writes + 1
    && (NotYetPinned(op) ==> retries == 0)
    && (Announces(op) ==> retries <= writes + (if op.p == current then 1 else 0))
  }

  lemma {:induction false} PaidKept(
    retries: nat, writes: nat, current: Addr, op: Op, writes': nat, current': Addr, op': Op)
    requires RetriesPaid(retries, writes, current, op) && Moves(current, op, op')
    requires writes <= writes' && (writes' == writes ==> current' == current)
    requires Retried(op, op') ==> writes' == writes
    ensures RetriesPaid(retries + (if Retried(op, op') then 1 else 0), writes', current', op')
  {
  }

  lemma {:induction false} RetriesArePaid(run: seq<State>, m: nat, p: nat, t: Tid, c: Cid, use: Use)
    requires IsRun(run) && Calls(run, m, p, t, c, use)
    ensures c in run[m].sh.cells && c in run[p].sh.cells && |Hist(run[m].sh.cells[c])| <= |Hist(run[p].sh.cells[c])|
    ensures RetriesPaid(Retries(run, m, p, t), |Hist(run[p].sh.cells[c])| - |Hist(run[m].sh.cells[c])|,
                        run[p].sh.cells[c].current, run[p].threads[t].op)
  {
    hide NextState, RetriesPaid, Moves;
    OneCall(run, m, p, t, c, use);
    RunCells(run, m, p, c);
    if p > m + 1 {
      RetriesArePaid(run, m, p - 1, t, c, use);
      OneCall(run, m, p - 1, t, c, use);
      RunCells(run, m, p - 1, c);
      assert NextState(run[p - 1], run[p - 1 + 1]);
      NextMoves(run[p - 1], run[p], t);
      NextCells(run[p - 1], run[p]);
      var x, y, n := run[p - 1].sh.cells[c], run[p].sh.cells[c], |Hist(run[m].sh.cells[c])|;
      PaidKept(Retries(run, m, p - 1, t), |Hist(x)| - n, x.current, run[p - 1].threads[t].op,
               |Hist(y)| - n, y.current, run[p].threads[t].op);
    } else {
      FirstIsPaid(run[p].threads[t].op, |Hist(run[p].sh.cells[c])| - |Hist(run[m].sh.cells[c])|,
                  run[p].sh.cells[c].current);
    }
  }

  lemma {:induction false} FirstIsPaid(op: Op, writes: nat, current: Addr)
    ensures RetriesPaid(0, writes, current, op)
  {
  }

  /** A reader is held up only by writers: a call retries at most once more than the cell was written
      since the call. */
  lemma {:induction false} RetriesBoundedByWrites(run: seq<State>, m: nat, p: nat, t: Tid, c: Cid, use: Use)
    requires IsRun(run) && Calls(run, m, p, t, c, use)
    ensures c in run[m].sh.cells && c in run[p].sh.cells
    ensures Retries(run, m, p, t) <= 1 + |Hist(run[p].sh.cells[c])| - |Hist(run[m].sh.cells[c])|
  {
    hide IsRun, Calls;
    RetriesArePaid(run, m, p, t, c, use);
  }
}
