/** How cells and stacks develop along a run. */
module SnapRuns {
  import opened HandlerList
  import opened HazardDomain
  import opened SnapCell
  import opened SnapSafety
  import opened SnapLogs
  import L = RegistryLog

  // ----- histories grow by one write at a time ----------------------------------------------

  predicate LogGrew(g: L.Log, h: L.Log) {
    && g.drawn <= h.drawn
    && ((h.hist == g.hist && h.reqs == g.reqs)
        || (|h.hist| == |g.hist| + 1 && g.hist <= h.hist && |h.reqs| == |g.reqs| + 1 && g.reqs <= h.reqs))
  }

  /** The history grows by a write or not at all, and the current list changes only with it. */
  predicate CellNext(x: Cell, y: Cell) {
    LogGrew(x.log, y.log) && (|Hist(y)| == |Hist(x)| ==> y.current == x.current)
  }

  ghost predicate CellsNext(cells: map<Cid, Cell>, after: map<Cid, Cell>) {
    forall c :: c in cells ==> c in after && CellNext(cells[c], after[c])
  }

  lemma {:induction false} LogGrows(sh: Shared, t: Tid, th: Thread, step: SnapCell.Step, c: Cid)
    requires CanThread(sh, t, th, step)
    ensures LogGrew(LogAt(sh.cells, c), LogAfter(sh, t, th, step, c))
  {
    hide Apply, CanThread;
  }

  lemma {:induction false} ThreadCells(sh: Shared, t: Tid, th: Thread, step: SnapCell.Step)
    requires CanThread(sh, t, th, step)
    ensures CellsNext(sh.cells, DoThread(sh, t, th, step).0.cells)
  {
    hide DoThread, CanThread, LogAfter;
    forall c | c in sh.cells
      ensures var after := DoThread(sh, t, th, step).0.cells; c in after && CellNext(sh.cells[c], after[c])
    {
      ThreadLog(sh, t, th, step, c);
      LogGrows(sh, t, th, step, c);
    }
  }

  lemma {:induction false} NextCells(s: State, s': State)
    requires NextState(s, s')
    ensures CellsNext(s.sh.cells, s'.sh.cells)
  {
    hide CanThread, DoThread, Do, Can;
    if s' != s {
      var t, step :| CanStep(s, t, step) && s' == DoStep(s, t, step);
      if !step.Spawn? && !step.CloseCell? { ThreadCells(s.sh, t, s.threads[t], step); }
    }
  }

  /** A cell's log later in the run extends its log now. */
  predicate LogLater(g: L.Log, h: L.Log) {
    g.hist <= h.hist && g.reqs <= h.reqs && g.drawn <= h.drawn
  }

  lemma {:induction false} RunCells(run: seq<State>, i: nat, j: nat, c: Cid)
    requires IsRun(run) && i <= j < |run| && c in run[i].sh.cells
    ensures c in run[j].sh.cells && LogLater(run[i].sh.cells[c].log, run[j].sh.cells[c].log)
  {
    hide NextState;
    if i < j {
      RunCells(run, i, j - 1, c);
      assert NextState(run[j - 1], run[j - 1 + 1]);
      NextCells(run[j - 1], run[j]);
    }
  }

  /** Between two instants of a run a history has had every length in between. */
  lemma {:induction false} EveryVersionWasNewest(run: seq<State>, i: nat, j: nat, c: Cid, v: nat) returns (k: nat)
    requires IsRun(run) && i <= j < |run| && c in run[i].sh.cells && c in run[j].sh.cells
    requires |Hist(run[i].sh.cells[c])| <= v + 1 <= |Hist(run[j].sh.cells[c])|
    ensures i <= k <= j && c in run[k].sh.cells && |Hist(run[k].sh.cells[c])| == v + 1
  {
    hide NextState;
    if |Hist(run[j].sh.cells[c])| == v + 1 {
      k := j;
    } else {
      assert i < j;
      RunCells(run, i, j - 1, c);
      assert NextState(run[j - 1], run[j - 1 + 1]);
      NextCells(run[j - 1], run[j]);
      k := EveryVersionWasNewest(run, i, j - 1, c, v);
    }
  }

  // ----- reads appear on stacks with the newest version ---------------------------------------

  /** The reads looked at: those under a hazard slot, or all of them. */
  predicate Watched(f: Frame, all: bool) { f.Hazard? || (all && f.Fallback?) }

  /** A thread's watched reads of `c` from frame `low` up, and the one it is about to start, are of version
      `floor` or later. */
  ghost predicate ReadsFrom(th: Thread, c: Cid, floor: nat, all: bool, low: nat) {
    && (forall i :: low <= i < |th.frames| && Watched(th.frames[i], all) && th.frames[i].c == c ==>
        th.frames[i].version >= floor)
    && (all && th.op.FbUnlocking? && th.op.call.c == c && th.op.call.Borrows() ==> th.op.version >= floor)
  }

  predicate Recent(sh: Shared, c: Cid, floor: nat) {
    c in sh.cells && floor < |Hist(sh.cells[c])|
  }

  predicate MakesReads(step: SnapCell.Step) {
    step.Validate? || step.FbClone? || step.FbUnlock? || step.CallHandler?
  }

  lemma {:induction false} QuietReads(
    sh: Shared, t: Tid, th: Thread, q: QuietStep, c: Cid, floor: nat, all: bool, low: nat)
    requires CanQuiet(sh, t, th, q) && ReadsFrom(th, c, floor, all, low)
    ensures ReadsFrom(DoQuiet(sh, t, th, q), c, floor, all, low)
  {
    var th' := DoQuiet(sh, t, th, q);
    assert forall i :: 0 <= i < |th'.frames| ==> th'.frames[i] == th.frames[i];
  }

  lemma {:induction false} OtherReads(
    sh: Shared, t: Tid, th: Thread, step: SnapCell.Step, c: Cid, floor: nat, all: bool, low: nat)
    requires CanThread(sh, t, th, step) && ReadsFrom(th, c, floor, all, low) && !MakesReads(step) && !step.Quiet?
    ensures ReadsFrom(DoThread(sh, t, th, step).1, c, floor, all, low)
  {
    hide DoQuiet, CanQuiet, Do, Can, Unref, Apply;
    var th' := DoThread(sh, t, th, step).1;
    assert forall i :: 0 <= i < |th'.frames| && Watched(th'.frames[i], all) ==>
        i < |th.frames| && th'.frames[i] == th.frames[i];
  }

  lemma {:induction false} NewReads(
    sh: Shared, t: Tid, th: Thread, step: SnapCell.Step, c: Cid, floor: nat, all: bool, low: nat)
    requires CanThread(sh, t, th, step) && ReadsFrom(th, c, floor, all, low) && MakesReads(step) && Recent(sh, c, floor)
    ensures ReadsFrom(DoThread(sh, t, th, step).1, c, floor, all, low)
  {
    var th' := DoThread(sh, t, th, step).1;
    forall i | low <= i < |th'.frames| && Watched(th'.frames[i], all) && th'.frames[i].c == c
      ensures th'.frames[i].version >= floor
    {
      if i < |th.frames| - 1 { assert th'.frames[i] == th.frames[i]; }
    }
  }

  lemma {:induction false} ThreadReads(
    sh: Shared, t: Tid, th: Thread, step: SnapCell.Step, c: Cid, floor: nat, all: bool, low: nat)
    requires CanThread(sh, t, th, step) && ReadsFrom(th, c, floor, all, low) && Recent(sh, c, floor)
    ensures ReadsFrom(DoThread(sh, t, th, step).1, c, floor, all, low)
  {
    if step.Quiet? {
      QuietReads(sh, t, th, step.q, c, floor, all, low);
    } else if MakesReads(step) {
      NewReads(sh, t, th, step, c, floor, all, low);
    } else {
      OtherReads(sh, t, th, step, c, floor, all, low);
    }
  }

  /** Once every thread but `t` reads only recent versions, that stays so. */
  ghost predicate OthersRecent(s: State, t: Tid, c: Cid, floor: nat, all: bool) {
    Recent(s.sh, c, floor) && forall u :: u in s.threads && u != t ==> ReadsFrom(s.threads[u], c, floor, all, 0)
  }

  lemma {:induction false} OthersStayRecent(s: State, s': State, t: Tid, c: Cid, floor: nat, all: bool)
    requires NextState(s, s') && OthersRecent(s, t, c, floor, all)
    ensures OthersRecent(s', t, c, floor, all)
  {
    hide CanThread, DoThread, Do, Can, ReadsFrom;
    NextCells(s, s');
    if s' != s {
      var u, step :| CanStep(s, u, step) && s' == DoStep(s, u, step);
      if step.Spawn? {
        FreshReads(c, floor, all, 0);
      } else if step.CloseCell? {
        if u != t { PushReads(s.threads[u], s'.threads[u], c, floor, all, 0); }
      } else {
        if u != t { ThreadReads(s.sh, u, s.threads[u], step, c, floor, all, 0); }
      }
    }
  }

  lemma {:induction false} FreshReads(c: Cid, floor: nat, all: bool, low: nat)
    ensures ReadsFrom(Thread([], Idle, 0), c, floor, all, low)
  {
  }

  lemma {:induction false} PushReads(th: Thread, th': Thread, c: Cid, floor: nat, all: bool, low: nat)
    requires th'.frames != [] && TopFrame(th').Dropping? && th'.frames[..|th'.frames| - 1] == th.frames && th'.op.Idle?
    requires ReadsFrom(th, c, floor, all, low)
    ensures ReadsFrom(th', c, floor, all, low)
  {
    assert forall i :: 0 <= i < |th.frames| ==> th'.frames[i] == th.frames[i];
  }

  lemma {:induction false} RunStaysRecent(run: seq<State>, p: nat, q: nat, t: Tid, c: Cid, floor: nat, all: bool)
    requires IsRun(run) && p <= q < |run| && OthersRecent(run[p], t, c, floor, all)
    ensures OthersRecent(run[q], t, c, floor, all)
  {
    hide NextState, OthersRecent;
    if p < q {
      RunStaysRecent(run, p, q - 1, t, c, floor, all);
      assert NextState(run[q - 1], run[q - 1 + 1]);
      OthersStayRecent(run[q - 1], run[q], t, c, floor, all);
    }
  }
}
