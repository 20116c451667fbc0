/** Why a waiting removal promises less to a caller inside a dispatch: a run, of one thread, in which a handler
    removes the next one and waits, and the dispatch it was called from has still to call the removed one. */
module SnapNestedGap {
  import opened HandlerList
  import opened HazardDomain
  import opened SnapCell
  import opened SnapSafety
  import opened SnapWait
  import opened SnapReach
  import opened SnapWaitGap
  import opened SnapUnwind
  import opened SnapRemoval
  import L = RegistryLog

  const SECOND: Entry := Entry(2, 0, false)

  const BOTH: seq<Entry> := [HANDLER, SECOND]

  const LOG2: L.Log := L.Commit(L.Draw(LOG1, 1, false), Insert(SECOND), BOTH)

  const CELL2: Cell := Cell(true, 3, [], 0, 0, Nobody, 0, false, map[], LOG2, [NULL, NULL, 3], [1, 1, 0])

  const SH2: Shared := Shared(DOM, map[0 := CELL2], map[3 := Obj(0, 2, BOTH, 1, Current)], map[], 0)

  const THREADS: map<Tid, Thread> := map[1 := IDLE, 2 := IDLE]

  /** The second registration. */
  lemma {:induction false} BothRegistered()
    ensures Reachable(State(SH2, THREADS))
  {
    hide Reachable;
    Registered();
    var x := CELL1.(log := L.Draw(LOG1, 1, false));
    var sh := SH1.(cells := map[0 := x]);
    var th := Thread([], Locking(0, Insert(SECOND)), 0);
    assert SH1.cells[0 := x] == sh.cells;
    Go(SH1, THREADS, 1, DrawId(0, 0, false), sh, th);
    assert Apply([HANDLER], Insert(SECOND)) == Some(BOTH) by { assert InsertAt([HANDLER], 1, SECOND) == BOTH; }
    hide Apply;
    WholeWrite(sh, THREADS[1 := th], 1, th, 0, 3, BOTH);
    assert THREADS[1 := th][1 := IDLE] == THREADS;
    BothHeap(sh);
  }

  lemma {:induction false} BothHeap(sh: Shared)
    requires sh == SH1.(cells := map[0 := CELL1.(log := L.Draw(LOG1, 1, false))])
    ensures Unref(Written(sh, 0, 1, 0, 3, Insert(SECOND), BOTH), 2, Loose) == SH2
  {
    var after := Unref(Written(sh, 0, 1, 0, 3, Insert(SECOND), BOTH), 2, Loose);
    assert after.heap == SH2.heap;
    assert after.cells[0] == CELL2;
    assert after.cells == SH2.cells;
  }

  /** The dispatch has called the first handler. */
  const CALLER: Thread := Thread([Fallback(0, 3, 0, 1, 2, 2, BOTH, 1, true), Handler(0, 1)], Idle, 1)

  lemma {:induction false} FirstIsCalled()
    ensures Reachable(State(Entered(SH2, 1), THREADS[1 := CALLER]))
  {
    hide Reachable;
    BothRegistered();
    EnterFallback(SH2, THREADS, 1);
    var sh, th := Entered(SH2, 1), Reader(SH2);
    assert Push(SetTop(th, CALLER.frames[0]), Handler(0, 1)) == CALLER;
    Go(sh, THREADS[1 := th], 1, CallHandler, sh, CALLER);
    assert THREADS[1 := th][1 := CALLER] == THREADS[1 := CALLER];
  }

  lemma {:induction false} TakesSecond()
    ensures Apply(BOTH, Remove(2)) == Some([HANDLER])
  {
    assert BOTH[0].id == 1 && BOTH[1].id == 2;
    assert IndexOf(BOTH, 2) == 1;
    assert RemoveAt(BOTH, 1) == [HANDLER];
  }

  /** It has removed the second and its wait is about to return; the second is still to be called. */
  lemma {:induction false} RemovedIsStillToRun() returns (s: State, w: Waiter)
    ensures Reachable(s) && 1 in s.threads && 0 in s.sh.cells && Returning(s.threads[1], w) && w.c == 0
    ensures Lost(s.sh.cells[0].log, 2, 2, 3) && 3 <= w.floor
    ensures s.threads[1].frames == CALLER.frames && StillToRun(CALLER.frames, 0, 2, 0)
  {
    hide Reachable, Unref, Lost;
    FirstIsCalled();
    var sh, threads := Entered(SH2, 1), THREADS[1 := CALLER];
    var th := SetOp(CALLER, Locking(0, Remove(2)));
    Quietly(sh, threads, 1, BeginWrite(0, Remove(2)), th);
    TakesSecond();
    hide Apply;
    WholeWrite(sh, threads[1 := th], 1, th, 0, 4, [HANDLER]);
    assert threads[1 := th][1 := CALLER] == threads;
    var after := Unref(Written(sh, 0, 1, 2, 4, Remove(2), [HANDLER]), 3, Loose);
    AfterRemoval(sh, after);
    s, w := Waited(after, threads, CALLER);
    assert BOTH[1..][0].id == 2;
  }

  lemma {:induction false} AfterRemoval(sh: Shared, after: Shared)
    requires sh == Entered(SH2, 1) && after == Unref(Written(sh, 0, 1, 2, 4, Remove(2), [HANDLER]), 3, Loose)
    ensures IsOpen(after, 0) && after.cells[0].current == 4 && 4 in after.heap && after.cells[0].lock.Nobody?
    ensures after.cells[0].retired == [] && after.cells[0].retiredLen == 0
    ensures Hist(after.cells[0]) == [[], [HANDLER], BOTH, [HANDLER]] && Lost(after.cells[0].log, 2, 2, 3)
  {
    assert BOTH[1].id == 2;
  }

  /** So a handler that `unregister_and_wait` has removed can run after the call has returned. */
  lemma {:induction false} RemovedHandlerRunsLater() returns (run: seq<State>, q: nat, w: Waiter)
    ensures IsRun(run) && q + 1 < |run| && 1 in run[q].threads && Returning(run[q].threads[1], w) && w.c == 0
    ensures 0 in run[q].sh.cells && Lost(run[q].sh.cells[0].log, 2, 2, 3) && 3 <= w.floor
    ensures Handler(0, 2) !in run[q].threads[1].frames
    ensures 1 in Last(run).threads && Handler(0, 2) in Last(run).threads[1].frames
  {
    var s;
    s, w := RemovedIsStillToRun();
    var before :| EndsIn(before, s);
    q := |before| - 1;
    run := RunsAgain(before, 1, 0, 2);
  }
}
