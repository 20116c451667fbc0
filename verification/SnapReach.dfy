/** States shown to be reachable, one step after another, and a whole write. */
module SnapReach {
  import opened HandlerList
  import opened HazardDomain
  import opened SnapCell
  import opened SnapSafety
  import L = RegistryLog

  // ----- reaching states ---------------------------------------------------------------------

  ghost predicate EndsIn(run: seq<State>, s: State) { IsRun(run) && run[|run| - 1] == s }

  ghost predicate Reachable(s: State) { exists run :: EndsIn(run, s) }

  lemma {:induction false} TakeStep(s: State, t: Tid, step: SnapCell.Step)
    requires Reachable(s) && CanStep(s, t, step)
    ensures Reachable(DoStep(s, t, step))
  {
    hide CanStep, DoStep;
    var run :| EndsIn(run, s);
    Extended(run, t, step);
    assert EndsIn(run + [DoStep(s, t, step)], DoStep(s, t, step));
  }

  /** A step of `t`, its outcome spelled out. */
  lemma {:induction false} Go(
    sh: Shared, threads: map<Tid, Thread>, t: Tid, step: SnapCell.Step, after: Shared, th: Thread)
    requires Reachable(State(sh, threads)) && t in threads && CanThread(sh, t, threads[t], step)
    requires !step.Spawn? && !step.CloseCell?
    requires DoThread(sh, t, threads[t], step) == (after, th)
    ensures Reachable(State(after, threads[t := th]))
  {
    hide CanThread, DoThread, Reachable;
    TakeStep(State(sh, threads), t, step);
  }

  /** A step that changes only the thread's operation. */
  lemma {:induction false} Quietly(sh: Shared, threads: map<Tid, Thread>, t: Tid, q: QuietStep, th: Thread)
    requires Reachable(State(sh, threads)) && t in threads && CanQuiet(sh, t, threads[t], q)
    requires DoQuiet(sh, t, threads[t], q) == th
    ensures Reachable(State(sh, threads[t := th]))
  {
    hide CanQuiet, DoQuiet, Reachable;
    Go(sh, threads, t, Quiet(q), sh, th);
  }

  // ----- a whole write, a whole entry into a fallback read --------------------------------------

  /** The state after a write of `next` at `a`, before the replaced list is dropped. */
  function Written(sh: Shared, c: Cid, t: Tid, n: nat, a: Addr, req: Request, next: seq<Entry>): Shared
    requires c in sh.cells && sh.cells[c].current in sh.heap
  {
    var x := sh.cells[c];
    var prev := sh.heap[x.current].(place := Taken(t, n));
    sh.(cells := sh.cells[c :=
        x.(current := a, log := L.Commit(x.log, req, next), home := x.home + [a], frees := x.frees + [0])],
        heap := sh.heap[x.current := prev][a := Obj(c, |Hist(x)|, next, 1, Current)])
  }

  ghost predicate Calm(sh: Shared, threads: map<Tid, Thread>, t: Tid, th: Thread, c: Cid) {
    && Reachable(State(sh, threads)) && t in threads && threads[t] == th
    && IsOpen(sh, c) && sh.cells[c].lock.Nobody? && sh.cells[c].retired == [] && sh.cells[c].retiredLen == 0
    && sh.cells[c].current in sh.heap && sh.cells[c].current != NULL
  }

  lemma {:induction false} Swap(
    sh: Shared, threads: map<Tid, Thread>, t: Tid, th: Thread, c: Cid, a: Addr, next: seq<Entry>)
    requires Calm(sh, threads, t, th, c) && th.op.Locking? && th.op.c == c && a != NULL && a !in sh.heap
    requires Apply(sh.heap[sh.cells[c].current].list, th.op.req) == Some(next)
    ensures var x := sh.cells[c];
            var held := Install(SetCell(sh, c, x.(lock := By(t))), c, a, th.op.req, next);
            Reachable(State(held, threads[t := SetOp(th, ScanStart(c))]))
  {
    var x := sh.cells[c];
    var sh1, th1 := SetCell(sh, c, x.(lock := By(t))), SetOp(th, Writing(c, th.op.req));
    Go(sh, threads, t, Lock, sh1, th1);
    var threads1 := threads[t := th1];
    var held := Install(sh1, c, a, th.op.req, next);
    Go(sh1, threads1, t, Write(a), held, SetOp(th, ScanStart(c)));
    assert threads1[t := SetOp(th, ScanStart(c))] == threads[t := SetOp(th, ScanStart(c))];
  }

  lemma {:induction false} Collected(held: Shared, threads: map<Tid, Thread>, t: Tid, th: Thread, c: Cid, prev: Addr)
    requires Reachable(State(held, threads)) && t in threads && threads[t] == th && th.op == ScanStart(c)
    requires c in held.cells && held.cells[c].retired == [prev] && held.dom.head == NULL
    ensures var after := SetCell(held, c,
            held.cells[c].(retired := [])).(heap := MoveOut(held.heap, [prev], Taken(t, |th.frames|)));
            Reachable(State(after, threads[t := SetOp(th, Storing(c, [prev]))]))
  {
    var th1 := SetOp(th, Scanning(c, NULL, 0, []));
    Quietly(held, threads, t, StartScan, th1);
    var after := SetCell(held, c,
        held.cells[c].(retired := [])).(heap := MoveOut(held.heap, [prev], Taken(t, |th.frames|)));
    var threads1 := threads[t := th1];
    Go(held, threads1, t, Collect([], [prev]), after, SetOp(th, Storing(c, [prev])));
    assert threads1[t := SetOp(th, Storing(c, [prev]))] == threads[t := SetOp(th, Storing(c, [prev]))];
  }

  lemma {:induction false} Unlocked(sh: Shared, threads: map<Tid, Thread>, t: Tid, th: Thread, c: Cid, prev: Addr)
    requires Reachable(State(sh, threads)) && t in threads && threads[t] == th && th.op == Storing(c, [prev])
    requires c in sh.cells
    ensures var x := sh.cells[c];
            var after := SetCell(sh, c, x.(retiredLen := |x.retired|, lock := Nobody));
            Reachable(State(after, threads[t := Push(th, Dropping([prev]))]))
  {
    hide Reachable;
    var x := sh.cells[c];
    var sh1, th1 := SetCell(sh, c, x.(retiredLen := |x.retired|)), SetOp(th, Unlocking(c, [prev]));
    Go(sh, threads, t, StoreLen, sh1, th1);
    var sh2, th2 := SetCell(sh1, c, sh1.cells[c].(lock := Nobody)), Push(th, Dropping([prev]));
    Go(sh1, threads[t := th1], t, Unlock, sh2, th2);
    assert threads[t := th1][t := th2] == threads[t := th2];
    assert sh2 == SetCell(sh, c, x.(retiredLen := |x.retired|, lock := Nobody));
  }

  lemma {:induction false} Dropped(sh: Shared, threads: map<Tid, Thread>, t: Tid, th: Thread, prev: Addr)
    requires Reachable(State(sh, threads)) && t in threads && threads[t] == Push(th, Dropping([prev]))
    requires prev in sh.heap
    ensures Reachable(State(Unref(sh, prev, Loose), threads[t := SetOp(th, Idle)]))
  {
    hide Reachable, Unref;
    assert Pop(threads[t], Idle) == SetOp(th, Idle);
    Go(sh, threads, t, DropOne, Unref(sh, prev, Loose), SetOp(th, Idle));
  }

  /** The writer's collection and unlock leave the state `Written` describes. */
  lemma {:induction false} WrittenIs(
    sh: Shared, c: Cid, t: Tid, n: nat, a: Addr, req: Request, next: seq<Entry>, held: Shared, after: Shared)
    requires c in sh.cells && sh.cells[c].current in sh.heap && a !in sh.heap && sh.cells[c].lock.Nobody?
    requires sh.cells[c].retired == [] && sh.cells[c].retiredLen == 0
    requires held == Install(SetCell(sh, c, sh.cells[c].(lock := By(t))), c, a, req, next)
    requires after == SetCell(held, c, held.cells[c].(retired := []))
      .(heap := MoveOut(held.heap, [sh.cells[c].current], Taken(t, n)))
    ensures SetCell(after, c, after.cells[c].(retiredLen := 0, lock := Nobody)) == Written(sh, c, t, n, a, req, next)
  {
    var done, w := SetCell(after, c, after.cells[c].(retiredLen := 0, lock := Nobody)),
        Written(sh, c, t, n, a, req, next);
    assert done.cells == w.cells;
    assert done.heap == w.heap;
  }

  /** A whole write, with no record published. */
  lemma {:induction false} WholeWrite(
    sh: Shared, threads: map<Tid, Thread>, t: Tid, th: Thread, c: Cid, a: Addr, next: seq<Entry>)
    requires Calm(sh, threads, t, th, c) && th.op.Locking? && th.op.c == c && a != NULL && a !in sh.heap
    requires Apply(sh.heap[sh.cells[c].current].list, th.op.req) == Some(next) && sh.dom.head == NULL
    ensures var after := Unref(Written(sh, c, t, |th.frames|, a, th.op.req, next), sh.cells[c].current, Loose);
            Reachable(State(after, threads[t := SetOp(th, Idle)]))
  {
    hide Unref, Reachable, Apply, MoveOut;
    var x := sh.cells[c];
    var prev := x.current;
    var held := Install(SetCell(sh, c, x.(lock := By(t))), c, a, th.op.req, next);
    var th1, th2, th3 := SetOp(th, ScanStart(c)), SetOp(th, Storing(c, [prev])), SetOp(th, Idle);
    Swap(sh, threads, t, th, c, a, next);
    Collected(held, threads[t := th1], t, th1, c, prev);
    assert threads[t := th1][t := th2] == threads[t := th2];
    var after := SetCell(held, c,
        held.cells[c].(retired := [])).(heap := MoveOut(held.heap, [prev], Taken(t, |th.frames|)));
    Unlocked(after, threads[t := th2], t, th2, c, prev);
    var th4 := Push(th2, Dropping([prev]));
    assert threads[t := th2][t := th4] == threads[t := th4] && threads[t := th4][t := th3] == threads[t := th3];
    WrittenIs(sh, c, t, |th.frames|, a, th.op.req, next, held, after);
    Dropped(Written(sh, c, t, |th.frames|, a, th.op.req, next), threads[t := th4], t, th2, prev);
  }

  // ----- two threads ----------------------------------------------------------------------------

  const IDLE: Thread := Thread([], Idle, 0)

  const LIVE: Local := Local(true, NULL, Resting)

  const TWO_LIVE: Domain := Domain(map[], NULL, [], map[1 := LIVE, 2 := LIVE], 0)

  lemma {:induction false} TwoThreads()
    ensures Reachable(State(Shared(TWO_LIVE, map[], map[], map[], 0), map[1 := IDLE, 2 := IDLE]))
  {
    assert EndsIn([EMPTY_STATE], EMPTY_STATE);
    TakeStep(EMPTY_STATE, 1, SnapCell.Spawn);
    var s1 := DoStep(EMPTY_STATE, 1, SnapCell.Spawn);
    TakeStep(s1, 2, SnapCell.Spawn);
    var s2 := DoStep(s1, 2, SnapCell.Spawn);
    assert s2.sh.dom.locals == TWO_LIVE.locals;
    assert s2.threads == map[1 := IDLE, 2 := IDLE];
  }
}
