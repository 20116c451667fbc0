/** Why a waiting removal promises less to a caller inside a fallback read: a run in which such a call
    returns while another thread is still inside a fallback read of the removed handler. */
module SnapWaitGap {
  import opened HandlerList
  import opened HazardDomain
  import opened SnapCell
  import opened SnapWait
  import opened SnapReach
  import L = RegistryLog

  /** The state after thread `t`, with no thread-local storage, has entered a read of the cell. */
  function Entered(sh: Shared, t: Tid): Shared
    requires IsOpen(sh, 0) && sh.cells[0].current in sh.heap
  {
    var x := sh.cells[0];
    var tok, v := sh.nextTok, Newest(x);
    Ref(SetCell(sh, 0, x.(fallbackReaders := x.fallbackReaders + 1,
        counted := x.counted[tok := Counted(t, 0, Reading(v))])), x.current)
    .(handles := sh.handles[tok + 1 := Handle(x.current, 0, v, Held(t, 0))], nextTok := tok + 2)
  }

  function Reader(sh: Shared): Thread
    requires IsOpen(sh, 0) && sh.cells[0].current in sh.heap
  {
    var x := sh.cells[0];
    Thread([Fallback(0, x.current, sh.nextTok, sh.nextTok + 1, Newest(x), Newest(x), sh.heap[x.current].list, 0,
        true)], Idle, 1)
  }

  lemma {:induction false} Uncovered(sh: Shared, threads: map<Tid, Thread>, t: Tid)
    requires Calm(sh, threads, t, Thread([], Idle, 0), 0) && t in sh.dom.locals && !sh.dom.locals[t].tls
    ensures Reachable(State(sh, threads[t := Thread([], Counting(Call(0, Notify, Newest(sh.cells[0]))), 0)]))
  {
    var x := sh.cells[0];
    var call := Call(0, Notify, Newest(x));
    var th1, th2, th3 := Thread([], Loading(call), 0), Thread([], Pinning(call, x.current), 0),
        Thread([], Counting(call), 0);
    Quietly(sh, threads, t, BeginRead(0, Notify), th1);
    Quietly(sh, threads[t := th1], t, LoadCurrent(x.current), th2);
    assert threads[t := th1][t := th2] == threads[t := th2];
    Quietly(sh, threads[t := th2], t, PinFails, th3);
    assert threads[t := th2][t := th3] == threads[t := th3];
  }

  /** The fallback reader is counted and has the lock. */
  lemma {:induction false} CountedIn(sh: Shared, threads: map<Tid, Thread>, t: Tid, call: Call)
    requires Calm(sh, threads, t, Thread([], Counting(call), 0), 0) && call.c == 0 && call.use.Notify?
    ensures var x := sh.cells[0];
            var y := x.(fallbackReaders := x.fallbackReaders + 1, lock := By(t),
                counted := x.counted[sh.nextTok := Counted(t, 0, Waiting)]);
            Reachable(State(SetCell(sh.(nextTok := sh.nextTok + 1), 0, y),
                threads[t := Thread([], FbCloning(call, sh.nextTok), 1)]))
  {
    hide Reachable;
    var x, tok := sh.cells[0], sh.nextTok;
    var x1 := x.(fallbackReaders := x.fallbackReaders + 1, counted := x.counted[tok := Counted(t, 0, Waiting)]);
    var sh1, th4 := SetCell(sh.(nextTok := tok + 1), 0, x1), Thread([], FbLocking(call, tok), 1);
    Go(sh, threads, t, Count, sh1, th4);
    var sh2, th5 := SetCell(sh1, 0, x1.(lock := By(t))), Thread([], FbCloning(call, tok), 1);
    Go(sh1, threads[t := th4], t, FbLock, sh2, th5);
    assert threads[t := th4][t := th5] == threads[t := th5];
    assert sh2 == SetCell(sh.(nextTok := tok + 1), 0, x1.(lock := By(t)));
  }

  /** From the lock to the frame. */
  lemma {:induction false} Cloned(sh: Shared, threads: map<Tid, Thread>, t: Tid, call: Call, tok: Tok)
    requires Reachable(State(sh, threads)) && t in threads && threads[t] == Thread([], FbCloning(call, tok), 1)
    requires call.c == 0 && call.use.Notify? && IsOpen(sh, 0) && sh.cells[0].current in sh.heap
    ensures var x := sh.cells[0]; var v := Newest(x);
            var y := x.(lock := Nobody, counted := x.counted[tok := Counted(t, 0, Reading(v))]);
            var after := SetCell(Ref(sh, x.current), 0, y)
              .(handles := sh.handles[sh.nextTok := Handle(x.current, 0, v, Held(t, 0))], nextTok := sh.nextTok + 1);
            var th := Thread([Fallback(0, x.current, tok, sh.nextTok, v, call.since, sh.heap[x.current].list, 0,
                true)], Idle, 1);
            Reachable(State(after, threads[t := th]))
  {
    hide Reachable;
    var x, arc := sh.cells[0], sh.nextTok;
    var v := Newest(x);
    var x1 := x.(counted := x.counted[tok := Counted(t, 0, Reading(v))]);
    var sh1 := SetCell(Ref(sh, x.current), 0, x1).(handles := sh.handles[arc := Handle(x.current, 0, v, Held(t, 0))],
        nextTok := arc + 1);
    var th1 := Thread([], FbUnlocking(call, tok, arc, x.current, v), 1);
    Go(sh, threads, t, FbClone, sh1, th1);
    var sh2 := SetCell(sh1, 0, x1.(lock := Nobody));
    var th := Thread([Fallback(0, x.current, tok, arc, v, call.since, sh.heap[x.current].list, 0, true)], Idle, 1);
    assert Push(th1, th.frames[0]) == th;
    Go(sh1, threads[t := th1], t, FbUnlock, sh2, th);
    assert threads[t := th1][t := th] == threads[t := th];
    assert sh2 == SetCell(Ref(sh, x.current), 0, x1.(lock := Nobody)).(handles := sh1.handles, nextTok := arc + 1);
  }

  lemma {:induction false} EnterFallback(sh: Shared, threads: map<Tid, Thread>, t: Tid)
    requires Calm(sh, threads, t, Thread([], Idle, 0), 0) && t in sh.dom.locals && !sh.dom.locals[t].tls
    ensures Reachable(State(Entered(sh, t), threads[t := Reader(sh)]))
  {
    hide Reachable;
    var x, tok := sh.cells[0], sh.nextTok;
    var call := Call(0, Notify, Newest(x));
    var th1, th2 := Thread([], Counting(call), 0), Thread([], FbCloning(call, tok), 1);
    Uncovered(sh, threads, t);
    CountedIn(sh, threads[t := th1], t, call);
    assert threads[t := th1][t := th2] == threads[t := th2];
    var y := x.(fallbackReaders := x.fallbackReaders + 1, lock := By(t),
        counted := x.counted[tok := Counted(t, 0, Waiting)]);
    var mid := SetCell(sh.(nextTok := tok + 1), 0, y);
    Cloned(mid, threads[t := th2], t, call, tok);
    assert threads[t := th2][t := Reader(sh)] == threads[t := Reader(sh)];
    assert y.counted[tok := Counted(t, 0, Reading(Newest(x)))] == x.counted[tok := Counted(t, 0, Reading(Newest(x)))];
    var z := y.(lock := Nobody, counted := x.counted[tok := Counted(t, 0, Reading(Newest(x)))]);
    assert mid.cells[0 := z] == Entered(sh, t).cells;
  }

  // ----- the run ------------------------------------------------------------------------------

  const HANDLER: Entry := Entry(1, 0, false)

  const TORN: Local := Local(false, NULL, Resting)

  /** Two threads whose thread-local storage is gone; neither ever had a record. */
  const DOM: Domain := Domain(map[], NULL, [], map[1 := TORN, 2 := TORN], 0)

  lemma {:induction false} BothTorn()
    ensures Reachable(State(Shared(DOM, map[], map[], map[], 0), map[1 := IDLE, 2 := IDLE]))
  {
    hide Reachable;
    TwoThreads();
    var threads := map[1 := IDLE, 2 := IDLE];
    assert threads[1 := IDLE] == threads && threads[2 := IDLE] == threads;
    var one := TWO_LIVE.(locals := map[1 := TORN, 2 := LIVE]);
    assert TWO_LIVE.locals[1 := TORN] == one.locals && one.locals[2 := TORN] == DOM.locals;
    Go(Shared(TWO_LIVE, map[], map[], map[], 0), threads, 1, Hazards(BeginExit), Shared(one, map[], map[], map[], 0),
        IDLE);
    Go(Shared(one, map[], map[], map[], 0), threads, 2, Hazards(BeginExit), Shared(DOM, map[], map[], map[], 0), IDLE);
  }

  const NEW_CELL: Cell := Cell(true, 1, [], 0, 0, Nobody, 0, false, map[], L.FRESH, [1], [0])

  /** The cell with one handler registered. */
  const LOG1: L.Log := L.Commit(L.Draw(L.FRESH, 1, false), Insert(HANDLER), [HANDLER])

  const CELL1: Cell := Cell(true, 2, [], 0, 0, Nobody, 0, false, map[], LOG1, [NULL, 2], [1, 0])

  const SH1: Shared := Shared(DOM, map[0 := CELL1], map[2 := Obj(0, 1, [HANDLER], 1, Current)], map[], 0)

  lemma {:induction false} Registered()
    ensures Reachable(State(SH1, map[1 := IDLE, 2 := IDLE]))
  {
    hide Reachable;
    var threads := map[1 := IDLE, 2 := IDLE];
    BothTorn();
    var sh0 := Shared(DOM, map[], map[], map[], 0);
    var obj := Obj(0, 0, [], 1, Current);
    var sh1 := Shared(DOM, map[0 := NEW_CELL], map[1 := obj], map[], 0);
    Go(sh0, threads, 1, OpenCell(0, 1), sh1, IDLE);
    assert threads[1 := IDLE] == threads;
    var x := NEW_CELL.(log := L.Draw(L.FRESH, 1, false));
    var sh2 := Shared(DOM, map[0 := x], map[1 := obj], map[], 0);
    var th := Thread([], Locking(0, Insert(HANDLER)), 0);
    assert sh1.cells[0 := x] == map[0 := x];
    Go(sh1, threads, 1, DrawId(0, 0, false), sh2, th);
    assert Apply([], Insert(HANDLER)) == Some([HANDLER]) by { assert InsertAt([], 0, HANDLER) == [HANDLER]; }
    WholeWrite(sh2, threads[1 := th], 1, th, 0, 2, [HANDLER]);
    assert threads[1 := th][1 := IDLE] == threads;
    var written := Written(sh2, 0, 1, 0, 2, Insert(HANDLER), [HANDLER]);
    RegisteredHeap(sh2, written);
  }

  lemma {:induction false} RegisteredHeap(sh2: Shared, written: Shared)
    requires sh2 == Shared(DOM, map[0 := NEW_CELL.(log := L.Draw(L.FRESH, 1, false))],
             map[1 := Obj(0, 0, [], 1, Current)], map[], 0)
    requires written == Written(sh2, 0, 1, 0, 2, Insert(HANDLER), [HANDLER])
    ensures Unref(written, 1, Loose) == SH1
  {
    var after := Unref(written, 1, Loose);
    assert after.heap == SH1.heap;
    assert after.cells[0] == CELL1;
    assert after.cells == SH1.cells;
  }

  /** A caller inside a fallback read has removed the handler and its wait is about to return, while the
      other thread is inside a fallback read of a list with the handler. */
  lemma {:induction false} FallbackCallerIsNotPromised() returns (s: State, w: Waiter)
    ensures Reachable(s) && 1 in s.threads && 2 in s.threads && 0 in s.sh.cells
    ensures Returning(s.threads[1], w) && w.c == 0 && w.onFallback
    ensures Lost(s.sh.cells[0].log, 1, 1, 2) && 2 <= w.floor
    ensures |s.threads[2].frames| == 1 && s.threads[2].frames[0].Fallback? && s.threads[2].frames[0].c == 0
    ensures HasId(s.threads[2].frames[0].seen, 1)
  {
    hide Reachable;
    Registered();
    var threads := map[1 := IDLE, 2 := IDLE];
    EnterFallback(SH1, threads, 2);
    var sh2, reader2 := Entered(SH1, 2), Reader(SH1);
    var threads2 := threads[2 := reader2];
    EnterFallback(sh2, threads2, 1);
    var sh3, reader1 := Entered(sh2, 1), Reader(sh2);
    var threads3 := threads2[1 := reader1];
    s, w := Removed(sh3, threads3, reader1, reader2);
  }

  lemma {:induction false} Removed(
    sh: Shared, threads: map<Tid, Thread>, caller: Thread, other: Thread) returns (s: State, w: Waiter)
    requires Calm(sh, threads, 1, caller, 0) && 2 in threads && threads[2] == other && caller.op.Idle?
    requires caller.fallbackDepth == 1
    requires |other.frames| == 1 && other.frames[0].Fallback? && other.frames[0].c == 0
    requires other.frames[0].seen == [HANDLER]
    requires sh.heap[sh.cells[0].current].list == [HANDLER] && sh.heap[sh.cells[0].current].strong == 3 && 3 !in sh.heap
    requires sh.cells[0].log.hist == [[], [HANDLER]] && sh.dom.head == NULL
    ensures Reachable(s) && 1 in s.threads && 2 in s.threads && 0 in s.sh.cells
    ensures Returning(s.threads[1], w) && w.c == 0 && w.onFallback
    ensures Lost(s.sh.cells[0].log, 1, 1, 2) && 2 <= w.floor
    ensures |s.threads[2].frames| == 1 && s.threads[2].frames[0].Fallback? && s.threads[2].frames[0].c == 0
    ensures HasId(s.threads[2].frames[0].seen, 1)
  {
    hide Reachable;
    var th1 := SetOp(caller, Locking(0, Remove(1)));
    Quietly(sh, threads, 1, BeginWrite(0, Remove(1)), th1);
    assert Apply([HANDLER], Remove(1)) == Some([]) by { assert RemoveAt([HANDLER], 0) == []; }
    hide Apply;
    WholeWrite(sh, threads[1 := th1], 1, th1, 0, 3, []);
    assert threads[1 := th1][1 := caller] == threads;
    var after := Unref(Written(sh, 0, 1, |caller.frames|, 3, Remove(1), []), sh.cells[0].current, Loose);
    StillHeld(sh, after, |caller.frames|);
    hide Unref, Written;
    s, w := Waited(after, threads, caller);
    assert [HANDLER][0].id == 1;
  }

  /** Dropping the replaced list leaves it to the two fallback readers. */
  lemma {:induction false} StillHeld(sh: Shared, after: Shared, n: nat)
    requires IsOpen(sh, 0) && sh.cells[0].current in sh.heap && sh.heap[sh.cells[0].current].strong == 3
    requires 3 !in sh.heap
    requires sh.cells[0].log.hist == [[], [HANDLER]]
    requires after == Unref(Written(sh, 0, 1, n, 3, Remove(1), []), sh.cells[0].current, Loose)
    ensures after.dom == sh.dom && 0 in after.cells && after.cells[0].current == 3 && 3 in after.heap
    ensures after.cells[0].log.hist == [[], [HANDLER], []]
    ensures after.cells[0] == sh.cells[0].(current := 3, log := after.cells[0].log, home := after.cells[0].home,
            frees := after.cells[0].frees)
  {
  }

  lemma {:induction false} Waited(sh: Shared, threads: map<Tid, Thread>, caller: Thread) returns (s: State, w: Waiter)
    requires Calm(sh, threads, 1, caller, 0) && caller.op.Idle? && caller.fallbackDepth == 1
    ensures w == Waiter(0, true, Newest(sh.cells[0])) && Reachable(s)
    ensures s == State(sh, threads[1 := SetOp(caller, WaitNext(w, []))])
  {
    hide Reachable;
    w := Waiter(0, true, Newest(sh.cells[0]));
    var th1, th2, th3 := SetOp(caller, WaitCheck(w)), SetOp(caller, WaitCopy(w)), SetOp(caller, WaitNext(w, []));
    Quietly(sh, threads, 1, BeginWait(0), th1);
    Quietly(sh, threads[1 := th1], 1, SeeNoFallback, th2);
    assert threads[1 := th1][1 := th2] == threads[1 := th2];
    Quietly(sh, threads[1 := th2], 1, CopyRetired, th3);
    assert threads[1 := th2][1 := th3] == threads[1 := th3];
    s := State(sh, threads[1 := th3]);
  }
}
