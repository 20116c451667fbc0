/** Why prompt reclamation also needs announcements to be validated: a run in which a write completes
    with nobody else in its cell and yet keeps a list, because a reader of another cell has announced a
    stale address that the list has been given since. */
module SnapReclaimGap {
  import opened HandlerList
  import opened HazardDomain
  import opened SnapCell
  import opened SnapReach
  import L = RegistryLog

  const FIRST: Entry := Entry(1, 0, false)

  const SECOND: Entry := Entry(2, 0, false)

  /** A cell just made, at the given address. */
  function Fresh(a: Addr): Cell { Cell(true, a, [], 0, 0, Nobody, 0, false, map[], L.FRESH, [a], [0]) }

  const TWO_CELLS: Shared :=
    Shared(TWO_LIVE, map[0 := Fresh(1), 1 := Fresh(2)],
        map[1 := Obj(0, 0, [], 1, Current), 2 := Obj(1, 0, [], 1, Current)], map[], 0)

  lemma {:induction false} TwoCells()
    ensures Reachable(State(TWO_CELLS, map[1 := IDLE, 2 := IDLE]))
  {
    hide Reachable;
    TwoThreads();
    var threads := map[1 := IDLE, 2 := IDLE];
    var sh0 := Shared(TWO_LIVE, map[], map[], map[], 0);
    var sh1 := Shared(TWO_LIVE, map[0 := Fresh(1)], map[1 := Obj(0, 0, [], 1, Current)], map[], 0);
    Go(sh0, threads, 1, OpenCell(0, 1), sh1, IDLE);
    assert threads[1 := IDLE] == threads;
    assert sh1.cells[1 := Fresh(2)] == TWO_CELLS.cells;
    assert sh1.heap[2 := Obj(1, 0, [], 1, Current)] == TWO_CELLS.heap;
    Go(sh1, threads, 1, OpenCell(1, 2), TWO_CELLS, IDLE);
  }

  /** The reader of cell 1 holds the address of its first list, not yet announced. */
  const READER: Thread := Thread([], Pinning(Call(1, Look, 0), 2), 0)

  lemma {:induction false} ReaderLoads()
    ensures Reachable(State(TWO_CELLS, map[1 := IDLE, 2 := READER]))
  {
    hide Reachable;
    TwoCells();
    var threads := map[1 := IDLE, 2 := IDLE];
    var th := Thread([], Loading(Call(1, Look, 0)), 0);
    Quietly(TWO_CELLS, threads, 2, BeginRead(1, Look), th);
    Quietly(TWO_CELLS, threads[2 := th], 2, LoadCurrent(2), READER);
    assert threads[2 := th][2 := READER] == map[1 := IDLE, 2 := READER];
  }

  /** A cell after one registration, its first list freed. */
  function Registered(a: Addr): Cell {
    Cell(true, a, [], 0, 0, Nobody, 0, false, map[],
         L.Commit(L.Draw(L.FRESH, 1, false), Insert(FIRST), [FIRST]), [NULL, a], [1, 0])
  }

  /** One registration by thread 1 in a cell just made: the first list is freed at once. */
  lemma {:induction false} Registers(sh: Shared, c: Cid, prev: Addr, a: Addr)
    requires Reachable(State(sh, map[1 := IDLE, 2 := READER])) && c in sh.cells && sh.cells[c] == Fresh(prev)
    requires sh.dom == TWO_LIVE && prev in sh.heap && sh.heap[prev] == Obj(c, 0, [], 1, Current) && prev != NULL
    requires a != NULL && a !in sh.heap
    ensures var after := sh.(cells := sh.cells[c := Registered(a)],
                             heap := (sh.heap - {prev})[a := Obj(c, 1, [FIRST], 1, Current)]);
            Reachable(State(after, map[1 := IDLE, 2 := READER]))
  {
    hide Reachable;
    var threads := map[1 := IDLE, 2 := READER];
    var sh1 := SetCell(sh, c, Fresh(prev).(log := L.Draw(L.FRESH, 1, false)));
    var th := Thread([], Locking(c, Insert(FIRST)), 0);
    Go(sh, threads, 1, DrawId(c, 0, false), sh1, th);
    assert Apply([], Insert(FIRST)) == Some([FIRST]) by { assert InsertAt([], 0, FIRST) == [FIRST]; }
    hide Apply;
    WholeWrite(sh1, threads[1 := th], 1, th, c, a, [FIRST]);
    assert threads[1 := th][1 := IDLE] == threads;
    FirstIsFreed(sh, sh1, c, prev, a);
  }

  lemma {:induction false} FirstIsFreed(sh: Shared, sh1: Shared, c: Cid, prev: Addr, a: Addr)
    requires c in sh.cells && sh.cells[c] == Fresh(prev) && prev in sh.heap
    requires sh.heap[prev] == Obj(c, 0, [], 1, Current)
    requires sh1 == SetCell(sh, c, Fresh(prev).(log := L.Draw(L.FRESH, 1, false))) && a !in sh.heap
    ensures Unref(Written(sh1, c, 1, 0, a, Insert(FIRST), [FIRST]), prev, Loose)
         == sh.(cells := sh.cells[c := Registered(a)], heap := (sh.heap - {prev})[a := Obj(c, 1, [FIRST], 1, Current)])
  {
    var w := Written(sh1, c, 1, 0, a, Insert(FIRST), [FIRST]);
    var after := Unref(w, prev, Loose);
    assert after.cells[c] == Registered(a);
    assert after.cells == sh.cells[c := Registered(a)];
    assert after.heap == (sh.heap - {prev})[a := Obj(c, 1, [FIRST], 1, Current)];
  }

  /** Cell 1 has moved on to address 3, and cell 0 has been given the address the reader still holds. */
  const REUSED: Shared :=
    Shared(TWO_LIVE, map[0 := Registered(2), 1 := Registered(3)],
           map[2 := Obj(0, 1, [FIRST], 1, Current), 3 := Obj(1, 1, [FIRST], 1, Current)], map[], 0)

  lemma {:induction false} AddressIsReused()
    ensures Reachable(State(REUSED, map[1 := IDLE, 2 := READER]))
  {
    hide Reachable;
    ReaderLoads();
    Registers(TWO_CELLS, 1, 2, 3);
    var mid := TWO_CELLS.(cells := TWO_CELLS.cells[1 := Registered(3)],
                          heap := (TWO_CELLS.heap - {2})[3 := Obj(1, 1, [FIRST], 1, Current)]);
    Registers(mid, 0, 1, 2);
    assert mid.cells[0 := Registered(2)] == REUSED.cells;
    assert (mid.heap - {1})[2 := Obj(0, 1, [FIRST], 1, Current)] == REUSED.heap;
  }

  // ----- the stale announcement ---------------------------------------------------------------------

  const STALE: Record := Record([Slot(2, Claimed)] + BLANK[1..], true, NULL, By(2), 0)

  const DOM2: Domain := Domain(map[1 := STALE], 1, [1], map[1 := LIVE, 2 := Local(true, 1, Resting)], 1)

  const PINNED: Thread := Thread([], Validating(Call(1, Look, 0), 2, 0), 0)

  const ANNOUNCED: Shared := REUSED.(dom := DOM2)

  /** A step of thread 2 inside `acquire_record`. */
  lemma {:induction false} Acquiring2(d: Domain, step: HazardDomain.Step, e: Domain)
    requires Reachable(State(REUSED.(dom := d), map[1 := IDLE, 2 := READER])) && Can(d, 2, step) && Do(d, 2, step) == e
    requires step.Enter? || step.LoadHead? || step.Allocate? || step.Publish?
    ensures Reachable(State(REUSED.(dom := e), map[1 := IDLE, 2 := READER]))
  {
    hide Reachable, Can, Do;
    var threads := map[1 := IDLE, 2 := READER];
    assert threads[2 := READER] == threads;
    Go(REUSED.(dom := d), threads, 2, Hazards(step), REUSED.(dom := e), READER);
  }

  const NEW_RECORD: Record := Record(BLANK, true, NULL, By(2), -1)

  lemma {:induction false} Acquires()
    ensures Reachable(State(REUSED.(dom := DOM2.(recs := map[1 := NEW_RECORD.(rank := 0)])),
            map[1 := IDLE, 2 := READER]))
  {
    hide Reachable, Active;
    AddressIsReused();
    assert REUSED.(dom := TWO_LIVE) == REUSED;
    var d1 := TWO_LIVE.(locals := map[1 := LIVE, 2 := Local(true, NULL, Entering)], peak := 1);
    BecomesActive(d1);
    Acquiring2(TWO_LIVE, Enter, d1);
    var d2 := d1.(locals := map[1 := LIVE, 2 := Local(true, NULL, Walking(NULL))]);
    assert d1.locals[2 := Local(true, NULL, Walking(NULL))] == d2.locals;
    Acquiring2(d1, LoadHead, d2);
    var d3 := d2.(locals := map[1 := LIVE, 2 := Local(true, NULL, Pushing(1, NULL))], recs := map[1 := NEW_RECORD]);
    assert d2.locals[2 := Local(true, NULL, Pushing(1, NULL))] == d3.locals;
    Acquiring2(d2, Allocate(1, NULL), d3);
    var d4 := DOM2.(recs := map[1 := NEW_RECORD.(rank := 0)]);
    Publishes(d3, d4);
    Acquiring2(d3, Publish, d4);
  }

  lemma {:induction false} Publishes(d3: Domain, d4: Domain)
    requires d3 == Domain(map[1 := NEW_RECORD], NULL, [], map[1 := LIVE, 2 := Local(true, NULL, Pushing(1, NULL))], 1)
    requires d4 == DOM2.(recs := map[1 := NEW_RECORD.(rank := 0)])
    ensures Can(d3, 2, Publish) && Do(d3, 2, Publish) == d4
  {
    assert d3.locals[2 := Local(true, 1, Resting)] == d4.locals;
    assert d3.recs[1 := NEW_RECORD.(rank := 0)] == d4.recs;
    assert d3.chain + [1] == [1];
  }

  /** Entering `acquire_record` makes thread 2 the first active one. */
  lemma {:induction false} BecomesActive(d1: Domain)
    requires d1 == TWO_LIVE.(locals := map[1 := LIVE, 2 := Local(true, NULL, Entering)], peak := 1)
    ensures Can(TWO_LIVE, 2, Enter) && Do(TWO_LIVE, 2, Enter) == d1
  {
    var e := SetLocal(TWO_LIVE, 2, LIVE.(acq := Entering));
    assert Active(e) == {2};
    assert TWO_LIVE.locals[2 := LIVE.(acq := Entering)] == d1.locals;
  }

  lemma {:induction false} Pins()
    ensures Reachable(State(ANNOUNCED, map[1 := IDLE, 2 := PINNED]))
  {
    hide Reachable, FirstFree;
    Acquires();
    var rec := NEW_RECORD.(rank := 0);
    var sh := REUSED.(dom := DOM2.(recs := map[1 := rec]));
    var threads := map[1 := IDLE, 2 := READER];
    assert FreeSlot(sh, 2) == 0 by { assert BLANK[0].ptr == NULL; }
    assert BLANK[0 := Slot(2, Claimed)] == STALE.slots;
    assert sh.dom.recs[1 := rec.(slots := STALE.slots)] == DOM2.recs;
    Go(sh, threads, 2, Pin, ANNOUNCED, PINNED);
    assert threads[2 := PINNED] == map[1 := IDLE, 2 := PINNED];
  }

  // ----- the write that meets it ---------------------------------------------------------------------

  /** The rest of a scan over the record, from slot `k` on: nothing more is found. */
  lemma {:induction false} ScansOn(sh: Shared, threads: map<Tid, Thread>, th: Thread, k: nat)
    requires Reachable(State(sh, threads)) && 1 in threads && threads[1] == SetOp(th, Scanning(0, 1, k, [2]))
    requires sh.dom == DOM2 && 1 <= k <= SLOTS
    ensures Reachable(State(sh, threads[1 := SetOp(th, Scanning(0, 1, SLOTS, [2]))]))
    decreases SLOTS - k
  {
    hide Reachable;
    if k == SLOTS {
      assert threads[1 := SetOp(th, Scanning(0, 1, SLOTS, [2]))] == threads;
    } else {
      var next := SetOp(th, Scanning(0, 1, k + 1, [2]));
      assert SlotAt(DOM2, 1, k) == EMPTY;
      Quietly(sh, threads, 1, ScanSlot, next);
      ScansOn(sh, threads[1 := next], th, k + 1);
      assert threads[1 := next][1 := SetOp(th, Scanning(0, 1, SLOTS, [2]))]
          == threads[1 := SetOp(th, Scanning(0, 1, SLOTS, [2]))];
    }
  }

  lemma {:induction false} Scanned(sh: Shared, threads: map<Tid, Thread>)
    requires Reachable(State(sh, threads)) && 1 in threads && threads[1] == SetOp(IDLE, ScanStart(0)) && sh.dom == DOM2
    ensures Reachable(State(sh, threads[1 := SetOp(IDLE, Scanning(0, NULL, 0, [2]))]))
  {
    hide Reachable;
    var th1, th2 := SetOp(IDLE, Scanning(0, 1, 0, [])), SetOp(IDLE, Scanning(0, 1, 1, [2]));
    var th3, th4 := SetOp(IDLE, Scanning(0, 1, SLOTS, [2])), SetOp(IDLE, Scanning(0, NULL, 0, [2]));
    Quietly(sh, threads, 1, StartScan, th1);
    assert [] + [2] == [2];
    Quietly(sh, threads[1 := th1], 1, ScanSlot, th2);
    assert threads[1 := th1][1 := th2] == threads[1 := th2];
    ScansOn(sh, threads[1 := th2], IDLE, 1);
    assert threads[1 := th2][1 := th3] == threads[1 := th3];
    Quietly(sh, threads[1 := th3], 1, ScanRecord, th4);
    assert threads[1 := th3][1 := th4] == threads[1 := th4];
  }

  /** Storing the length and unlocking, with nothing to drop. */
  lemma {:induction false} Unlocks(sh: Shared, threads: map<Tid, Thread>)
    requires Reachable(State(sh, threads)) && 1 in threads && threads[1] == SetOp(IDLE, Storing(0, []))
    requires 0 in sh.cells && sh.cells[0].retired == [2]
    ensures var x := sh.cells[0].(retiredLen := 1, lock := Nobody);
            Reachable(State(sh.(cells := sh.cells[0 := x]), threads[1 := IDLE]))
  {
    hide Reachable;
    var th := SetOp(IDLE, Unlocking(0, []));
    var sh1 := SetCell(sh, 0, sh.cells[0].(retiredLen := 1));
    Go(sh, threads, 1, StoreLen, sh1, th);
    var sh2 := SetCell(sh1, 0, sh1.cells[0].(lock := Nobody));
    Go(sh1, threads[1 := th], 1, Unlock, sh2, IDLE);
    assert threads[1 := th][1 := IDLE] == threads[1 := IDLE];
    assert sh2.cells == sh.cells[0 := sh.cells[0].(retiredLen := 1, lock := Nobody)];
  }

  /** The collection keeps the list whose address the scan met. */
  lemma {:induction false} Keeps(sh: Shared, threads: map<Tid, Thread>)
    requires Reachable(State(sh, threads)) && 1 in threads && threads[1] == SetOp(IDLE, Scanning(0, NULL, 0, [2]))
    requires 0 in sh.cells && sh.cells[0].retired == [2]
    ensures var x := sh.cells[0].(retiredLen := 1, lock := Nobody);
            Reachable(State(sh.(cells := sh.cells[0 := x]), threads[1 := IDLE]))
  {
    hide Reachable;
    var th := SetOp(IDLE, Storing(0, []));
    assert MoveOut(sh.heap, [], Taken(1, 0)) == sh.heap && sh.cells[0 := sh.cells[0]] == sh.cells;
    Go(sh, threads, 1, Collect([2], []), sh, th);
    Unlocks(sh, threads[1 := th]);
    assert threads[1 := th][1 := IDLE] == threads[1 := IDLE];
  }

  /** Cell 0 with an id drawn for its second registration. */
  const DRAWN: Shared := SetCell(ANNOUNCED, 0, Registered(2).(log := L.Draw(Registered(2).log, 1, false)))

  const SECOND_COMES: Thread := Thread([], Locking(0, Insert(SECOND)), 0)

  lemma {:induction false} Draws()
    ensures Reachable(State(DRAWN, map[1 := SECOND_COMES, 2 := PINNED]))
  {
    hide Reachable;
    Pins();
    var threads := map[1 := IDLE, 2 := PINNED];
    Go(ANNOUNCED, threads, 1, DrawId(0, 0, false), DRAWN, SECOND_COMES);
    assert threads[1 := SECOND_COMES] == map[1 := SECOND_COMES, 2 := PINNED];
  }

  /** The state in the middle of the second registration in cell 0: the new list is in, the old one retired. */
  lemma {:induction false} SecondWrite() returns (held: Shared)
    ensures Reachable(State(held, map[1 := SetOp(IDLE, ScanStart(0)), 2 := PINNED]))
    ensures held.dom == DOM2 && 0 in held.cells && held.cells[0].retired == [2] && |Hist(held.cells[0])| == 3
  {
    hide Reachable;
    Draws();
    SecondGoesLast();
    hide Apply, DOM2;
    var threads, th := map[1 := SECOND_COMES, 2 := PINNED], SECOND_COMES;
    Swap(DRAWN, threads, 1, th, 0, 4, [FIRST, SECOND]);
    held := Install(SetCell(DRAWN, 0, DRAWN.cells[0].(lock := By(1))), 0, 4, Insert(SECOND), [FIRST, SECOND]);
    assert SetOp(th, ScanStart(0)) == SetOp(IDLE, ScanStart(0));
    assert threads[1 := SetOp(IDLE, ScanStart(0))] == map[1 := SetOp(IDLE, ScanStart(0)), 2 := PINNED];
  }

  /** A write of cell 0 has completed, nobody is inside the cell and its lock is free, and yet a list of it
      is still retired. */
  lemma {:induction false} StaleAnnouncementKeepsAList() returns (s: State)
    ensures Reachable(s) && 0 in s.sh.cells
    ensures forall t :: t in s.threads ==> !UsesCell(s.threads[t], 0)
    ensures var x := s.sh.cells[0]; x.lock.Nobody? && x.retired == [2] && x.retiredLen == 1 && |Hist(x)| == 3
  {
    hide Reachable, DOM2;
    var held := SecondWrite();
    var threads := map[1 := SetOp(IDLE, ScanStart(0)), 2 := PINNED];
    var th := SetOp(IDLE, Scanning(0, NULL, 0, [2]));
    Scanned(held, threads);
    Keeps(held, threads[1 := th]);
    assert threads[1 := th][1 := IDLE] == map[1 := IDLE, 2 := PINNED];
    var z := held.cells[0].(retiredLen := 1, lock := Nobody);
    s := State(held.(cells := held.cells[0 := z]), map[1 := IDLE, 2 := PINNED]);
  }

  lemma {:induction false} SecondGoesLast()
    ensures Apply([FIRST], Insert(SECOND)) == Some([FIRST, SECOND])
  {
    assert After([FIRST], 0) == 1;
    assert InsertAt([FIRST], 1, SECOND) == [FIRST, SECOND];
  }
}
