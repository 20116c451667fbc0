/** Taking and giving up references to lists keeps the invariant. */
module SnapHeap {
  import opened HazardDomain
  import opened SnapCell
  import opened SnapInvariant
  import opened SnapStable
  import opened SnapQuiet
  import opened SnapReader
  import opened SnapLock
  import L = RegistryLog

  // ----- frames across a change of the heap ---------------------------------------------

  /** What one frame needs of the shared state is still there. */
  ghost predicate Carries(sh: Shared, after: Shared, f: Frame) {
    && (!f.Dropping? && f.c in sh.cells ==>
          f.c in after.cells && Hist(sh.cells[f.c]) <= Hist(after.cells[f.c])
              && after.cells[f.c].open == sh.cells[f.c].open
          && SameCount(sh.cells[f.c], after.cells[f.c], f.c, f))
    && (f.Dropping? ==> forall a :: a in f.rest && a in sh.heap ==>
        a in after.heap && after.heap[a].place == sh.heap[a].place)
    && (f.Fallback? && f.arc in sh.handles ==> f.arc in after.handles && after.handles[f.arc] == sh.handles[f.arc])
  }

  lemma {:induction false} CarryFrame(sh: Shared, after: Shared, t: Tid, i: nat, f: Frame)
    requires FrameOk(sh, t, i, f) && Carries(sh, after, f) && after.dom == sh.dom
    ensures FrameOk(after, t, i, f)
  {
  }

  lemma {:induction false} CarryFrames(sh: Shared, after: Shared, t: Tid, th: Thread)
    requires ThreadOk(sh, t, th) && after.dom == sh.dom
    requires forall i :: 0 <= i < |th.frames| ==> Carries(sh, after, th.frames[i])
    ensures forall i :: 0 <= i < |th.frames| ==> FrameOk(after, t, i, th.frames[i])
  {
    hide FrameOk, Carries, ThreadOk;
    Frames(sh, t, th);
    forall i | 0 <= i < |th.frames| ensures FrameOk(after, t, i, th.frames[i]) {
      CarryFrame(sh, after, t, i, th.frames[i]);
    }
  }

  /** The shared clauses a change of the heap has to re-establish. */
  ghost predicate ListsInv(sh: Shared) {
    && HeapInv(sh.heap, sh.cells) && CellsInv(sh.cells, sh.heap)
    && HandlesInv(sh.handles, sh.heap, sh.nextTok) && StrongInv(sh.heap, sh.handles)
    && SlotsInv(sh.dom, sh.heap)
  }

  ghost predicate WordsInv(sh: Shared) {
    LogsInv(sh.cells) && SettledInv(sh.cells, |sh.dom.chain|) && CountersInv(sh.cells, sh.nextTok)
  }

  lemma {:induction false} ListsPart(sh: Shared)
    requires SharedInv(sh)
    ensures ListsInv(sh) && WordsInv(sh) && Inv(sh.dom)
  {
  }

  lemma {:induction false} SharedFrom(sh: Shared)
    requires ListsInv(sh) && WordsInv(sh) && Inv(sh.dom)
    ensures SharedInv(sh)
  {
  }

  lemma {:induction false} HeapGood(sh: Shared, after: Shared, t: Tid, th: Thread, th': Thread, gone: set<Cid>)
    requires Inv(sh.dom) && ActorOk(sh, t, th) && after.dom == sh.dom && ListsInv(after) && WordsInv(after)
    requires CellsG(sh.cells, after.cells, t, gone) && HeapG(sh.heap, after.heap, t)
    requires HandlesG(sh.handles, after.handles, t)
    requires forall i :: 0 <= i < |th'.frames| ==> FrameOk(after, t, i, th'.frames[i])
    requires OpOk(after, t, |th'.frames|, th'.op) && t in sh.dom.locals && AcqOk(sh.dom.locals[t], th')
    requires PinsBacked(sh.dom, t, th')
    requires Answers(after.heap, after.cells, t, th')
    ensures Good(sh, after, t, th', gone)
  {
    hide SharedInv, ListsInv, WordsInv, Inv, CellsG, HeapG, HandlesG, FrameOk, OpOk, AcqOk, Answers, ThreadOk;
    hide PinsBacked, DomG, SlotsG;
    SharedFrom(after);
    DomRefl(sh.dom, t, sh.cells);
    Assemble(after, t, th');
  }

  // ----- one more owned handle -----------------------------------------------------------

  lemma {:induction false} HoldersAdd(handles: map<Tok, Handle>, tok: Tok, h: Handle, b: Addr)
    requires tok !in handles
    ensures |Holders(handles[tok := h], b)| == |Holders(handles, b)| + (if h.addr == b then 1 else 0)
  {
    if h.addr == b {
      assert Holders(handles[tok := h], b) == Holders(handles, b) + {tok};
    } else {
      assert Holders(handles[tok := h], b) == Holders(handles, b);
    }
  }

  ghost predicate Adds(sh: Shared, a: Addr, h: Handle, after: Shared) {
    && a in sh.heap && h.addr == a && HandleOk(h, sh.heap)
    && after == Ref(sh, a).(handles := sh.handles[sh.nextTok := h], nextTok := sh.nextTok + 1)
  }

  /** The list is the same and the cell's view of it does not change. */
  predicate Relabels(o: Obj, p: Obj) {
    && p.cell == o.cell && p.version == o.version && p.list == o.list && p.strong >= 1
    && (p.place == o.place || (!o.place.Current? && !o.place.Retired? && !p.place.Current? && !p.place.Retired?))
  }

  ghost predicate RelabelsAll(heap: map<Addr, Obj>, heap': map<Addr, Obj>) {
    heap'.Keys == heap.Keys && forall b :: b in heap ==> Relabels(heap[b], heap'[b])
  }

  lemma {:induction false} RelabelHeap(heap: map<Addr, Obj>, heap': map<Addr, Obj>, cells: map<Cid, Cell>)
    requires RelabelsAll(heap, heap') && HeapInv(heap, cells)
    ensures HeapInv(heap', cells)
  {
    forall b | b in heap' ensures ObjOk(b, heap'[b], cells) {
      assert ObjOk(b, heap[b], cells) && Relabels(heap[b], heap'[b]);
    }
  }

  lemma {:induction false} RelabelCell(heap: map<Addr, Obj>, heap': map<Addr, Obj>, c: Cid, x: Cell)
    requires RelabelsAll(heap, heap') && CellOk(c, x, heap)
    ensures CellOk(c, x, heap')
  {
    forall v | 0 <= v < |x.home| ensures HomeOk(c, x, v, heap') {
      assert HomeOk(c, x, v, heap) && (x.home[v] in heap ==> Relabels(heap[x.home[v]], heap'[x.home[v]]));
    }
    forall a | a in x.retired ensures a in heap' && heap'[a].cell == c && heap'[a].place.Retired? {
      assert Relabels(heap[a], heap'[a]);
    }
    if x.open { assert Relabels(heap[x.current], heap'[x.current]); }
  }

  lemma {:induction false} RelabelCells(heap: map<Addr, Obj>, heap': map<Addr, Obj>, cells: map<Cid, Cell>)
    requires RelabelsAll(heap, heap') && CellsInv(cells, heap)
    ensures CellsInv(cells, heap')
  {
    hide RelabelsAll, CellOk;
    forall c | c in cells ensures CellOk(c, cells[c], heap') { RelabelCell(heap, heap', c, cells[c]); }
  }

  lemma {:induction false} AddHeap(sh: Shared, a: Addr, h: Handle, after: Shared)
    requires HeapInv(sh.heap, sh.cells) && CellsInv(sh.cells, sh.heap) && Adds(sh, a, h, after)
    ensures HeapInv(after.heap, after.cells) && CellsInv(after.cells, after.heap)
  {
    hide CellsInv;
    forall b | b in sh.heap ensures Relabels(sh.heap[b], after.heap[b]) { assert ObjOk(b, sh.heap[b], sh.cells); }
    RelabelHeap(sh.heap, after.heap, sh.cells);
    RelabelCells(sh.heap, after.heap, sh.cells);
  }

  lemma {:induction false} AddCounts(sh: Shared, a: Addr, h: Handle, after: Shared)
    requires HandlesInv(sh.handles, sh.heap, sh.nextTok) && StrongInv(sh.heap, sh.handles) && Adds(sh, a, h, after)
    requires SlotsInv(sh.dom, sh.heap) && CountersInv(sh.cells, sh.nextTok)
    ensures HandlesInv(after.handles, after.heap, after.nextTok) && StrongInv(after.heap, after.handles)
    ensures SlotsInv(after.dom, after.heap) && CountersInv(after.cells, after.nextTok)
  {
    forall tok | tok in after.handles ensures tok < after.nextTok && HandleOk(after.handles[tok], after.heap) {
      if tok != sh.nextTok { assert HandleOk(sh.handles[tok], sh.heap); }
    }
    forall b | b in after.heap ensures StrongOk(b, after.heap[b], after.handles) {
      assert StrongOk(b, sh.heap[b], sh.handles);
      HoldersAdd(sh.handles, sh.nextTok, h, b);
    }
    forall r, k | SlotAt(after.dom, r, k).guard.Validated? ensures Protected(SlotAt(after.dom, r, k), after.heap) {
      assert Protected(SlotAt(sh.dom, r, k), sh.heap);
    }
    forall c | c in after.cells ensures CounterOk(after.cells[c], after.nextTok) {
      assert CounterOk(sh.cells[c], sh.nextTok);
    }
  }

  lemma {:induction false} SamePlaces(sh: Shared, a: Addr, h: Handle, after: Shared, t: Tid)
    requires Adds(sh, a, h, after) && HandlesInv(sh.handles, sh.heap, sh.nextTok)
    ensures HeapG(sh.heap, after.heap, t) && HandlesG(sh.handles, after.handles, t)
    ensures forall f :: Carries(sh, after, f) || (f.Fallback? && f.arc == sh.nextTok)
    ensures forall th :: Answers(sh.heap, sh.cells, t, th) ==> Answers(after.heap, after.cells, t, th)
  {
  }

  /** A thread takes a reference on a list it can see; its stack and operation do not change. */
  lemma {:induction false} AddKept(sh: Shared, t: Tid, th: Thread, a: Addr, h: Handle, after: Shared)
    requires SharedInv(sh) && ActorOk(sh, t, th) && Adds(sh, a, h, after) && (th.op.Cloning? || th.op.FbCloning?)
    ensures Good(sh, after, t, th, {})
  {
    hide SharedInv, HeapInv, CellsInv, HandlesInv, StrongInv, SlotsInv, LogsInv, SettledInv, CountersInv, Inv, Adds;
    hide ThreadOk, CellsG, HeapG, HandlesG, PinsBacked, Answers, Carries, FrameOk, AcqOk;
    ListsPart(sh);
    AddHeap(sh, a, h, after);
    AddCounts(sh, a, h, after);
    AddRest(sh, a, h, after);
    SamePlaces(sh, a, h, after, t);
    CellsRefl(sh.cells, t);
    CurrentOp(sh, t, th);
    OldArcs(sh, t, th);
    CarryFrames(sh, after, t, th);
    AddOp(sh, t, |th.frames|, th.op, after);
    HeapGood(sh, after, t, th, th, {});
  }

  lemma {:induction false} AddRest(sh: Shared, a: Addr, h: Handle, after: Shared)
    requires Adds(sh, a, h, after)
    ensures after.cells == sh.cells && after.dom == sh.dom
  {
  }

  lemma {:induction false} OldArcs(sh: Shared, t: Tid, th: Thread)
    requires ThreadOk(sh, t, th) && HandlesInv(sh.handles, sh.heap, sh.nextTok)
    ensures forall i :: 0 <= i < |th.frames| && th.frames[i].Fallback? ==> th.frames[i].arc != sh.nextTok
  {
    Frames(sh, t, th);
    forall i | 0 <= i < |th.frames| && th.frames[i].Fallback? ensures th.frames[i].arc != sh.nextTok {
      assert FrameOk(sh, t, i, th.frames[i]);
    }
  }

  lemma {:induction false} AddOp(sh: Shared, t: Tid, n: nat, op: Op, after: Shared)
    requires OpOk(sh, t, n, op) && (op.Cloning? || op.FbCloning?) && after.cells == sh.cells && after.dom == sh.dom
    ensures OpOk(after, t, n, op)
  {
  }

  // ----- load_arc_if ---------------------------------------------------------------------

  lemma {:induction false} UnpinNext(sh: Shared, t: Tid, th: Thread)
    requires SharedInv(sh) && ActorOk(sh, t, th) && th.op.Cloning?
    ensures Good(sh, sh, t, SetOp(th, Unpinning(th.op.call.c, th.op.a, th.op.k, th.op.version, false)), {})
  {
    hide SharedInv, PinsBacked, Guarantee;
    var op := Unpinning(th.op.call.c, th.op.a, th.op.k, th.op.version, false);
    NoChange(sh, t);
    ClonedBacked(sh.dom, t, th, op);
    assert OpenIn(sh.cells, th.op.call.c);
    NewOp(sh, t, th, op);
  }

  lemma {:induction false} ClonedBacked(d: Domain, t: Tid, th: Thread, op: Op)
    requires PinsBacked(d, t, th) && th.op.Cloning?
    requires op == Unpinning(th.op.call.c, th.op.a, th.op.k, th.op.version, false)
    ensures PinsBacked(d, t, th.(op := op))
  {
    var th' := th.(op := op);
    forall k | OwnSlot(d, t, k) != EMPTY ensures SlotBacked(th', OwnSlot(d, t, k), k) {
      assert SlotBacked(th, OwnSlot(d, t, k), k);
    }
  }

  /** The list a `load_arc_if` has protected is allocated, so its count is at least one. */
  lemma {:induction false} ClonedIsAllocated(sh: Shared, t: Tid, th: Thread)
    requires HeapInv(sh.heap, sh.cells) && SlotsInv(sh.dom, sh.heap) && ThreadOk(sh, t, th) && th.op.Cloning?
    ensures th.op.a in sh.heap && sh.heap[th.op.a].strong >= 1
    ensures HandleOk(Handle(th.op.a, th.op.call.c, th.op.version, Anyone), sh.heap)
  {
    hide CallsOk, LocksOk, TakesOk, OwnsOk, PendingOk, ScanOk, WaitOk, UsesOk;
    var s := SlotAt(sh.dom, sh.dom.locals[t].record, th.op.k);
    assert s == OwnSlot(sh.dom, t, th.op.k) && Protected(s, sh.heap);
    assert ObjOk(th.op.a, sh.heap[th.op.a], sh.cells);
  }

  // ----- giving a reference up -------------------------------------------------------------

  /** `handles'` and `place` are what is left of the owners of `a` after one of them has gone. */
  ghost predicate Releases(sh: Shared, a: Addr, place: Place, handles': map<Tok, Handle>, after: Shared) {
    && a in sh.heap
    && after == Unref(sh.(handles := handles'), a, place)
    && (forall tok :: tok in handles' ==> tok in sh.handles && handles'[tok] == sh.handles[tok])
    && (forall b :: b != a ==> Holders(handles', b) == Holders(sh.handles, b))
    && sh.heap[a].strong - 1 == (if place.Loose? then 0 else 1) + |Holders(handles', a)|
    && (place == sh.heap[a].place || (sh.heap[a].place.Taken? && place.Loose?))
  }

  /** Nobody validated a list whose last owner is leaving. */
  lemma {:induction false} LastOwner(sh: Shared, a: Addr, place: Place, handles': map<Tok, Handle>, after: Shared)
    requires Releases(sh, a, place, handles', after) && sh.heap[a].strong == 1
    ensures place.Loose? && (sh.heap[a].place.Taken? || sh.heap[a].place.Loose?)
    ensures forall tok :: tok in handles' ==> handles'[tok].addr != a
  {
    assert Holders(handles', a) == {};
    forall tok | tok in handles' ensures handles'[tok].addr != a { assert tok !in Holders(handles', a); }
  }

  /** What giving up a reference does to the heap, whether or not it frees the list. */
  lemma {:induction false} UnrefEffect(sh: Shared, a: Addr, place: Place, handles': map<Tok, Handle>, after: Shared)
    requires Releases(sh, a, place, handles', after)
    ensures after.handles == handles' && after.dom == sh.dom && after.nextTok == sh.nextTok
    ensures a in sh.heap
    ensures after.heap == if sh.heap[a].strong > 1
                          then sh.heap[a := sh.heap[a].(strong := sh.heap[a].strong - 1, place := place)]
                              else sh.heap - {a}
    ensures sh.heap[a].strong > 1 ==> after.cells == sh.cells
  {
  }

  lemma {:induction false} UnrefKeeps(sh: Shared, a: Addr, place: Place, handles': map<Tok, Handle>, after: Shared)
    requires Releases(sh, a, place, handles', after) && sh.heap[a].strong > 1
    requires HeapInv(sh.heap, sh.cells) && CellsInv(sh.cells, sh.heap)
    ensures HeapInv(after.heap, after.cells) && CellsInv(after.cells, after.heap)
  {
    hide CellsInv;
    UnrefEffect(sh, a, place, handles', after);
    forall b | b in sh.heap ensures Relabels(sh.heap[b], after.heap[b]) { assert ObjOk(b, sh.heap[b], sh.cells); }
    RelabelHeap(sh.heap, after.heap, sh.cells);
    RelabelCells(sh.heap, after.heap, sh.cells);
  }

  lemma {:induction false} UnrefShape(sh: Shared, a: Addr, place: Place, handles': map<Tok, Handle>, after: Shared)
    requires Releases(sh, a, place, handles', after) && sh.heap[a].strong == 1
    requires HeapInv(sh.heap, sh.cells) && CellsInv(sh.cells, sh.heap)
    ensures after.heap == sh.heap - {a} && a != NULL
    ensures var o := sh.heap[a];
            && o.cell in sh.cells
            && var x := sh.cells[o.cell];
            && o.version < |x.home| && o.version < |x.frees| && x.home[o.version] == a
            && after.cells == sh.cells[o.cell :=
                x.(home := x.home[o.version := NULL], frees := x.frees[o.version := x.frees[o.version] + 1])]
  {
    assert ObjOk(a, sh.heap[a], sh.cells) && CellOk(sh.heap[a].cell, sh.cells[sh.heap[a].cell], sh.heap);
  }

  lemma {:induction false} FreeHeap(sh: Shared, a: Addr, place: Place, handles': map<Tok, Handle>, after: Shared)
    requires Releases(sh, a, place, handles', after) && sh.heap[a].strong == 1
    requires HeapInv(sh.heap, sh.cells) && CellsInv(sh.cells, sh.heap)
    ensures HeapInv(after.heap, after.cells)
  {
    hide CellsInv;
    UnrefShape(sh, a, place, handles', after);
    assert ObjOk(a, sh.heap[a], sh.cells);
    forall b | b in after.heap ensures ObjOk(b, after.heap[b], after.cells) {
      assert ObjOk(b, sh.heap[b], sh.cells);
    }
  }

  /** The freed version's home is empty and it has been freed once; no other version lived there. */
  lemma {:induction false} FreeCell(heap: map<Addr, Obj>, a: Addr, c: Cid, x: Cell, y: Cell)
    requires a in heap && a != NULL && CellOk(c, x, heap) && !heap[a].place.Current? && !heap[a].place.Retired?
    requires if c == heap[a].cell
             then heap[a].version < |x.home| && x.home[heap[a].version] == a
                  && y == x.(home := x.home[heap[a].version := NULL],
                      frees := x.frees[heap[a].version := x.frees[heap[a].version] + 1])
             else y == x
    ensures CellOk(c, y, heap - {a})
  {
    forall v | 0 <= v < |y.home| ensures HomeOk(c, y, v, heap - {a}) {
      assert HomeOk(c, x, v, heap);
    }
  }

  lemma {:induction false} FreeCells(sh: Shared, a: Addr, place: Place, handles': map<Tok, Handle>, after: Shared)
    requires Releases(sh, a, place, handles', after) && sh.heap[a].strong == 1
    requires HeapInv(sh.heap, sh.cells) && CellsInv(sh.cells, sh.heap)
    ensures CellsInv(after.cells, after.heap)
  {
    hide HeapInv, CellOk, Unref, Holders;
    UnrefShape(sh, a, place, handles', after);
    LastOwner(sh, a, place, handles', after);
    forall c | c in after.cells ensures CellOk(c, after.cells[c], after.heap) {
      FreeCell(sh.heap, a, c, sh.cells[c], after.cells[c]);
    }
  }

  lemma {:induction false} UnrefLists(sh: Shared, a: Addr, place: Place, handles': map<Tok, Handle>, after: Shared)
    requires Releases(sh, a, place, handles', after)
    requires HeapInv(sh.heap, sh.cells) && CellsInv(sh.cells, sh.heap)
    ensures HeapInv(after.heap, after.cells) && CellsInv(after.cells, after.heap)
  {
    hide CellsInv;
    assert ObjOk(a, sh.heap[a], sh.cells);
    if sh.heap[a].strong > 1 {
      UnrefKeeps(sh, a, place, handles', after);
    } else {
      FreeHeap(sh, a, place, handles', after);
      FreeCells(sh, a, place, handles', after);
    }
  }

  lemma {:induction false} UnrefHandles(sh: Shared, a: Addr, place: Place, handles': map<Tok, Handle>, after: Shared)
    requires Releases(sh, a, place, handles', after) && HeapInv(sh.heap, sh.cells)
    requires HandlesInv(sh.handles, sh.heap, sh.nextTok)
    ensures HandlesInv(after.handles, after.heap, after.nextTok)
  {
    hide Unref, Holders;
    assert ObjOk(a, sh.heap[a], sh.cells);
    UnrefEffect(sh, a, place, handles', after);
    if sh.heap[a].strong == 1 { LastOwner(sh, a, place, handles', after); }
    forall tok | tok in after.handles ensures tok < after.nextTok && HandleOk(after.handles[tok], after.heap) {
      assert HandleOk(sh.handles[tok], sh.heap);
    }
  }

  lemma {:induction false} UnrefStrong(sh: Shared, a: Addr, place: Place, handles': map<Tok, Handle>, after: Shared)
    requires Releases(sh, a, place, handles', after) && StrongInv(sh.heap, sh.handles)
    ensures StrongInv(after.heap, after.handles)
  {
    hide Unref, Holders;
    UnrefEffect(sh, a, place, handles', after);
    forall b | b in after.heap ensures StrongOk(b, after.heap[b], after.handles) {
      assert StrongOk(b, sh.heap[b], sh.handles);
    }
  }

  lemma {:induction false} UnrefSlots(sh: Shared, a: Addr, place: Place, handles': map<Tok, Handle>, after: Shared)
    requires Releases(sh, a, place, handles', after) && HeapInv(sh.heap, sh.cells) && SlotsInv(sh.dom, sh.heap)
    ensures SlotsInv(after.dom, after.heap)
  {
    hide Unref, Holders;
    assert ObjOk(a, sh.heap[a], sh.cells);
    UnrefEffect(sh, a, place, handles', after);
    if sh.heap[a].strong == 1 { LastOwner(sh, a, place, handles', after); }
    forall r, k | SlotAt(after.dom, r, k).guard.Validated? ensures Protected(SlotAt(after.dom, r, k), after.heap) {
      assert Protected(SlotAt(sh.dom, r, k), sh.heap);
    }
  }

  /** Only where versions live, and how often they were freed, may differ. */
  predicate SameWords(x: Cell, y: Cell) {
    y == x.(home := y.home, frees := y.frees)
  }

  lemma {:induction false} UnrefCellsSame(sh: Shared, a: Addr, place: Place, handles': map<Tok, Handle>, after: Shared)
    requires Releases(sh, a, place, handles', after)
    ensures after.cells.Keys == sh.cells.Keys && forall c :: c in sh.cells ==> SameWords(sh.cells[c], after.cells[c])
  {
  }

  lemma {:induction false} SameWordsKept(sh: Shared, after: Shared)
    requires WordsInv(sh) && after.dom == sh.dom && after.nextTok == sh.nextTok && after.cells.Keys == sh.cells.Keys
    requires forall c :: c in sh.cells ==> SameWords(sh.cells[c], after.cells[c])
    ensures WordsInv(after)
  {
    hide L.LogInv;
    forall c | c in after.cells ensures CounterOk(after.cells[c], after.nextTok) && L.LogInv(after.cells[c].log) {
      assert CounterOk(sh.cells[c], sh.nextTok) && SameWords(sh.cells[c], after.cells[c]);
    }
    forall c | c in after.cells && after.cells[c].lock.Nobody? ensures Settled(after.cells[c], |after.dom.chain|) {
      assert SameWords(sh.cells[c], after.cells[c]) && Settled(sh.cells[c], |sh.dom.chain|);
    }
  }

  lemma {:induction false} SameWordsG(cells: map<Cid, Cell>, after: map<Cid, Cell>, t: Tid)
    requires after.Keys == cells.Keys && forall c :: c in cells ==> SameWords(cells[c], after[c])
    ensures CellsG(cells, after, t, {})
  {
    forall c | c in cells ensures CellG(cells[c], after[c], t) {
      assert SameWords(cells[c], after[c]);
      CellRefl(cells[c], t);
    }
  }

  lemma {:induction false} UnrefHeap(sh: Shared, a: Addr, place: Place, handles': map<Tok, Handle>, after: Shared)
    requires Releases(sh, a, place, handles', after) && HeapInv(sh.heap, sh.cells)
    ensures after.handles == handles'
    ensures forall b :: b in sh.heap && b != a ==> b in after.heap && after.heap[b] == sh.heap[b]
    ensures forall b :: b in after.heap ==> b in sh.heap && (b == a || after.heap[b] == sh.heap[b])
    ensures a in after.heap ==> after.heap[a].place == place
    ensures sh.heap[a].place.Taken? && place == sh.heap[a].place ==> a in after.heap
  {
    hide Unref, Holders;
    assert ObjOk(a, sh.heap[a], sh.cells);
    UnrefEffect(sh, a, place, handles', after);
    if sh.heap[a].strong == 1 { LastOwner(sh, a, place, handles', after); }
  }

  lemma {:induction false} UnrefOthers(
    sh: Shared, a: Addr, place: Place, handles': map<Tok, Handle>, after: Shared, t: Tid)
    requires Releases(sh, a, place, handles', after) && HeapInv(sh.heap, sh.cells)
    requires sh.heap[a].place.Taken? && place.Loose? ==> sh.heap[a].place.tid == t
    requires forall tok :: tok in sh.handles && sh.handles[tok].holder.Held? && sh.handles[tok].holder.tid != t ==>
             tok in handles'
    ensures HeapG(sh.heap, after.heap, t) && HandlesG(sh.handles, after.handles, t)
    ensures forall b :: b in sh.heap && b != a ==> b in after.heap && after.heap[b] == sh.heap[b]
    ensures forall b :: b in after.heap ==> b in sh.heap && (b == a || after.heap[b] == sh.heap[b])
    ensures a in after.heap ==> after.heap[a].place == place
    ensures sh.heap[a].place.Taken? && place == sh.heap[a].place ==> a in after.heap
  {
    hide Unref, Holders, HeapInv, StrongOk;
    UnrefHeap(sh, a, place, handles', after);
  }

  lemma {:induction false} UnrefAll(
    sh: Shared, a: Addr, place: Place, handles': map<Tok, Handle>, after: Shared, t: Tid)
    requires Releases(sh, a, place, handles', after) && ListsInv(sh) && WordsInv(sh)
    ensures ListsInv(after) && WordsInv(after) && CellsG(sh.cells, after.cells, t, {}) && after.dom == sh.dom
    ensures after.cells.Keys == sh.cells.Keys && forall c :: c in sh.cells ==> SameWords(sh.cells[c], after.cells[c])
  {
    hide Releases, HeapInv, CellsInv, HandlesInv, StrongInv, SlotsInv, WordsInv, CellsG;
    UnrefLists(sh, a, place, handles', after);
    UnrefHandles(sh, a, place, handles', after);
    UnrefStrong(sh, a, place, handles', after);
    UnrefSlots(sh, a, place, handles', after);
    UnrefEffect(sh, a, place, handles', after);
    UnrefCellsSame(sh, a, place, handles', after);
    SameWordsKept(sh, after);
    SameWordsG(sh.cells, after.cells, t);
  }

  // ----- dropping an owned handle ------------------------------------------------------

  lemma {:induction false} HoldersRemove(handles: map<Tok, Handle>, tok: Tok, b: Addr)
    requires tok in handles
    ensures if handles[tok].addr == b then |Holders(handles - {tok}, b)| + 1 == |Holders(handles, b)|
            else Holders(handles - {tok}, b) == Holders(handles, b)
  {
    if handles[tok].addr == b {
      assert Holders(handles, b) == Holders(handles - {tok}, b) + {tok};
    } else {
      assert Holders(handles - {tok}, b) == Holders(handles, b);
    }
  }

  lemma {:induction false} DropHandleReleases(sh: Shared, tok: Tok)
    requires tok in sh.handles && sh.handles[tok].addr in sh.heap && StrongInv(sh.heap, sh.handles)
    ensures var a := sh.handles[tok].addr; var rest := sh.handles - {tok};
            Releases(sh, a, sh.heap[a].place, rest, Unref(sh.(handles := rest), a, sh.heap[a].place))
  {
    hide Holders, Unref;
    var a := sh.handles[tok].addr;
    assert StrongOk(a, sh.heap[a], sh.handles);
    forall b ensures b != a ==> Holders(sh.handles - {tok}, b) == Holders(sh.handles, b) {
      HoldersRemove(sh.handles, tok, b);
    }
    HoldersRemove(sh.handles, tok, a);
  }

  /** No frame of the thread holds this handle, nor does another thread. */
  ghost predicate Droppable(sh: Shared, t: Tid, th: Thread, tok: Tok) {
    && tok in sh.handles && (sh.handles[tok].holder.Held? ==> sh.handles[tok].holder.tid == t)
    && forall i :: 0 <= i < |th.frames| && th.frames[i].Fallback? ==> th.frames[i].arc != tok
  }

  lemma {:induction false} DropRefKept(sh: Shared, t: Tid, th: Thread, tok: Tok)
    requires SharedInv(sh) && ActorOk(sh, t, th) && th.op.Idle? && Droppable(sh, t, th, tok)
    requires sh.handles[tok].addr in sh.heap
    ensures var a := sh.handles[tok].addr;
            Good(sh, Unref(sh.(handles := sh.handles - {tok}), a, sh.heap[a].place), t, th, {})
  {
    hide SharedInv, Releases, HeapInv, CellsInv, HandlesInv, StrongInv, SlotsInv, WordsInv, Inv, Unref, CellsG, HeapG;
    hide HandlesG, Holders, FrameOk, Answers, PinsBacked, OpOk, AcqOk, ThreadOk;
    var a, rest := sh.handles[tok].addr, sh.handles - {tok};
    var place := sh.heap[a].place;
    var after := Unref(sh.(handles := rest), a, place);
    ListsPart(sh);
    DropHandleReleases(sh, tok);
    UnrefAll(sh, a, place, rest, after, t);
    UnrefEffect(sh, a, place, rest, after);
    DropHandleOthers(sh, t, th, a, place, tok, after);
    CurrentOp(sh, t, th);
    IdleOp(after, t, |th.frames|);
    DropCarries(sh, after, t, th, a, tok);
    CarryFrames(sh, after, t, th);
    DropAnswers(sh, after, t, th);
    HeapGood(sh, after, t, th, th, {});
  }

  lemma {:induction false} DropHandleOthers(
    sh: Shared, t: Tid, th: Thread, a: Addr, place: Place, tok: Tok, after: Shared)
    requires Droppable(sh, t, th, tok) && a in sh.heap && place == sh.heap[a].place
    requires Releases(sh, a, place, sh.handles - {tok}, after) && HeapInv(sh.heap, sh.cells)
    ensures HeapG(sh.heap, after.heap, t) && HandlesG(sh.handles, after.handles, t)
    ensures forall b :: b in sh.heap && (b != a || sh.heap[b].place.Taken?) ==>
            b in after.heap && after.heap[b].place == sh.heap[b].place
    ensures forall b :: b in after.heap ==> b in sh.heap && after.heap[b].place == sh.heap[b].place
  {
    hide Releases, HeapG, HandlesG;
    UnrefOthers(sh, a, place, sh.handles - {tok}, after, t);
  }

  lemma {:induction false} DropCarries(sh: Shared, after: Shared, t: Tid, th: Thread, a: Addr, tok: Tok)
    requires ThreadOk(sh, t, th) && Droppable(sh, t, th, tok) && after.handles == sh.handles - {tok}
    requires after.cells.Keys == sh.cells.Keys && forall c :: c in sh.cells ==> SameWords(sh.cells[c], after.cells[c])
    requires forall b :: b in sh.heap && (b != a || sh.heap[b].place.Taken?) ==>
             b in after.heap && after.heap[b].place == sh.heap[b].place
    ensures forall i :: 0 <= i < |th.frames| ==> Carries(sh, after, th.frames[i])
  {
    hide ThreadOk;
    Frames(sh, t, th);
    forall i | 0 <= i < |th.frames| ensures Carries(sh, after, th.frames[i]) {
      assert FrameOk(sh, t, i, th.frames[i]);
      if !th.frames[i].Dropping? { assert SameWords(sh.cells[th.frames[i].c], after.cells[th.frames[i].c]); }
    }
  }

  lemma {:induction false} DropAnswers(sh: Shared, after: Shared, t: Tid, th: Thread)
    requires Answers(sh.heap, sh.cells, t, th)
    requires after.cells.Keys == sh.cells.Keys && forall c :: c in sh.cells ==> SameWords(sh.cells[c], after.cells[c])
    requires forall b :: b in after.heap && after.heap[b].place.Taken? ==>
             b in sh.heap && after.heap[b].place == sh.heap[b].place
    ensures Answers(after.heap, after.cells, t, th)
  {
    forall c, id | c in after.cells && id in after.cells[c].log.running && after.cells[c].log.running[id] == t
      ensures RunBacked(th, c, id)
    {
      assert SameWords(sh.cells[c], after.cells[c]);
    }
  }

  lemma {:induction false} DropHandleKept(sh: Shared, t: Tid, th: Thread, tok: Tok)
    requires SharedInv(sh) && ActorOk(sh, t, th) && CanDropHandle(sh, t, th, tok)
    ensures var r := DoDropHandle(sh, t, th, tok); Good(sh, r.0, t, r.1, {})
  {
    hide SharedInv, ActorOk, Good, ThreadOk;
    ActorThread(sh, t, th);
    FreeArcs(sh, t, th, tok);
    DropRefKept(sh, t, th, tok);
  }

  lemma {:induction false} FreeArcs(sh: Shared, t: Tid, th: Thread, tok: Tok)
    requires ThreadOk(sh, t, th) && tok in sh.handles
    requires (sh.handles[tok].holder.Anyone? || sh.handles[tok].holder == Held(t, |th.frames|))
    ensures Droppable(sh, t, th, tok)
  {
    hide ThreadOk;
    Frames(sh, t, th);
    forall i | 0 <= i < |th.frames| && th.frames[i].Fallback? ensures th.frames[i].arc != tok {
      assert FrameOk(sh, t, i, th.frames[i]);
    }
  }

  // ----- dropping the lists taken out ---------------------------------------------------

  lemma {:induction false} DropOneReleases(sh: Shared, a: Addr)
    requires a in sh.heap && sh.heap[a].place.Taken? && StrongInv(sh.heap, sh.handles)
    ensures Releases(sh, a, Loose, sh.handles, Unref(sh.(handles := sh.handles), a, Loose))
    ensures sh.(handles := sh.handles) == sh
  {
    hide Holders, Unref;
    assert StrongOk(a, sh.heap[a], sh.handles);
  }

  lemma {:induction false} DropTakes(sh: Shared, after: Shared, t: Tid, th: Thread, th': Thread, a: Addr)
    requires ThreadOk(sh, t, th) && Top(th) && TopFrame(th).Dropping? && TopFrame(th).rest != []
    requires a == TopFrame(th).rest[0]
    requires after.dom == sh.dom && after.handles == sh.handles
    requires after.cells.Keys == sh.cells.Keys && forall c :: c in sh.cells ==> SameWords(sh.cells[c], after.cells[c])
    requires forall b :: b in sh.heap && b != a ==> b in after.heap && after.heap[b] == sh.heap[b]
    requires th' == if |TopFrame(th).rest| == 1 then Pop(th, Idle) else SetTop(th, Dropping(TopFrame(th).rest[1..]))
    ensures forall i :: 0 <= i < |th'.frames| ==> FrameOk(after, t, i, th'.frames[i])
  {
    hide ThreadOk;
    var n := |th.frames| - 1;
    Frames(sh, t, th);
    assert FrameOk(sh, t, n, th.frames[n]);
    forall i | 0 <= i < |th'.frames| ensures FrameOk(after, t, i, th'.frames[i]) {
      assert FrameOk(sh, t, i, th.frames[i]);
      if i < n {
        if !th.frames[i].Dropping? { assert SameWords(sh.cells[th.frames[i].c], after.cells[th.frames[i].c]); }
        CarryFrame(sh, after, t, i, th.frames[i]);
      }
    }
  }

  lemma {:induction false} DropOneAnswers(sh: Shared, after: Shared, t: Tid, th: Thread, th': Thread, a: Addr)
    requires Answers(sh.heap, sh.cells, t, th) && Top(th) && TopFrame(th).Dropping? && TopFrame(th).rest != []
    requires a == TopFrame(th).rest[0]
    requires after.cells.Keys == sh.cells.Keys && forall c :: c in sh.cells ==> SameWords(sh.cells[c], after.cells[c])
    requires forall b :: b in after.heap ==> b in sh.heap && (b == a || after.heap[b] == sh.heap[b])
    requires a in after.heap ==> after.heap[a].place.Loose?
    requires th' == if |TopFrame(th).rest| == 1 then Pop(th, Idle) else SetTop(th, Dropping(TopFrame(th).rest[1..]))
    ensures Answers(after.heap, after.cells, t, th')
  {
    forall c, id | c in after.cells && id in after.cells[c].log.running && after.cells[c].log.running[id] == t
      ensures RunBacked(th', c, id)
    {
      assert SameWords(sh.cells[c], after.cells[c]) && RunBacked(th, c, id);
      var i :| 0 <= i < |th.frames| && th.frames[i] == Body(c, id);
      assert th'.frames[i] == Body(c, id);
    }
    forall b | b in after.heap && after.heap[b].place.Taken? && after.heap[b].place.tid == t
      ensures TakenBacked(th', after.heap[b].place.depth, b)
    {
      assert TakenBacked(th, sh.heap[b].place.depth, b);
    }
  }

  lemma {:induction false} DropOneKept(sh: Shared, t: Tid, th: Thread)
    requires SharedInv(sh) && ActorOk(sh, t, th) && CanDropOne(sh, t, th)
    ensures var r := DoDropOne(sh, t, th); Good(sh, r.0, t, r.1, {})
  {
    hide SharedInv, Releases, HeapInv, CellsInv, HandlesInv, StrongInv, SlotsInv, WordsInv, Inv, Unref, CellsG, HeapG;
    hide HandlesG, Holders, FrameOk, Answers, PinsBacked, OpOk, AcqOk, ThreadOk;
    var a := TopFrame(th).rest[0];
    var r := DoDropOne(sh, t, th);
    ListsPart(sh);
    TopTakes(sh, t, th);
    DropOneReleases(sh, a);
    UnrefAll(sh, a, Loose, sh.handles, r.0, t);
    UnrefEffect(sh, a, Loose, sh.handles, r.0);
    UnrefOthers(sh, a, Loose, sh.handles, r.0, t);
    CurrentOp(sh, t, th);
    IdleOp(r.0, t, |r.1.frames|);
    DropTakes(sh, r.0, t, th, r.1, a);
    DropOneAnswers(sh, r.0, t, th, r.1, a);
    FramesBacked(sh.dom, t, th, r.1);
    IdleAcq(sh.dom.locals[t], th, r.1);
    HeapGood(sh, r.0, t, th, r.1, {});
  }

  lemma {:induction false} IdleAcq(l: Local, th: Thread, th': Thread)
    requires AcqOk(l, th) && th.op.Idle? && th'.op.Idle?
    ensures AcqOk(l, th')
  {
  }

  lemma {:induction false} TopTakes(sh: Shared, t: Tid, th: Thread)
    requires ThreadOk(sh, t, th) && Top(th) && TopFrame(th).Dropping?
    ensures forall a :: a in TopFrame(th).rest ==> a in sh.heap && sh.heap[a].place == Taken(t, |th.frames| - 1)
    ensures TopFrame(th).rest != []
  {
    Frames(sh, t, th);
    assert FrameOk(sh, t, |th.frames| - 1, th.frames[|th.frames| - 1]);
  }
}
