/** Replacing the list, reclaiming retired lists, and opening and closing cells keep the invariant. */
module SnapWrite {
  import opened HandlerList
  import opened HazardDomain
  import opened SnapCell
  import opened SnapInvariant
  import opened SnapStable
  import opened SnapQuiet
  import opened SnapReader
  import opened SnapLock
  import opened SnapHeap
  import L = RegistryLog

  // ----- splitting the retired list -------------------------------------------------------

  lemma {:induction false} OnceEach(s: seq<Addr>, a: Addr)
    requires NoDup(s)
    ensures multiset(s)[a] <= 1
  {
    if s != [] {
      assert s == [s[0]] + s[1..];
      OnceEach(s[1..], a);
      if a == s[0] { assert a !in s[1..]; }
    }
  }

  lemma {:induction false} NoDupFromCounts(s: seq<Addr>)
    requires forall a :: multiset(s)[a] <= 1
    ensures NoDup(s)
  {
    forall i, j | 0 <= i < j < |s| ensures s[i] != s[j] {
      assert s == s[..j] + s[j..];
      assert multiset(s) == multiset(s[..j]) + multiset(s[j..]);
      assert s[..j][i] == s[i] && s[j..][0] == s[j];
      assert multiset(s[..j])[s[i]] >= 1 && multiset(s[j..])[s[j]] >= 1;
      assert multiset(s)[s[i]] == multiset(s[..j])[s[i]] + multiset(s[j..])[s[i]] <= 1;
    }
  }

  /** Both halves of a split list without repetitions are without repetitions and have nothing in common. */
  lemma {:induction false} SplitParts(retired: seq<Addr>, found: seq<Addr>, kept: seq<Addr>, freed: seq<Addr>)
    requires IsSplit(retired, found, kept, freed) && NoDup(retired)
    ensures NoDup(kept) && NoDup(freed)
    ensures forall a :: a in retired <==> a in kept || a in freed
    ensures forall a :: a in kept ==> a !in freed
  {
    forall a ensures multiset(kept)[a] <= 1 && multiset(freed)[a] <= 1 && (a in retired <==> a in kept || a in freed) {
      OnceEach(retired, a);
      assert multiset(retired)[a] == multiset(kept)[a] + multiset(freed)[a];
      assert (a in retired <==> a in multiset(retired)) && (a in kept <==> a in multiset(kept))
          && (a in freed <==> a in multiset(freed));
    }
    NoDupFromCounts(kept);
    NoDupFromCounts(freed);
  }

  /** A list without repetitions whose entries all occur in another is no longer than it. */
  lemma {:induction false} NoLonger(s: seq<Addr>, w: seq<Addr>)
    requires NoDup(s) && forall a :: a in s ==> a in w
    ensures |s| <= |w|
  {
    if s != [] {
      var a := s[0];
      assert a in w;
      var i :| 0 <= i < |w| && w[i] == a;
      var w' := w[..i] + w[i + 1..];
      forall b | b in s[1..] ensures b in w' {
        assert b in s && b in w;
        var j :| 0 <= j < |w| && w[j] == b;
        assert b != a && j != i;
        assert w'[if j < i then j else j - 1] == b;
      }
      NoLonger(s[1..], w');
    }
  }

  // ----- reclaiming ---------------------------------------------------------------------

  ghost predicate Collects(sh: Shared, t: Tid, n: nat, c: Cid, kept: seq<Addr>, freed: seq<Addr>, after: Shared) {
    && c in sh.cells && NoDup(kept) && NoDup(freed)
    && (forall a :: a in sh.cells[c].retired <==> a in kept || a in freed)
    && (forall a :: a in kept ==> a !in freed)
    && after == SetCell(sh, c, sh.cells[c].(retired := kept)).(heap := MoveOut(sh.heap, freed, Taken(t, n)))
  }

  lemma {:induction false} FreedAreRetired(
    sh: Shared, t: Tid, n: nat, c: Cid, kept: seq<Addr>, freed: seq<Addr>, after: Shared)
    requires Collects(sh, t, n, c, kept, freed, after) && CellsInv(sh.cells, sh.heap)
    ensures forall a :: a in freed || a in kept ==> a in sh.heap && sh.heap[a].cell == c && sh.heap[a].place.Retired?
  {
    assert CellOk(c, sh.cells[c], sh.heap);
  }

  lemma {:induction false} CollectHeap(
    sh: Shared, t: Tid, n: nat, c: Cid, kept: seq<Addr>, freed: seq<Addr>, after: Shared)
    requires Collects(sh, t, n, c, kept, freed, after) && HeapInv(sh.heap, sh.cells) && CellsInv(sh.cells, sh.heap)
    ensures HeapInv(after.heap, after.cells)
  {
    hide CellsInv;
    FreedAreRetired(sh, t, n, c, kept, freed, after);
    forall a | a in after.heap ensures ObjOk(a, after.heap[a], after.cells) { assert ObjOk(a, sh.heap[a], sh.cells); }
  }

  lemma {:induction false} CollectCells(
    sh: Shared, t: Tid, n: nat, c: Cid, kept: seq<Addr>, freed: seq<Addr>, after: Shared)
    requires Collects(sh, t, n, c, kept, freed, after) && CellsInv(sh.cells, sh.heap) && OpenIn(sh.cells, c)
    ensures CellsInv(after.cells, after.heap)
  {
    FreedAreRetired(sh, t, n, c, kept, freed, after);
    forall b | b in after.cells ensures CellOk(b, after.cells[b], after.heap) {
      assert CellOk(b, sh.cells[b], sh.heap);
      forall v | 0 <= v < |after.cells[b].home| ensures HomeOk(b, after.cells[b], v, after.heap) {
        assert HomeOk(b, sh.cells[b], v, sh.heap);
      }
    }
  }

  lemma {:induction false} CollectCounts(
    sh: Shared, t: Tid, n: nat, c: Cid, kept: seq<Addr>, freed: seq<Addr>, after: Shared)
    requires Collects(sh, t, n, c, kept, freed, after) && CellsInv(sh.cells, sh.heap)
    requires HandlesInv(sh.handles, sh.heap, sh.nextTok) && StrongInv(sh.heap, sh.handles)
    ensures HandlesInv(after.handles, after.heap, after.nextTok) && StrongInv(after.heap, after.handles)
  {
    hide Holders;
    FreedAreRetired(sh, t, n, c, kept, freed, after);
    forall tok | tok in after.handles ensures tok < after.nextTok && HandleOk(after.handles[tok], after.heap) {
      assert HandleOk(sh.handles[tok], sh.heap);
    }
    forall a | a in after.heap
      ensures StrongOk(a, after.heap[a], after.handles)
    {
      assert StrongOk(a, sh.heap[a], sh.handles);
    }
  }

  /** A retired version is never the newest one. */
  lemma {:induction false} RetiredIsOld(sh: Shared, c: Cid, a: Addr)
    requires HeapInv(sh.heap, sh.cells) && CellsInv(sh.cells, sh.heap) && c in sh.cells && a in sh.cells[c].retired
    ensures a in sh.heap && sh.heap[a].version < |Hist(sh.cells[c])| - 1
  {
    var x := sh.cells[c];
    assert CellOk(c, x, sh.heap) && ObjOk(a, sh.heap[a], sh.cells) && ObjOk(x.current, sh.heap[x.current], sh.cells);
  }

  /** No list that a reader has validated is taken out: the scan would have found it. */
  lemma {:induction false} CollectSlots(
    sh: Shared, t: Tid, n: nat, op: Op, kept: seq<Addr>, freed: seq<Addr>, after: Shared)
    requires op.Scanning? && op.cursor == NULL && Collects(sh, t, n, op.c, kept, freed, after)
    requires HeapInv(sh.heap, sh.cells) && CellsInv(sh.cells, sh.heap) && Inv(sh.dom)
    requires SlotsInv(sh.dom, sh.heap) && ScanOk(sh.dom, sh.cells, op) && forall a :: a in freed ==> a !in op.found
    ensures SlotsInv(after.dom, after.heap)
  {
    hide HeapInv, CellsInv, Inv;
    FreedAreRetired(sh, t, n, op.c, kept, freed, after);
    forall r, k | SlotAt(sh.dom, r, k).guard.Validated? ensures Protected(SlotAt(sh.dom, r, k), after.heap) {
      var s := SlotAt(sh.dom, r, k);
      assert Protected(s, sh.heap);
      if s.ptr in freed {
        RetiredIsOld(sh, op.c, s.ptr);
        AllPassed(sh.dom, r, k);
        assert false;
      }
    }
  }

  lemma {:induction false} CollectWords(
    sh: Shared, t: Tid, n: nat, c: Cid, kept: seq<Addr>, freed: seq<Addr>, after: Shared)
    requires Collects(sh, t, n, c, kept, freed, after) && WordsInv(sh) && sh.cells[c].lock == By(t)
    ensures WordsInv(after)
  {
    hide L.LogInv;
    forall b | b in after.cells ensures CounterOk(after.cells[b], after.nextTok) && L.LogInv(after.cells[b].log) {
      assert CounterOk(sh.cells[b], sh.nextTok);
    }
  }

  lemma {:induction false} OneCellG(cells: map<Cid, Cell>, c: Cid, y: Cell, t: Tid)
    requires c in cells && CellG(cells[c], y, t) && (cells[c].open ==> y.open)
    ensures CellsG(cells, cells[c := y], t, {})
  {
    var after := cells[c := y];
    forall b | b in cells ensures CellG(cells[b], after[b], t) {
      if b != c { CellRefl(cells[b], t); }
    }
  }

  lemma {:induction false} CollectCellG(x: Cell, kept: seq<Addr>, t: Tid)
    requires x.lock == By(t)
    ensures CellG(x, x.(retired := kept), t)
  {
  }

  lemma {:induction false} CollectHeapG(
    sh: Shared, t: Tid, n: nat, c: Cid, kept: seq<Addr>, freed: seq<Addr>, after: Shared)
    requires Collects(sh, t, n, c, kept, freed, after) && CellsInv(sh.cells, sh.heap)
    ensures HeapG(sh.heap, after.heap, t) && HandlesG(sh.handles, after.handles, t) && after.dom == sh.dom
    ensures Takes(after.heap, t, n, freed)
    ensures forall a :: a in sh.heap && sh.heap[a].place.Taken? ==>
            a in after.heap && after.heap[a].place == sh.heap[a].place
    ensures forall a :: a in after.heap && after.heap[a].place.Taken? ==>
            a in sh.heap && (a in freed || after.heap[a].place == sh.heap[a].place)
  {
    hide CellsInv;
    FreedAreRetired(sh, t, n, c, kept, freed, after);
  }

  lemma {:induction false} CollectFrames(sh: Shared, t: Tid, th: Thread, c: Cid, y: Cell, after: Shared)
    requires ThreadOk(sh, t, th) && after.dom == sh.dom && after.handles == sh.handles && c in sh.cells
    requires after.cells == sh.cells[c := y]
    requires y.log == sh.cells[c].log && y.open == sh.cells[c].open && y.counted == sh.cells[c].counted
    requires forall a :: a in sh.heap && sh.heap[a].place.Taken? ==>
             a in after.heap && after.heap[a].place == sh.heap[a].place
    ensures forall i :: 0 <= i < |th.frames| ==> FrameOk(after, t, i, th.frames[i])
  {
    hide ThreadOk;
    Frames(sh, t, th);
    forall i | 0 <= i < |th.frames| ensures Carries(sh, after, th.frames[i]) {
      assert FrameOk(sh, t, i, th.frames[i]);
    }
    CarryFrames(sh, after, t, th);
  }

  lemma {:induction false} CollectAnswers(
    sh: Shared, t: Tid, th: Thread, c: Cid, y: Cell, freed: seq<Addr>, after: Shared)
    requires Answers(sh.heap, sh.cells, t, th) && th.op.Scanning? && c in sh.cells && after.cells == sh.cells[c := y]
    requires y.log == sh.cells[c].log
    requires Takes(after.heap, t, |th.frames|, freed)
    requires forall a :: a in after.heap && after.heap[a].place.Taken? ==>
             a in sh.heap && (a in freed || after.heap[a].place == sh.heap[a].place)
    ensures Answers(after.heap, after.cells, t, SetOp(th, Storing(c, freed)))
  {
    var th' := SetOp(th, Storing(c, freed));
    forall b, id | b in after.cells && id in after.cells[b].log.running && after.cells[b].log.running[id] == t
      ensures RunBacked(th', b, id)
    {
      assert RunBacked(th, b, id);
    }
    forall a | a in after.heap && after.heap[a].place.Taken? && after.heap[a].place.tid == t
      ensures TakenBacked(th', after.heap[a].place.depth, a)
    {
      if a !in freed { assert TakenBacked(th, sh.heap[a].place.depth, a); }
    }
  }

  /** The scan of a cell, complete, bounds what it may keep. */
  lemma {:induction false} KeptBound(d: Domain, cells: map<Cid, Cell>, op: Op, kept: seq<Addr>)
    requires Inv(d) && op.Scanning? && op.cursor == NULL && ScanOk(d, cells, op)
    requires NoDup(kept) && forall a :: a in kept ==> a in op.found
    ensures |kept| <= SLOTS * |d.chain|
  {
    NoLonger(kept, op.found);
  }

  lemma {:induction false} ScanningOp(sh: Shared, t: Tid, n: nat, op: Op)
    requires OpOk(sh, t, n, op) && op.Scanning?
    ensures ScanOk(sh.dom, sh.cells, op) && LockedBy(sh.cells, op.c, t) && OpenIn(sh.cells, op.c)
  {
  }

  lemma {:induction false} StoringOp(sh: Shared, t: Tid, n: nat, c: Cid, freed: seq<Addr>)
    requires LockedBy(sh.cells, c, t) && OpenIn(sh.cells, c) && |sh.cells[c].retired| <= SLOTS * |sh.dom.chain|
    requires Takes(sh.heap, t, n, freed)
    ensures OpOk(sh, t, n, Storing(c, freed))
  {
  }

  lemma {:induction false} CollectLists(
    sh: Shared, t: Tid, n: nat, op: Op, kept: seq<Addr>, freed: seq<Addr>, after: Shared)
    requires op.Scanning? && op.cursor == NULL && Collects(sh, t, n, op.c, kept, freed, after) && ListsInv(sh)
    requires Inv(sh.dom)
    requires OpenIn(sh.cells, op.c) && ScanOk(sh.dom, sh.cells, op) && forall a :: a in freed ==> a !in op.found
    ensures ListsInv(after)
  {
    hide Collects, HeapInv, CellsInv, HandlesInv, StrongInv, SlotsInv, Inv, ScanOk;
    CollectHeap(sh, t, n, op.c, kept, freed, after);
    CollectCells(sh, t, n, op.c, kept, freed, after);
    CollectCounts(sh, t, n, op.c, kept, freed, after);
    CollectSlots(sh, t, n, op, kept, freed, after);
  }

  lemma {:induction false} CollectIs(sh: Shared, t: Tid, th: Thread, kept: seq<Addr>, freed: seq<Addr>)
    requires CellsInv(sh.cells, sh.heap) && CanCollect(sh, t, th, kept, freed)
    ensures Collects(sh, t, |th.frames|, th.op.c, kept, freed, DoCollect(sh, t, th, kept, freed).0)
    ensures forall a :: a in freed ==> a !in th.op.found
    ensures forall a :: a in kept ==> a in th.op.found
  {
    assert CellOk(th.op.c, sh.cells[th.op.c], sh.heap);
    SplitParts(sh.cells[th.op.c].retired, th.op.found, kept, freed);
  }

  lemma {:induction false} CollectKept(sh: Shared, t: Tid, th: Thread, kept: seq<Addr>, freed: seq<Addr>)
    requires SharedInv(sh) && ActorOk(sh, t, th) && CanCollect(sh, t, th, kept, freed)
    ensures var r := DoCollect(sh, t, th, kept, freed); Good(sh, r.0, t, r.1, {})
  {
    hide SharedInv, HeapInv, CellsInv, HandlesInv, StrongInv, SlotsInv, WordsInv, Inv, CellsG, HeapG, HandlesG, FrameOk;
    hide Answers, PinsBacked, OpOk, AcqOk, ThreadOk, Collects, CellG, Takes, ScanOk, IsSplit, Good, MoveOut, NoDup;
    var n, c := |th.frames|, th.op.c;
    var r := DoCollect(sh, t, th, kept, freed);
    var y := sh.cells[c].(retired := kept);
    ListsPart(sh);
    CurrentOp(sh, t, th);
    ScanningOp(sh, t, n, th.op);
    CollectIs(sh, t, th, kept, freed);
    CollectNoDup(sh, t, n, c, kept, freed, r.0);
    CollectLists(sh, t, n, th.op, kept, freed, r.0);
    CollectWords(sh, t, n, c, kept, freed, r.0);
    CollectHeapG(sh, t, n, c, kept, freed, r.0);
    CollectCellG(sh.cells[c], kept, t);
    OneCellG(sh.cells, c, y, t);
    KeptBound(sh.dom, sh.cells, th.op, kept);
    StoringOp(r.0, t, n, c, freed);
    CollectFrames(sh, t, th, c, y, r.0);
    CollectAnswers(sh, t, th, c, y, freed, r.0);
    LightBacked(sh.dom, t, th, r.1.op);
    LightAcq(sh.dom.locals[t], th, r.1);
    HeapGood(sh, r.0, t, th, r.1, {});
  }

  lemma {:induction false} CollectNoDup(
    sh: Shared, t: Tid, n: nat, c: Cid, kept: seq<Addr>, freed: seq<Addr>, after: Shared)
    requires Collects(sh, t, n, c, kept, freed, after)
    ensures NoDup(kept)
  {
  }

  lemma {:induction false} LightAcq(l: Local, th: Thread, th': Thread)
    requires AcqOk(l, th) && !th.op.Exiting? && !th.op.Pinning? && !th'.op.Exiting?
    ensures AcqOk(l, th')
  {
  }

  // ----- writing -----------------------------------------------------------------------

  ghost predicate Installs(sh: Shared, t: Tid, c: Cid, a: Addr, req: Request, next: seq<Entry>, after: Shared) {
    && OpenIn(sh.cells, c) && sh.cells[c].lock == By(t) && sh.cells[c].current in sh.heap && a != NULL && a !in sh.heap
    && Apply(sh.heap[sh.cells[c].current].list, req) == Some(next)
    && after == Install(sh, c, a, req, next)
  }

  lemma {:induction false} InstallHeap(
    sh: Shared, t: Tid, c: Cid, a: Addr, req: Request, next: seq<Entry>, after: Shared)
    requires Installs(sh, t, c, a, req, next, after) && HeapInv(sh.heap, sh.cells) && CellsInv(sh.cells, sh.heap)
    ensures HeapInv(after.heap, after.cells)
  {
    hide Apply, L.LogInv, CellsInv;
    CurrentIsAllocated(sh, c);
    InstallHome(sh, c);
    forall b | b in after.heap ensures ObjOk(b, after.heap[b], after.cells) {
      if b != a { assert ObjOk(b, sh.heap[b], sh.cells); }
    }
  }

  lemma {:induction false} InstallHome(sh: Shared, c: Cid)
    requires CellsInv(sh.cells, sh.heap) && c in sh.cells
    ensures |sh.cells[c].home| == |sh.cells[c].frees| == |Hist(sh.cells[c])|
  {
    assert CellOk(c, sh.cells[c], sh.heap);
  }

  /** Another cell does not notice the new list. */
  lemma {:induction false} OtherCell(heap: map<Addr, Obj>, heap': map<Addr, Obj>, b: Cid, y: Cell)
    requires CellOk(b, y, heap)
    requires forall d :: d in heap && heap[d].cell == b ==> d in heap' && heap'[d] == heap[d]
    ensures CellOk(b, y, heap')
  {
    forall v | 0 <= v < |y.home| ensures HomeOk(b, y, v, heap') { assert HomeOk(b, y, v, heap); }
  }

  lemma {:induction false} InstallCell(
    sh: Shared, t: Tid, c: Cid, a: Addr, req: Request, next: seq<Entry>, after: Shared)
    requires Installs(sh, t, c, a, req, next, after) && CellsInv(sh.cells, sh.heap)
    ensures CellOk(c, after.cells[c], after.heap)
  {
    hide Apply;
    var x, y := sh.cells[c], after.cells[c];
    assert CellOk(c, x, sh.heap);
    forall v | 0 <= v < |y.home| ensures HomeOk(c, y, v, after.heap) {
      if v < |x.home| { assert HomeOk(c, x, v, sh.heap); }
    }
  }

  lemma {:induction false} InstallCells(
    sh: Shared, t: Tid, c: Cid, a: Addr, req: Request, next: seq<Entry>, after: Shared)
    requires Installs(sh, t, c, a, req, next, after) && HeapInv(sh.heap, sh.cells) && CellsInv(sh.cells, sh.heap)
    ensures CellsInv(after.cells, after.heap)
  {
    hide Apply, CellOk, HeapInv;
    CurrentIsAllocated(sh, c);
    InstallCell(sh, t, c, a, req, next, after);
    forall b | b in after.cells ensures CellOk(b, after.cells[b], after.heap) {
      if b != c { OtherCell(sh.heap, after.heap, b, sh.cells[b]); }
    }
  }

  lemma {:induction false} InstallCounts(
    sh: Shared, t: Tid, c: Cid, a: Addr, req: Request, next: seq<Entry>, after: Shared)
    requires Installs(sh, t, c, a, req, next, after) && HeapInv(sh.heap, sh.cells) && CellsInv(sh.cells, sh.heap)
    requires HandlesInv(sh.handles, sh.heap, sh.nextTok) && StrongInv(sh.heap, sh.handles)
    ensures HandlesInv(after.handles, after.heap, after.nextTok) && StrongInv(after.heap, after.handles)
  {
    hide Apply, CellsInv, HeapInv;
    CurrentIsAllocated(sh, c);
    forall tok | tok in after.handles ensures tok < after.nextTok && HandleOk(after.handles[tok], after.heap) {
      assert HandleOk(sh.handles[tok], sh.heap);
    }
    assert Holders(sh.handles, a) == {} by {
      forall tok | tok in sh.handles ensures sh.handles[tok].addr != a { assert HandleOk(sh.handles[tok], sh.heap); }
    }
    forall b | b in after.heap ensures StrongOk(b, after.heap[b], after.handles) {
      if b != a { assert StrongOk(b, sh.heap[b], sh.handles); }
    }
  }

  lemma {:induction false} InstallSlots(
    sh: Shared, t: Tid, c: Cid, a: Addr, req: Request, next: seq<Entry>, after: Shared)
    requires Installs(sh, t, c, a, req, next, after) && SlotsInv(sh.dom, sh.heap)
    ensures SlotsInv(after.dom, after.heap)
  {
    hide Apply;
    forall r, k | SlotAt(after.dom, r, k).guard.Validated? ensures Protected(SlotAt(after.dom, r, k), after.heap) {
      assert Protected(SlotAt(sh.dom, r, k), sh.heap);
    }
  }

  /** The history grows by the write, and ids drawn by other threads stay theirs. */
  lemma {:induction false} InstallLog(
    sh: Shared, t: Tid, c: Cid, a: Addr, req: Request, next: seq<Entry>, after: Shared)
    requires Installs(sh, t, c, a, req, next, after) && HeapInv(sh.heap, sh.cells) && CellsInv(sh.cells, sh.heap)
    requires L.LogInv(sh.cells[c].log)
    requires req.Insert? && sh.cells[c].log.drawn <= L.U64 ==> IsPending(sh.cells[c].log, req.entry.id, t)
    ensures L.LogInv(after.cells[c].log) && CellG(sh.cells[c], after.cells[c], t)
  {
    hide Apply, L.LogInv, HeapInv, CellsInv;
    var x, y := sh.cells[c], after.cells[c];
    CurrentIsAllocated(sh, c);
    L.CommitKept(x.log, req, next);
    assert Hist(x) <= Hist(y);
  }

  lemma {:induction false} InstallWords(
    sh: Shared, t: Tid, c: Cid, a: Addr, req: Request, next: seq<Entry>, after: Shared)
    requires Installs(sh, t, c, a, req, next, after) && WordsInv(sh) && L.LogInv(after.cells[c].log)
    ensures WordsInv(after)
  {
    hide Apply, L.LogInv;
    forall b | b in after.cells ensures CounterOk(after.cells[b], after.nextTok) && L.LogInv(after.cells[b].log) {
      assert CounterOk(sh.cells[b], sh.nextTok);
    }
  }

  lemma {:induction false} InstallRest(
    sh: Shared, t: Tid, c: Cid, a: Addr, req: Request, next: seq<Entry>, after: Shared)
    requires Installs(sh, t, c, a, req, next, after) && HeapInv(sh.heap, sh.cells) && CellsInv(sh.cells, sh.heap)
    ensures HeapG(sh.heap, after.heap, t) && HandlesG(sh.handles, after.handles, t) && after.dom == sh.dom
    ensures after.handles == sh.handles
    ensures forall b :: b in sh.heap && sh.heap[b].place.Taken? ==>
            b in after.heap && after.heap[b].place == sh.heap[b].place
    ensures forall b :: b in after.heap && after.heap[b].place.Taken? ==>
            b in sh.heap && after.heap[b].place == sh.heap[b].place
    ensures after.cells == sh.cells[c := after.cells[c]] && after.cells[c].open
    ensures OpOk(after, t, 0, ScanStart(c)) && forall n :: OpOk(after, t, n, ScanStart(c))
  {
    hide Apply, HeapInv, CellsInv, L.Commit;
    CurrentIsAllocated(sh, c);
  }

  lemma {:induction false} InstallFrames(sh: Shared, t: Tid, th: Thread, c: Cid, y: Cell, after: Shared)
    requires ThreadOk(sh, t, th) && after.dom == sh.dom && after.handles == sh.handles && c in sh.cells
    requires after.cells == sh.cells[c := y]
    requires Hist(sh.cells[c]) <= Hist(y) && y.open == sh.cells[c].open && y.counted == sh.cells[c].counted
    requires forall a :: a in sh.heap && sh.heap[a].place.Taken? ==>
             a in after.heap && after.heap[a].place == sh.heap[a].place
    ensures forall i :: 0 <= i < |th.frames| ==> FrameOk(after, t, i, th.frames[i])
  {
    hide ThreadOk;
    Frames(sh, t, th);
    forall i | 0 <= i < |th.frames| ensures Carries(sh, after, th.frames[i]) {
      assert FrameOk(sh, t, i, th.frames[i]);
    }
    CarryFrames(sh, after, t, th);
  }

  /** After its write a thread no longer answers for removing the body it ran. */
  lemma {:induction false} WriteAnswers(
    heap: map<Addr, Obj>, heap': map<Addr, Obj>, cells: map<Cid, Cell>, y: Cell, t: Tid, th: Thread, op: Op)
    requires Answers(heap, cells, t, th) && th.op.Writing? && th.op.c in cells
    requires y.log.running == if th.op.req.Remove?
             then cells[th.op.c].log.running - {th.op.req.id} else cells[th.op.c].log.running
    requires forall b :: b in heap' && heap'[b].place.Taken? ==> b in heap && heap'[b].place == heap[b].place
    ensures Answers(heap', cells[th.op.c := y], t, SetOp(th, op))
  {
    var after, th' := cells[th.op.c := y], SetOp(th, op);
    forall c, id | c in after && id in after[c].log.running && after[c].log.running[id] == t
      ensures RunBacked(th', c, id)
    {
      assert id in cells[c].log.running && RunBacked(th, c, id);
    }
  }

  lemma {:induction false} WritingOp(sh: Shared, t: Tid, n: nat, op: Op)
    requires OpOk(sh, t, n, op) && op.Writing?
    ensures LockedBy(sh.cells, op.c, t) && OpenIn(sh.cells, op.c) && Settled(sh.cells[op.c], |sh.dom.chain|)
    ensures op.req.Insert? && sh.cells[op.c].log.drawn <= L.U64 ==> IsPending(sh.cells[op.c].log, op.req.entry.id, t)
  {
  }

  lemma {:induction false} InstallLists(
    sh: Shared, t: Tid, c: Cid, a: Addr, req: Request, next: seq<Entry>, after: Shared)
    requires Installs(sh, t, c, a, req, next, after) && ListsInv(sh)
    ensures ListsInv(after)
  {
    hide Installs, HeapInv, CellsInv, HandlesInv, StrongInv, SlotsInv;
    InstallHeap(sh, t, c, a, req, next, after);
    InstallCells(sh, t, c, a, req, next, after);
    InstallCounts(sh, t, c, a, req, next, after);
    InstallSlots(sh, t, c, a, req, next, after);
  }

  lemma {:induction false} WriteHit(sh: Shared, t: Tid, th: Thread, a: Addr, next: seq<Entry>)
    requires SharedInv(sh) && ActorOk(sh, t, th) && CanWrite(sh, t, th, a)
    requires Apply(sh.heap[sh.cells[th.op.c].current].list, th.op.req) == Some(next)
    ensures var r := DoWrite(sh, t, th, a); Good(sh, r.0, t, r.1, {})
  {
    hide SharedInv, HeapInv, CellsInv, HandlesInv, StrongInv, SlotsInv, WordsInv, Inv, CellsG, HeapG, HandlesG, FrameOk;
    hide Answers, PinsBacked, OpOk, AcqOk, ThreadOk, CellG, Good, Apply, L.LogInv, Settled, IsPending;
    var c, req := th.op.c, th.op.req;
    var r := DoWrite(sh, t, th, a);
    ListsPart(sh);
    CurrentOp(sh, t, th);
    WritingOp(sh, t, |th.frames|, th.op);
    assert Installs(sh, t, c, a, req, next, r.0);
    InstallLists(sh, t, c, a, req, next, r.0);
    LogIn(sh, c);
    InstallLog(sh, t, c, a, req, next, r.0);
    InstallWords(sh, t, c, a, req, next, r.0);
    InstallRest(sh, t, c, a, req, next, r.0);
    OneCellG(sh.cells, c, r.0.cells[c], t);
    InstallFrames(sh, t, th, c, r.0.cells[c], r.0);
    WriteAnswers(sh.heap, r.0.heap, sh.cells, r.0.cells[c], t, th, ScanStart(c));
    FramesBacked(sh.dom, t, th, r.1);
    LightAcq(sh.dom.locals[t], th, r.1);
    HeapGood(sh, r.0, t, th, r.1, {});
  }

  lemma {:induction false} LogIn(sh: Shared, c: Cid)
    requires WordsInv(sh) && c in sh.cells
    ensures L.LogInv(sh.cells[c].log) && CounterOk(sh.cells[c], sh.nextTok)
  {
  }

  lemma {:induction false} MissWords(x: Cell, nextTok: Tok, t: Tid, req: Request, y: Cell)
    requires CounterOk(x, nextTok) && L.LogInv(x.log) && Apply(L.Current(x.log), req) == None
    requires y == x.(log := L.Miss(x.log, req))
    ensures CellG(x, y, t) && CounterOk(y, nextTok) && SameLists(x, y) && L.LogInv(y.log)
    ensures forall c, f :: SameCount(x, y, c, f)
  {
    hide L.LogInv, Apply, CellG, CounterOk, SameCount;
    L.MissKept(x.log, req);
    LogWords(x, nextTok, t, y);
  }

  lemma {:induction false} UnlockingNothing(sh: Shared, after: Shared, t: Tid, n: nat, c: Cid, y: Cell)
    requires LockedBy(sh.cells, c, t) && OpenIn(sh.cells, c) && Settled(sh.cells[c], |sh.dom.chain|)
    requires after == SetCell(sh, c, y)
    requires SameLists(sh.cells[c], y) && y.lock == sh.cells[c].lock && y.retiredLen == sh.cells[c].retiredLen
    ensures OpOk(after, t, n, Unlocking(c, []))
  {
  }

  lemma {:induction false} WriteMiss(sh: Shared, t: Tid, th: Thread, a: Addr)
    requires SharedInv(sh) && ActorOk(sh, t, th) && CanWrite(sh, t, th, a)
    requires Apply(sh.heap[sh.cells[th.op.c].current].list, th.op.req) == None
    ensures var r := DoWrite(sh, t, th, a); Good(sh, r.0, t, r.1, {})
  {
    hide SharedInv, ActorOk, Good, Answers, OpOk, WordsInv, ListsInv, HeapInv, CellsInv, SlotsInv, L.LogInv, ThreadOk;
    hide FrameOk, CellG, CounterOk, SameCount, Apply, Settled, Inv;
    var c := th.op.c;
    var r := DoWrite(sh, t, th, a);
    var x, y := sh.cells[c], r.0.cells[c];
    CurrentOp(sh, t, th);
    WritingOp(sh, t, |th.frames|, th.op);
    ListsPart(sh);
    SlotsPart(sh);
    LogIn(sh, c);
    CurrentIsAllocated(sh, c);
    MissWords(x, sh.nextTok, t, th.op.req, y);
    ActorThread(sh, t, th);
    CellFrames(sh, c, y, r.0, t, th);
    UnlockingNothing(sh, r.0, t, |th.frames|, c, y);
    ActorAnswers(sh, t, th);
    WriteAnswers(sh.heap, sh.heap, sh.cells, y, t, th, r.1.op);
    CellGood(sh, c, y, r.0, t, th, r.1);
  }

  lemma {:induction false} WriteKept(sh: Shared, t: Tid, th: Thread, a: Addr)
    requires SharedInv(sh) && ActorOk(sh, t, th) && CanWrite(sh, t, th, a)
    ensures var r := DoWrite(sh, t, th, a); Good(sh, r.0, t, r.1, {})
  {
    hide SharedInv, ActorOk, Good, Apply, DoWrite;
    match Apply(sh.heap[sh.cells[th.op.c].current].list, th.op.req)
    case None => WriteMiss(sh, t, th, a);
    case Some(next) => WriteHit(sh, t, th, a, next);
  }
}
