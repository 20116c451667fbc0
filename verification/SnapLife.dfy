/** Opening and closing cells keep the invariant. */
module SnapLife {
  import opened HazardDomain
  import opened SnapCell
  import opened SnapInvariant
  import opened SnapStable
  import opened SnapQuiet
  import opened SnapReader
  import opened SnapLock
  import opened SnapHeap
  import opened SnapWrite
  import L = RegistryLog

  // ----- opening -----------------------------------------------------------------------

  ghost predicate Opens(sh: Shared, c: Cid, a: Addr, after: Shared) {
    && c !in sh.cells && a != NULL && a !in sh.heap
    && after == SetCell(sh, c,
        Cell(true, a, [], 0, 0, Nobody, 0, false, map[], L.FRESH, [a], [0])).(heap :=
            sh.heap[a := Obj(c, 0, [], 1, Current)])
  }

  lemma {:induction false} OpenHeap(sh: Shared, c: Cid, a: Addr, after: Shared)
    requires Opens(sh, c, a, after) && HeapInv(sh.heap, sh.cells)
    ensures HeapInv(after.heap, after.cells)
  {
    forall b | b in after.heap ensures ObjOk(b, after.heap[b], after.cells) {
      if b != a { assert ObjOk(b, sh.heap[b], sh.cells); }
    }
  }

  lemma {:induction false} OpenCells(sh: Shared, c: Cid, a: Addr, after: Shared)
    requires Opens(sh, c, a, after) && CellsInv(sh.cells, sh.heap)
    ensures CellsInv(after.cells, after.heap)
  {
    hide CellOk;
    forall b | b in after.cells ensures CellOk(b, after.cells[b], after.heap) {
      if b != c { OtherCell(sh.heap, after.heap, b, sh.cells[b]); } else { NewCell(sh, c, a, after); }
    }
  }

  lemma {:induction false} NewCell(sh: Shared, c: Cid, a: Addr, after: Shared)
    requires Opens(sh, c, a, after)
    ensures CellOk(c, after.cells[c], after.heap)
  {
  }

  lemma {:induction false} OpenCounts(sh: Shared, c: Cid, a: Addr, after: Shared)
    requires Opens(sh, c, a, after) && HandlesInv(sh.handles, sh.heap, sh.nextTok) && StrongInv(sh.heap, sh.handles)
    requires SlotsInv(sh.dom, sh.heap)
    ensures HandlesInv(after.handles, after.heap, after.nextTok) && StrongInv(after.heap, after.handles)
    ensures SlotsInv(after.dom, after.heap)
  {
    forall tok | tok in after.handles ensures tok < after.nextTok && HandleOk(after.handles[tok], after.heap) {
      assert HandleOk(sh.handles[tok], sh.heap);
    }
    assert Holders(sh.handles, a) == {} by {
      forall tok | tok in sh.handles ensures sh.handles[tok].addr != a { assert HandleOk(sh.handles[tok], sh.heap); }
    }
    forall b | b in after.heap ensures StrongOk(b, after.heap[b], after.handles) {
      if b != a { assert StrongOk(b, sh.heap[b], sh.handles); }
    }
    forall r, k | SlotAt(after.dom, r, k).guard.Validated? ensures Protected(SlotAt(after.dom, r, k), after.heap) {
      assert Protected(SlotAt(sh.dom, r, k), sh.heap);
    }
  }

  lemma {:induction false} OpenWords(sh: Shared, c: Cid, a: Addr, after: Shared)
    requires Opens(sh, c, a, after) && WordsInv(sh)
    ensures WordsInv(after)
  {
    hide L.LogInv;
    L.FreshHolds();
    forall b | b in after.cells ensures CounterOk(after.cells[b], after.nextTok) && L.LogInv(after.cells[b].log) {
      assert b != c ==> CounterOk(sh.cells[b], sh.nextTok);
    }
  }

  lemma {:induction false} OpenG(sh: Shared, c: Cid, a: Addr, after: Shared, t: Tid)
    requires Opens(sh, c, a, after)
    ensures CellsG(sh.cells, after.cells, t, {}) && HeapG(sh.heap, after.heap, t)
    ensures HandlesG(sh.handles, after.handles, t)
    ensures after.dom == sh.dom
  {
    forall b | b in sh.cells ensures CellG(sh.cells[b], after.cells[b], t) { CellRefl(sh.cells[b], t); }
  }

  lemma {:induction false} OpenAnswers(sh: Shared, c: Cid, a: Addr, after: Shared, t: Tid, th: Thread)
    requires Opens(sh, c, a, after) && Answers(sh.heap, sh.cells, t, th)
    ensures Answers(after.heap, after.cells, t, th)
  {
  }

  lemma {:induction false} OpenFrames(sh: Shared, c: Cid, a: Addr, after: Shared, t: Tid, th: Thread)
    requires Opens(sh, c, a, after) && ThreadOk(sh, t, th)
    ensures forall i :: 0 <= i < |th.frames| ==> FrameOk(after, t, i, th.frames[i])
  {
    hide ThreadOk, FrameOk;
    CarryFrames(sh, after, t, th);
  }

  lemma {:induction false} OpenCellKept(sh: Shared, t: Tid, th: Thread, c: Cid, a: Addr)
    requires SharedInv(sh) && ActorOk(sh, t, th) && CanOpenCell(sh, t, th, c, a)
    ensures var r := DoOpenCell(sh, t, th, c, a); Good(sh, r.0, t, r.1, {})
  {
    hide SharedInv, HeapInv, CellsInv, HandlesInv, StrongInv, SlotsInv, WordsInv, Inv, CellsG, HeapG, HandlesG, FrameOk;
    hide Answers, PinsBacked, OpOk, AcqOk, ThreadOk, Good;
    var r := DoOpenCell(sh, t, th, c, a);
    ListsPart(sh);
    assert Opens(sh, c, a, r.0);
    OpenHeap(sh, c, a, r.0);
    OpenCells(sh, c, a, r.0);
    OpenCounts(sh, c, a, r.0);
    OpenWords(sh, c, a, r.0);
    OpenG(sh, c, a, r.0, t);
    OpenAnswers(sh, c, a, r.0, t, th);
    OpenFrames(sh, c, a, r.0, t, th);
    CurrentOp(sh, t, th);
    IdleOp(r.0, t, |th.frames|);
    HeapGood(sh, r.0, t, th, th, {});
  }

  // ----- closing -----------------------------------------------------------------------

  ghost predicate Closes(sh: Shared, t: Tid, n: nat, c: Cid, all: seq<Addr>, after: Shared) {
    && OpenIn(sh.cells, c) && sh.cells[c].current in sh.heap && all == [sh.cells[c].current] + sh.cells[c].retired
    && after == SetCell(sh, c,
        sh.cells[c].(open := false, retired := [], retiredLen := 0)).(heap := MoveOut(sh.heap, all, Taken(t, n)))
  }

  /** Everything the cell still holds is taken out. */
  lemma {:induction false} AllOfCell(sh: Shared, t: Tid, n: nat, c: Cid, all: seq<Addr>, after: Shared)
    requires Closes(sh, t, n, c, all, after) && HeapInv(sh.heap, sh.cells) && CellsInv(sh.cells, sh.heap)
    ensures forall a :: a in all <==>
            a in sh.heap && sh.heap[a].cell == c && (sh.heap[a].place.Current? || sh.heap[a].place.Retired?)
    ensures NoDup(all)
  {
    hide CellsInv, HeapInv;
    var x := sh.cells[c];
    CurrentIsAllocated(sh, c);
    RetiredFacts(sh, c);
    forall a ensures a in all <==>
        a in sh.heap && sh.heap[a].cell == c && (sh.heap[a].place.Current? || sh.heap[a].place.Retired?) {
      if a in sh.heap { PlaceFacts(sh, a); }
    }
  }

  lemma {:induction false} RetiredFacts(sh: Shared, c: Cid)
    requires CellsInv(sh.cells, sh.heap) && c in sh.cells
    ensures RetiredOk(c, sh.cells[c].retired, sh.heap)
  {
    assert CellOk(c, sh.cells[c], sh.heap);
  }

  lemma {:induction false} PlaceFacts(sh: Shared, a: Addr)
    requires HeapInv(sh.heap, sh.cells) && a in sh.heap
    ensures ObjOk(a, sh.heap[a], sh.cells)
  {
  }

  lemma {:induction false} CloseHeap(sh: Shared, t: Tid, n: nat, c: Cid, all: seq<Addr>, after: Shared)
    requires Closes(sh, t, n, c, all, after) && HeapInv(sh.heap, sh.cells) && CellsInv(sh.cells, sh.heap)
    ensures HeapInv(after.heap, after.cells)
  {
    hide CellsInv;
    AllOfCell(sh, t, n, c, all, after);
    forall a | a in after.heap ensures ObjOk(a, after.heap[a], after.cells) { assert ObjOk(a, sh.heap[a], sh.cells); }
  }

  lemma {:induction false} CloseCells(sh: Shared, t: Tid, n: nat, c: Cid, all: seq<Addr>, after: Shared)
    requires Closes(sh, t, n, c, all, after) && HeapInv(sh.heap, sh.cells) && CellsInv(sh.cells, sh.heap)
    ensures CellsInv(after.cells, after.heap)
  {
    hide HeapInv;
    AllOfCell(sh, t, n, c, all, after);
    forall b | b in after.cells ensures CellOk(b, after.cells[b], after.heap) {
      assert CellOk(b, sh.cells[b], sh.heap);
      forall v | 0 <= v < |after.cells[b].home| ensures HomeOk(b, after.cells[b], v, after.heap) {
        assert HomeOk(b, sh.cells[b], v, sh.heap);
      }
    }
  }

  lemma {:induction false} CloseCounts(sh: Shared, t: Tid, n: nat, c: Cid, all: seq<Addr>, after: Shared)
    requires Closes(sh, t, n, c, all, after) && HeapInv(sh.heap, sh.cells) && CellsInv(sh.cells, sh.heap)
    requires HandlesInv(sh.handles, sh.heap, sh.nextTok) && StrongInv(sh.heap, sh.handles)
    ensures HandlesInv(after.handles, after.heap, after.nextTok) && StrongInv(after.heap, after.handles)
  {
    hide HeapInv, CellsInv, Holders;
    AllOfCell(sh, t, n, c, all, after);
    forall tok | tok in after.handles ensures tok < after.nextTok && HandleOk(after.handles[tok], after.heap) {
      assert HandleOk(sh.handles[tok], sh.heap);
    }
    forall a | a in after.heap
      ensures StrongOk(a, after.heap[a], after.handles)
    {
      assert StrongOk(a, sh.heap[a], sh.handles);
    }
  }

  /** Nobody announces a version of a cell nobody uses. */
  ghost predicate NotAnnounced(d: Domain, c: Cid) {
    forall r, k :: SlotAt(d, r, k).guard.Validated? ==> SlotAt(d, r, k).guard.cell != c
  }

  lemma {:induction false} BackedUses(th: Thread, s: Slot, k: nat)
    requires s.guard.Validated? && SlotBacked(th, s, k)
    ensures UsesCell(th, s.guard.cell)
  {
    var i := s.guard.depth;
    if i < |th.frames| && th.frames[i].Hazard? && th.frames[i].c == s.guard.cell {
      assert FrameUses(th.frames[i], s.guard.cell);
    }
  }

  lemma {:induction false} NoUserNoSlot(s: State, c: Cid)
    requires StateInv(s) && forall u :: u in s.threads ==> !UsesCell(s.threads[u], c)
    ensures NotAnnounced(s.sh.dom, c)
  {
    hide TakenInv, RunningInv, ThreadOk, HeapInv, CellsInv, HandlesInv, StrongInv, SlotsInv, LogsInv, SettledInv;
    hide CountersInv, CountInv, UsesCell, SlotBacked;
    var d := s.sh.dom;
    forall r, k | SlotAt(d, r, k).guard.Validated? ensures SlotAt(d, r, k).guard.cell != c {
      var u := d.recs[r].owner.tid;
      assert RecordOk(d.recs[r], r, d.locals) && LocalOk(d.locals[u], u, d.recs);
      assert OwnSlot(d, u, k) == SlotAt(d, r, k);
      assert PinsBacked(d, u, s.threads[u]);
      BackedUses(s.threads[u], SlotAt(d, r, k), k);
    }
  }

  lemma {:induction false} CloseSlots(sh: Shared, t: Tid, n: nat, c: Cid, all: seq<Addr>, after: Shared)
    requires Closes(sh, t, n, c, all, after) && HeapInv(sh.heap, sh.cells) && CellsInv(sh.cells, sh.heap)
    requires SlotsInv(sh.dom, sh.heap) && NotAnnounced(sh.dom, c)
    ensures SlotsInv(after.dom, after.heap)
  {
    hide HeapInv, CellsInv;
    AllOfCell(sh, t, n, c, all, after);
    forall r, k | SlotAt(after.dom, r, k).guard.Validated? ensures Protected(SlotAt(after.dom, r, k), after.heap) {
      assert Protected(SlotAt(sh.dom, r, k), sh.heap);
    }
  }

  lemma {:induction false} CloseWords(sh: Shared, t: Tid, n: nat, c: Cid, all: seq<Addr>, after: Shared)
    requires Closes(sh, t, n, c, all, after) && WordsInv(sh)
    ensures WordsInv(after)
  {
    hide L.LogInv;
    forall b | b in after.cells ensures CounterOk(after.cells[b], after.nextTok) && L.LogInv(after.cells[b].log) {
      assert CounterOk(sh.cells[b], sh.nextTok);
    }
  }

  lemma {:induction false} CloseCellsG(sh: Shared, t: Tid, n: nat, c: Cid, all: seq<Addr>, after: Shared)
    requires Closes(sh, t, n, c, all, after)
    ensures CellsG(sh.cells, after.cells, t, {c}) && HandlesG(sh.handles, after.handles, t) && after.dom == sh.dom
    ensures after.handles == sh.handles
  {
    forall b | b in sh.cells && b != c ensures CellG(sh.cells[b], after.cells[b], t) { CellRefl(sh.cells[b], t); }
  }

  lemma {:induction false} CloseHeapG(sh: Shared, t: Tid, n: nat, c: Cid, all: seq<Addr>, after: Shared)
    requires Closes(sh, t, n, c, all, after) && HeapInv(sh.heap, sh.cells) && CellsInv(sh.cells, sh.heap)
    ensures HeapG(sh.heap, after.heap, t) && Takes(after.heap, t, n, all)
    ensures forall a :: a in sh.heap && sh.heap[a].place.Taken? ==>
            a in after.heap && after.heap[a].place == sh.heap[a].place
    ensures forall a :: a in after.heap && after.heap[a].place.Taken? ==>
            a in sh.heap && (a in all || after.heap[a].place == sh.heap[a].place)
  {
    hide HeapInv, CellsInv;
    AllOfCell(sh, t, n, c, all, after);
  }

  lemma {:induction false} CloseFrames(sh: Shared, t: Tid, th: Thread, c: Cid, all: seq<Addr>, after: Shared)
    requires Closes(sh, t, |th.frames|, c, all, after) && ThreadOk(sh, t, th) && !UsesCell(th, c)
    requires Takes(after.heap, t, |th.frames|, all)
    requires forall a :: a in sh.heap && sh.heap[a].place.Taken? ==>
             a in after.heap && after.heap[a].place == sh.heap[a].place
    ensures var th' := Push(th, Dropping(all)); forall i :: 0 <= i < |th'.frames| ==>
            FrameOk(after, t, i, th'.frames[i])
  {
    hide ThreadOk;
    Frames(sh, t, th);
    forall i | 0 <= i < |th.frames| ensures Carries(sh, after, th.frames[i]) {
      assert FrameOk(sh, t, i, th.frames[i]) && !FrameUses(th.frames[i], c);
    }
    CarryFrames(sh, after, t, th);
  }

  lemma {:induction false} CloseAnswers(sh: Shared, t: Tid, th: Thread, c: Cid, all: seq<Addr>, after: Shared)
    requires Closes(sh, t, |th.frames|, c, all, after) && Answers(sh.heap, sh.cells, t, th) && th.op.Idle?
    requires Takes(after.heap, t, |th.frames|, all)
    requires forall a :: a in after.heap && after.heap[a].place.Taken? ==>
             a in sh.heap && (a in all || after.heap[a].place == sh.heap[a].place)
    ensures Answers(after.heap, after.cells, t, Push(th, Dropping(all)))
  {
    var th' := Push(th, Dropping(all));
    forall b, id | b in after.cells && id in after.cells[b].log.running && after.cells[b].log.running[id] == t
      ensures RunBacked(th', b, id)
    {
      assert RunBacked(th, b, id);
      assert forall f :: f in th.frames ==> f in th'.frames;
    }
    forall a | a in after.heap && after.heap[a].place.Taken? && after.heap[a].place.tid == t
      ensures TakenBacked(th', after.heap[a].place.depth, a)
    {
      if a !in all { assert TakenBacked(th, sh.heap[a].place.depth, a); }
    }
  }

  lemma {:induction false} CloseCellKept(s: State, t: Tid, c: Cid)
    requires StateInv(s) && CanCloseCell(s, t, c) && SharedInv(s.sh) && ActorOk(s.sh, t, s.threads[t])
    ensures var r := DoCloseCell(s.sh, t, s.threads[t], c); Good(s.sh, r.0, t, r.1, {c})
  {
    hide StateInv, SharedInv, HeapInv, CellsInv, HandlesInv, StrongInv, SlotsInv, WordsInv, Inv, CellsG, HeapG;
    hide HandlesG, FrameOk, Answers, PinsBacked, OpOk, AcqOk, ThreadOk, Good, Takes, UsesCell, NotAnnounced;
    var sh, th := s.sh, s.threads[t];
    var n := |th.frames|;
    var r := DoCloseCell(sh, t, th, c);
    var all := [sh.cells[c].current] + sh.cells[c].retired;
    ListsPart(sh);
    assert Closes(sh, t, n, c, all, r.0);
    NoUserNoSlot(s, c);
    CloseHeap(sh, t, n, c, all, r.0);
    CloseCells(sh, t, n, c, all, r.0);
    CloseCounts(sh, t, n, c, all, r.0);
    CloseSlots(sh, t, n, c, all, r.0);
    CloseWords(sh, t, n, c, all, r.0);
    CloseCellsG(sh, t, n, c, all, r.0);
    CloseHeapG(sh, t, n, c, all, r.0);
    CloseFrames(sh, t, th, c, all, r.0);
    CloseAnswers(sh, t, th, c, all, r.0);
    CurrentOp(sh, t, th);
    IdleOp(r.0, t, n + 1);
    IdleAcq(sh.dom.locals[t], th, r.1);
    FramesBacked(sh.dom, t, th, r.1);
    HeapGood(sh, r.0, t, th, r.1, {c});
  }
}
