/** The locked fallback path keeps the invariant. */
module SnapFallback {
  import opened HazardDomain
  import opened SnapCell
  import opened SnapInvariant
  import opened SnapStable
  import opened SnapQuiet
  import opened SnapReader
  import opened SnapLock
  import opened SnapUser
  import opened SnapHeap
  import L = RegistryLog

  // ----- changing one count -----------------------------------------------------------

  lemma {:induction false} PhaseWords(x: Cell, tok: Tok, nextTok: Tok, t: Tid, n: Counted, y: Cell)
    requires CounterOk(x, nextTok) && tok in x.counted && x.counted[tok].tid == t
    requires y == x.(counted := x.counted[tok := n])
    requires n.phase.Reading? ==> n.phase.version == |Hist(x)| - 1
    ensures CellG(x, y, t) && CounterOk(y, nextTok) && SameLists(x, y)
  {
    assert y.counted.Keys == x.counted.Keys;
  }

  /** A step that moves one of the thread's counts to another phase. */
  lemma {:induction false} PhaseGood(sh: Shared, c: Cid, tok: Tok, n: Counted, t: Tid, th: Thread, th': Thread)
    requires SharedInv(sh) && ActorOk(sh, t, th) && c in sh.cells && tok in sh.cells[c].counted
    requires sh.cells[c].counted[tok].tid == t
    requires n.phase.Reading? ==> n.phase.version == |Hist(sh.cells[c])| - 1
    requires var after := SetCell(sh, c, sh.cells[c].(counted := sh.cells[c].counted[tok := n]));
             && (forall i :: 0 <= i < |th'.frames| ==> FrameOk(after, t, i, th'.frames[i]))
             && OpOk(after, t, |th'.frames|, th'.op)
    requires t in sh.dom.locals && AcqOk(sh.dom.locals[t], th')
    requires NoSlotOp(th.op) && KeepsPins(th.frames, th'.frames) && Answers(sh.heap, sh.cells, t, th')
    ensures Good(sh, SetCell(sh, c, sh.cells[c].(counted := sh.cells[c].counted[tok := n])), t, th', {})
  {
    hide SharedInv, ActorOk, Good, Answers, OpOk, LogsInv, SettledInv, CountersInv, L.LogInv, FrameOk, CellG, CounterOk;
    hide KeepsPins, AcqOk;
    var x := sh.cells[c];
    var y := x.(counted := x.counted[tok := n]);
    WordsPart(sh);
    LogPart(sh, c);
    PhaseWords(x, tok, sh.nextTok, t, n, y);
    if x.lock.Nobody? { SettledPart(sh, c); }
    SameRunning(sh.heap, sh.cells, c, y, t, th');
    CellGood(sh, c, y, SetCell(sh, c, y), t, th, th');
  }

  /** The other frames of a thread do not look at the count of frame `n`. */
  lemma {:induction false} PhaseFrames(sh: Shared, c: Cid, tok: Tok, m: Counted, t: Tid, th: Thread, n: nat)
    requires ThreadOk(sh, t, th) && n <= |th.frames| && c in sh.cells && tok in sh.cells[c].counted
    requires sh.cells[c].counted[tok].depth == n
    ensures var after := SetCell(sh, c, sh.cells[c].(counted := sh.cells[c].counted[tok := m]));
            forall i :: 0 <= i < |th.frames| && i != n ==> FrameOk(after, t, i, th.frames[i])
  {
    hide ThreadOk, FrameOk;
    var y := sh.cells[c].(counted := sh.cells[c].counted[tok := m]);
    var after := SetCell(sh, c, y);
    OtherCounts(sh, t, th, c, tok, n);
    Frames(sh, t, th);
    forall i | 0 <= i < |th.frames| && i != n ensures FrameOk(after, t, i, th.frames[i]) {
      CellFrame(sh, c, y, after, t, i, th.frames[i]);
    }
  }

  // ----- cloning under the lock ----------------------------------------------------------

  lemma {:induction false} FbCloneHandle(sh: Shared, t: Tid, th: Thread)
    requires HeapInv(sh.heap, sh.cells) && CellsInv(sh.cells, sh.heap) && CanFbClone(sh, t, th)
    ensures var x := sh.cells[th.op.call.c];
            HandleOk(Handle(x.current, th.op.call.c, Newest(x), Held(t, |th.frames|)), sh.heap)
  {
    CurrentIsAllocated(sh, th.op.call.c);
  }

  /** After the clone: the reader's count now says which version it holds. */
  lemma {:induction false} FbClonedOp(sh: Shared, after: Shared, t: Tid, n: nat, op: Op, arc: Tok, a: Addr, v: nat)
    requires OpOk(sh, t, n, op) && op.FbCloning? && op.call.c in sh.cells && op.call.c in after.cells
    requires after.dom == sh.dom
    requires SameLists(sh.cells[op.call.c], after.cells[op.call.c])
    requires after.cells[op.call.c].lock == sh.cells[op.call.c].lock
    requires after.cells[op.call.c].retiredLen == sh.cells[op.call.c].retiredLen && Hist(sh.cells[op.call.c]) != []
    requires v == |Hist(sh.cells[op.call.c])| - 1 && Owns(after.handles, arc, Handle(a, op.call.c, v, Held(t, n)))
    requires op.call.Borrows() ==> IsCounted(after.cells, op.call.c, op.tok, Counted(t, n, Reading(v)))
    ensures OpOk(after, t, n, FbUnlocking(op.call, op.tok, arc, a, v))
  {
    assert OpenIn(sh.cells, op.call.c);
  }

  lemma {:induction false} FbClonedKept(sh: Shared, t: Tid, th: Thread, arc: Tok, a: Addr, v: nat, after: Shared)
    requires SharedInv(sh) && ActorOk(sh, t, th) && th.op.FbCloning? && IsOpen(sh, th.op.call.c)
    requires v == Newest(sh.cells[th.op.call.c])
    requires Owns(sh.handles, arc, Handle(a, th.op.call.c, v, Held(t, |th.frames|)))
    requires var x := sh.cells[th.op.call.c];
             after == if th.op.call.Borrows()
                      then SetCell(sh, th.op.call.c,
                          x.(counted := x.counted[th.op.tok := Counted(t, |th.frames|, Reading(v))])) else sh
    ensures Good(sh, after, t, SetOp(th, FbUnlocking(th.op.call, th.op.tok, arc, a, v)), {})
  {
    hide SharedInv, ActorOk, Good, Answers, OpOk, ThreadOk, FrameOk, KeepsPins;
    var call, tok, n := th.op.call, th.op.tok, |th.frames|;
    var th' := SetOp(th, FbUnlocking(call, tok, arc, a, v));
    CurrentOp(sh, t, th);
    FbClonedOp(sh, after, t, n, th.op, arc, a, v);
    if call.Borrows() {
      ActorThread(sh, t, th);
      FbCountedOp(sh, t, n, th.op);
      PhaseFrames(sh, call.c, tok, Counted(t, n, Reading(v)), t, th, n);
      OpAnswers(sh, t, th, th');
      SameFramesPins(th, th');
      PhaseGood(sh, call.c, tok, Counted(t, n, Reading(v)), t, th, th');
    } else {
      LightOp(sh, t, th, th'.op);
    }
  }

  lemma {:induction false} FbCountedOp(sh: Shared, t: Tid, n: nat, op: Op)
    requires OpOk(sh, t, n, op) && op.FbCloning? && op.call.Borrows()
    ensures IsCounted(sh.cells, op.call.c, op.tok, Counted(t, n, Waiting))
  {
  }

  lemma {:induction false} SameFramesPins(th: Thread, th': Thread)
    requires th.frames <= th'.frames
    ensures KeepsPins(th.frames, th'.frames)
  {
  }

  // ----- releasing the lock --------------------------------------------------------------

  lemma {:induction false} FbUnlockOwns(sh: Shared, t: Tid, th: Thread)
    requires SharedInv(sh) && ActorOk(sh, t, th) && CanFbUnlock(sh, t, th)
    ensures var op := th.op; var n := |th.frames|;
            && op.call.c in sh.cells && sh.cells[op.call.c].lock == By(t)
                && Settled(sh.cells[op.call.c], |sh.dom.chain|)
            && OpenIn(sh.cells, op.call.c) && Owns(sh.handles, op.arc, Handle(op.a, op.call.c, op.version, Held(t, n)))
            && ReadOk(sh.cells, op.call.c, op.version, op.call.since, sh.heap[op.a].list, 0)
            && (op.call.Borrows() ==> IsCounted(sh.cells, op.call.c, op.tok, Counted(t, n, Reading(op.version))))
  {
    hide SharedInv, ActorOk, HeapInv, CellsInv, SlotsInv, HandlesInv, StrongInv;
    CurrentOp(sh, t, th);
    SlotsPart(sh);
    HandlesPart(sh);
    assert OpenIn(sh.cells, th.op.call.c);
    HandleSees(sh, th.op.arc);
  }

  lemma {:induction false} HandleSees(sh: Shared, arc: Tok)
    requires HeapInv(sh.heap, sh.cells) && HandlesInv(sh.handles, sh.heap, sh.nextTok) && arc in sh.handles
    ensures var h := sh.handles[arc];
            && h.addr in sh.heap && h.cell in sh.cells && h.version < |Hist(sh.cells[h.cell])|
            && sh.heap[h.addr].list == Hist(sh.cells[h.cell])[h.version]
  {
    var h := sh.handles[arc];
    assert HandleOk(h, sh.heap) && ObjOk(h.addr, sh.heap[h.addr], sh.cells);
  }

  lemma {:induction false} FbUnlockBorrow(sh: Shared, t: Tid, th: Thread)
    requires SharedInv(sh) && ActorOk(sh, t, th) && CanFbUnlock(sh, t, th) && th.op.call.Borrows()
    ensures var r := DoFbUnlock(sh, t, th); Good(sh, r.0, t, r.1, {})
  {
    hide SharedInv, ActorOk, Good, Answers, OpOk;
    var r := DoFbUnlock(sh, t, th);
    var c, n := th.op.call.c, |th.frames|;
    FbUnlockOwns(sh, t, th);
    OpAnswers(sh, t, th, r.1);
    IdleOp(r.0, t, n + 1);
    assert FrameOk(r.0, t, n, r.1.frames[n]);
    LockGood(sh, c, r.0.cells[c], r.0, t, th, r.1);
  }

  /** Unlocking after `load_arc_if`'s clone; the caller's handle is handed over next. */
  lemma {:induction false} FbUnlockOwned(sh: Shared, t: Tid, th: Thread)
    requires SharedInv(sh) && ActorOk(sh, t, th) && CanFbUnlock(sh, t, th) && !th.op.call.Borrows()
    ensures var c := th.op.call.c; Good(sh, SetCell(sh, c, sh.cells[c].(lock := Nobody)), t, SetOp(th, Idle), {})
  {
    hide SharedInv, ActorOk, Good, Answers, OpOk;
    var c, n := th.op.call.c, |th.frames|;
    var after := SetCell(sh, c, sh.cells[c].(lock := Nobody));
    FbUnlockOwns(sh, t, th);
    OpAnswers(sh, t, th, SetOp(th, Idle));
    IdleOp(after, t, n);
    LockGood(sh, c, after.cells[c], after, t, th, SetOp(th, Idle));
  }

  lemma {:induction false} HandOver(sh: Shared, t: Tid, th: Thread, arc: Tok)
    requires SharedInv(sh) && ActorOk(sh, t, th) && th.op.Idle? && Droppable(sh, t, th, arc)
    ensures Good(sh, sh.(handles := sh.handles[arc := sh.handles[arc].(holder := Anyone)]), t, th, {})
  {
    hide SharedInv, HeapInv, CellsInv, StrongInv, SlotsInv, LogsInv, SettledInv, CountersInv, Inv, ThreadOk, CellsG;
    hide HeapG, PinsBacked, Answers, FrameOk, AcqOk, OpOk;
    var after := sh.(handles := sh.handles[arc := sh.handles[arc].(holder := Anyone)]);
    ListsPart(sh);
    SameHolders(sh.heap, sh.handles, after.handles, arc);
    CellsRefl(sh.cells, t);
    HeapRefl(sh.heap, t);
    CurrentOp(sh, t, th);
    IdleOp(after, t, |th.frames|);
    CarryFrames(sh, after, t, th);
    HeapGood(sh, after, t, th, th, {});
  }

  lemma {:induction false} HeapRefl(heap: map<Addr, Obj>, t: Tid)
    ensures HeapG(heap, heap, t)
  {
  }

  lemma {:induction false} SameHolders(
    heap: map<Addr, Obj>, handles: map<Tok, Handle>, handles': map<Tok, Handle>, arc: Tok)
    requires StrongInv(heap, handles) && arc in handles && handles' == handles[arc := handles[arc].(holder := Anyone)]
    ensures StrongInv(heap, handles')
  {
    forall a | a in heap ensures StrongOk(a, heap[a], handles') {
      assert StrongOk(a, heap[a], handles) && Holders(handles', a) == Holders(handles, a);
    }
  }

  // ----- leaving a fallback read ------------------------------------------------------------

  lemma {:induction false} FallbackTop(sh: Shared, t: Tid, th: Thread)
    requires ThreadOk(sh, t, th) && Top(th) && TopFrame(th).Fallback?
    ensures var f := TopFrame(th); var n := |th.frames| - 1;
            && Owns(sh.handles, f.arc, Handle(f.a, f.c, f.version, Held(t, n)))
            && IsCounted(sh.cells, f.c, f.tok, Counted(t, n, Reading(f.version))) && OpenIn(sh.cells, f.c)
  {
    Frames(sh, t, th);
    assert FrameOk(sh, t, |th.frames| - 1, th.frames[|th.frames| - 1]);
  }

  lemma {:induction false} LeaveAnswers(heap: map<Addr, Obj>, cells: map<Cid, Cell>, t: Tid, th: Thread, g: Frame)
    requires Answers(heap, cells, t, th) && Top(th) && TopFrame(th).Fallback? && g.Leaving?
    ensures Answers(heap, cells, t, SetTop(th, g))
  {
    var th' := SetTop(th, g);
    forall c, id | c in cells && id in cells[c].log.running && cells[c].log.running[id] == t
      ensures RunBacked(th', c, id)
    {
      assert RunBacked(th, c, id);
      var i :| 0 <= i < |th.frames| && th.frames[i] == Body(c, id);
      assert th'.frames[i] == Body(c, id);
    }
    TakenStay(heap, cells, cells, t, th, th');
  }

  /** The frame stops reading; its `Arc` is dropped next. */
  lemma {:induction false} FbLeave(sh: Shared, t: Tid, th: Thread)
    requires SharedInv(sh) && ActorOk(sh, t, th) && CanFbRelease(sh, t, th, true)
    ensures var f := TopFrame(th); var x := sh.cells[f.c];
            Good(sh, SetCell(sh, f.c, x.(counted := x.counted[f.tok := x.counted[f.tok].(phase := Done)])), t,
                SetTop(th, Leaving(f.c, f.tok)), {})
  {
    hide SharedInv, ActorOk, Good, Answers, OpOk, ThreadOk;
    var f, n := TopFrame(th), |th.frames| - 1;
    var th' := SetTop(th, Leaving(f.c, f.tok));
    var m := Counted(t, n, Done);
    ActorThread(sh, t, th);
    CurrentOp(sh, t, th);
    FallbackTop(sh, t, th);
    PhaseFrames(sh, f.c, f.tok, m, t, th, n);
    var after := SetCell(sh, f.c, sh.cells[f.c].(counted := sh.cells[f.c].counted[f.tok := m]));
    forall i | 0 <= i < |th'.frames| ensures FrameOk(after, t, i, th'.frames[i]) {
      if i == n { assert FrameOk(after, t, n, Leaving(f.c, f.tok)); }
    }
    IdleOp(after, t, n + 1);
    ActorAnswers(sh, t, th);
    LeaveAnswers(sh.heap, sh.cells, t, th, Leaving(f.c, f.tok));
    PhaseGood(sh, f.c, f.tok, m, t, th, th');
  }
}
