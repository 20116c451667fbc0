/** Calling handlers and finishing one-shot bodies keep the invariant. */
module SnapUser {
  import opened HandlerList
  import opened HazardDomain
  import opened SnapCell
  import opened SnapInvariant
  import opened SnapStable
  import opened SnapQuiet
  import opened SnapReader
  import opened SnapLock
  import L = RegistryLog

  // ----- what a reader sees ------------------------------------------------------------

  predicate IsRead(f: Frame) { f.Hazard? || f.Fallback? }

  lemma {:induction false} HazardSees(sh: Shared, t: Tid, i: nat, f: Frame)
    requires HeapInv(sh.heap, sh.cells) && SlotsInv(sh.dom, sh.heap) && t in sh.dom.locals
    requires f.Hazard? && FrameReads(sh.cells, f) && FramePins(sh.dom, t, i, f)
    ensures f.a in sh.heap && sh.heap[f.a].cell == f.c && sh.heap[f.a].version == f.version
    ensures sh.heap[f.a].list == f.seen && sh.heap[f.a].strong >= 1
  {
    var s := SlotAt(sh.dom, sh.dom.locals[t].record, f.k);
    assert s == OwnSlot(sh.dom, t, f.k) && Protected(s, sh.heap);
    assert ObjOk(f.a, sh.heap[f.a], sh.cells);
  }

  lemma {:induction false} FallbackSees(sh: Shared, t: Tid, i: nat, f: Frame)
    requires HeapInv(sh.heap, sh.cells) && HandlesInv(sh.handles, sh.heap, sh.nextTok)
    requires f.Fallback? && FrameReads(sh.cells, f) && FrameOwns(sh, t, i, f)
    ensures f.a in sh.heap && sh.heap[f.a].cell == f.c && sh.heap[f.a].version == f.version
    ensures sh.heap[f.a].list == f.seen && sh.heap[f.a].strong >= 1
  {
    assert HandleOk(sh.handles[f.arc], sh.heap);
    assert ObjOk(f.a, sh.heap[f.a], sh.cells);
  }

  lemma {:induction false} HandlesPart(sh: Shared)
    requires SharedInv(sh)
    ensures HandlesInv(sh.handles, sh.heap, sh.nextTok) && StrongInv(sh.heap, sh.handles)
  {
  }

  /** The list behind every read on a thread's stack is allocated, and is the one that was validated. */
  lemma {:induction false} ReaderSees(sh: Shared, t: Tid, th: Thread, i: nat)
    requires SharedInv(sh) && ThreadOk(sh, t, th) && i < |th.frames| && IsRead(th.frames[i])
    ensures var f := th.frames[i];
            && f.a in sh.heap && sh.heap[f.a].cell == f.c && sh.heap[f.a].version == f.version
            && sh.heap[f.a].list == f.seen && sh.heap[f.a].strong >= 1
  {
    hide SharedInv, ThreadOk, HeapInv, CellsInv, SlotsInv, HandlesInv, StrongInv, FrameReads, FramePins, FrameOwns;
    SlotsPart(sh);
    HandlesPart(sh);
    Frames(sh, t, th);
    ThreadOp(sh, t, th);
    assert FrameOk(sh, t, i, th.frames[i]);
    if th.frames[i].Hazard? { HazardSees(sh, t, i, th.frames[i]); } else { FallbackSees(sh, t, i, th.frames[i]); }
  }

  // ----- the next handler -----------------------------------------------------------------

  /** An entry of any list of the registry was inserted by a write. */
  lemma {:induction false} SeenWasInserted(g: L.Log, v: nat, k: nat)
    requires L.LogInv(g) && v < |g.hist| && k < |g.hist[v]|
    ensures L.Inserted(g.reqs, g.hist[v][k].id)
  {
    var id := g.hist[v][k].id;
    L.ListedWereInserted(g.hist, g.reqs, v);
    assert HasId(g.hist[v], id);
    var i :| 0 <= i < |g.reqs[..v]| && L.InsertsAt(g.reqs[..v], i, id);
    assert L.InsertsAt(g.reqs, i, id);
  }

  lemma {:induction false} TakeWords(x: Cell, nextTok: Tok, t: Tid, id: nat, y: Cell)
    requires CounterOk(x, nextTok) && L.LogInv(x.log) && id in x.log.armed && L.Inserted(x.log.reqs, id)
    requires y == x.(log := L.Take(x.log, id, t))
    ensures CellG(x, y, t) && CounterOk(y, nextTok) && SameLists(x, y) && L.LogInv(y.log)
    ensures forall c, f :: SameCount(x, y, c, f)
  {
    hide L.LogInv, CellG, CounterOk, SameCount;
    L.TakeKept(x.log, id, t);
    LogWords(x, nextTok, t, y);
  }

  /** Moving on to the next handler leaves the thread in order. */
  lemma {:induction false} AdvanceFrames(sh: Shared, t: Tid, th: Thread, g: Frame)
    requires ThreadOk(sh, t, th) && Top(th) && IsRead(TopFrame(th)) && TopFrame(th).next < |TopFrame(th).seen|
    requires g == TopFrame(th).(next := TopFrame(th).next + 1)
    ensures ThreadOk(sh, t, SetTop(th, g))
  {
    hide ThreadOk, OpOk;
    var n := |th.frames| - 1;
    Frames(sh, t, th);
    ThreadOp(sh, t, th);
    assert FrameOk(sh, t, n, th.frames[n]);
    assert FrameOk(sh, t, n, g) by { hide Takes, Owns, IsCounted, OpenIn; }
    IdleOp(sh, t, |th.frames|);
    Assemble(sh, t, SetTop(th, g));
  }

  lemma {:induction false} AdvanceAnswers(heap: map<Addr, Obj>, cells: map<Cid, Cell>, t: Tid, th: Thread, g: Frame)
    requires Answers(heap, cells, t, th) && Top(th) && IsRead(TopFrame(th)) && IsRead(g)
    ensures Answers(heap, cells, t, SetTop(th, g))
  {
    var th' := SetTop(th, g);
    forall c, id | c in cells && id in cells[c].log.running && cells[c].log.running[id] == t
      ensures RunBacked(th', c, id)
    {
      assert RunBacked(th, c, id);
      var i :| 0 <= i < |th.frames| && th.frames[i] == Body(c, id);
      assert th'.frames[i] == Body(c, id);
    }
    TakenStay(heap, cells, cells, t, th, th');
  }

  /** A body just started is on the stack of the thread that started it. */
  lemma {:induction false} BodyAnswers(
    heap: map<Addr, Obj>, cells: map<Cid, Cell>, c: Cid, y: Cell, t: Tid, th: Thread, id: nat)
    requires Answers(heap, cells, t, th) && th.op.Idle? && c in cells
    requires y == cells[c].(log := L.Take(cells[c].log, id, t))
    ensures Answers(heap, cells[c := y], t, Push(th, Body(c, id)))
  {
    var th' := Push(th, Body(c, id));
    SameAnswers(heap, cells, t, th, th');
    assert Body(c, id) in th'.frames;
  }

  lemma {:induction false} AdvanceKept(sh: Shared, t: Tid, th: Thread, th': Thread)
    requires SharedInv(sh) && ActorOk(sh, t, th) && Top(th) && IsRead(TopFrame(th))
    requires TopFrame(th).next < |TopFrame(th).seen|
    requires th' == SetTop(th, TopFrame(th).(next := TopFrame(th).next + 1))
    ensures ActorOk(sh, t, th') && KeepsPins(th.frames, th'.frames)
  {
    hide SharedInv, ThreadOk, Answers, PinsBacked;
    var g := TopFrame(th).(next := TopFrame(th).next + 1);
    AdvanceFrames(sh, t, th, g);
    AdvanceAnswers(sh.heap, sh.cells, t, th, g);
    FramesBacked(sh.dom, t, th, th');
  }

  lemma {:induction false} TopReads(sh: Shared, t: Tid, th: Thread)
    requires ThreadOk(sh, t, th) && th.frames != [] && IsRead(TopFrame(th))
    ensures var f := TopFrame(th); ReadOk(sh.cells, f.c, f.version, f.since, f.seen, f.next) && OpenIn(sh.cells, f.c)
  {
    Frames(sh, t, th);
    assert FrameOk(sh, t, |th.frames| - 1, th.frames[|th.frames| - 1]);
  }

  predicate RunsUser(f: Frame) { f.Handler? || f.Callback? }

  /** A handler or a callback starts on top of what the thread stands on. */
  lemma {:induction false} UserStarts(sh: Shared, t: Tid, th: Thread, f: Frame)
    requires ActorOk(sh, t, th) && (th.op.Idle? || th.op.Telling?) && RunsUser(f) && OpenIn(sh.cells, f.c)
    ensures ActorOk(sh, t, Push(th, f))
  {
    hide ThreadOk, Answers, PinsBacked, OpOk, KeepsPins;
    var th' := Push(th, f);
    Frames(sh, t, th);
    ThreadOp(sh, t, th);
    IdleOp(sh, t, |th'.frames|);
    assert forall i :: 0 <= i < |th.frames| ==> th'.frames[i] == th.frames[i];
    Assemble(sh, t, th');
    PushKeepsPins(th, f);
    FramesBacked(sh.dom, t, th, th');
    SameAnswers(sh.heap, sh.cells, t, th, th');
  }

  lemma {:induction false} PushKeepsPins(th: Thread, f: Frame)
    ensures KeepsPins(th.frames, Push(th, f).frames)
  {
  }

  lemma {:induction false} CallHandlerKept(sh: Shared, t: Tid, th: Thread)
    requires SharedInv(sh) && ActorOk(sh, t, th) && CanCallHandler(sh, t, th)
    ensures var r := DoCallHandler(sh, t, th); Good(sh, r.0, t, r.1, {})
  {
    hide SharedInv, ActorOk, ThreadOk, Guarantee, Answers, KeepsPins;
    var f, n := TopFrame(th), |th.frames| - 1;
    ActorThread(sh, t, th);
    CurrentOp(sh, t, th);
    ReaderSees(sh, t, th, n);
    TopReads(sh, t, th);
    var th1 := SetTop(th, f.(next := f.next + 1));
    AdvanceKept(sh, t, th, th1);
    var e := sh.heap[f.a].list[f.next];
    UserStarts(sh, t, th1, Handler(f.c, e.id));
    var th2 := Push(th1, Handler(f.c, e.id));
    if e.once && e.id in sh.cells[f.c].log.armed {
      RunBody(sh, t, th, th2, f, e.id);
    } else {
      StillGood(sh, t, th, th2);
    }
  }

  lemma {:induction false} StillGood(sh: Shared, t: Tid, th: Thread, th': Thread)
    requires SharedInv(sh) && ActorOk(sh, t, th) && ActorOk(sh, t, th')
    ensures Good(sh, sh, t, th', {})
  {
    hide SharedInv, ActorOk, Guarantee;
    CurrentOp(sh, t, th);
    NoChange(sh, t);
  }

  lemma {:induction false} RunBody(sh: Shared, t: Tid, th: Thread, th1: Thread, f: Frame, id: nat)
    requires SharedInv(sh) && ActorOk(sh, t, th) && ActorOk(sh, t, th1) && th1.op.Idle? && th.op.Idle?
    requires IsRead(f) && ReadOk(sh.cells, f.c, f.version, f.since, f.seen, f.next) && f.next < |f.seen|
    requires f.seen[f.next].id == id
    requires OpenIn(sh.cells, f.c) && id in sh.cells[f.c].log.armed
    ensures Good(sh, SetCell(sh, f.c, sh.cells[f.c].(log := L.Take(sh.cells[f.c].log, id, t))), t,
            Push(th1, Body(f.c, id)), {})
  {
    hide SharedInv, ActorOk, Good, Answers, OpOk, LogsInv, SettledInv, CountersInv, L.LogInv, ThreadOk, CellG;
    hide CounterOk, SameCount;
    var x := sh.cells[f.c];
    var y := x.(log := L.Take(x.log, id, t));
    var after, th' := SetCell(sh, f.c, y), Push(th1, Body(f.c, id));
    CurrentOp(sh, t, th1);
    WordsPart(sh);
    LogPart(sh, f.c);
    SeenWasInserted(x.log, f.version, f.next);
    TakeWords(x, sh.nextTok, t, id, y);
    if x.lock.Nobody? { SettledPart(sh, f.c); }
    ActorThread(sh, t, th1);
    CellFrames(sh, f.c, y, after, t, th1);
    IdleOp(after, t, |th'.frames|);
    ActorAnswers(sh, t, th1);
    BodyAnswers(sh.heap, sh.cells, f.c, y, t, th1, id);
    CellGood(sh, f.c, y, after, t, th1, th');
  }

  // ----- the end of a one-shot body --------------------------------------------------------

  lemma {:induction false} PopBody(
    heap: map<Addr, Obj>, cells: map<Cid, Cell>, after: map<Cid, Cell>, t: Tid, th: Thread, op: Op)
    requires Answers(heap, cells, t, th) && Top(th) && TopFrame(th).Body? && after.Keys == cells.Keys
    requires forall c, id :: c in after && id in after[c].log.running ==>
               id in cells[c].log.running && after[c].log.running[id] == cells[c].log.running[id]
    requires forall c, id :: TopFrame(th) == Body(c, id) ==>
               op == Locking(c, Remove(id)) || (c in after && id !in after[c].log.running)
    ensures Answers(heap, after, t, Pop(th, op))
  {
    var th' := Pop(th, op);
    forall c, id | c in after && id in after[c].log.running && after[c].log.running[id] == t
      ensures RunBacked(th', c, id)
    {
      assert RunBacked(th, c, id);
      if TopFrame(th) != Body(c, id) { PopKeeps(th.frames, Body(c, id)); }
    }
    TakenStay(heap, cells, after, t, th, th');
  }

  lemma {:induction false} PopKeeps(frames: seq<Frame>, f: Frame)
    requires frames != [] && f in frames && f != frames[|frames| - 1]
    ensures f in frames[..|frames| - 1]
  {
  }

  lemma {:induction false} RemoveOp(sh: Shared, t: Tid, n: nat, c: Cid, id: nat)
    requires OpenIn(sh.cells, c)
    ensures OpOk(sh, t, n, Locking(c, Remove(id)))
  {
  }

  lemma {:induction false} BodyIsOpen(sh: Shared, t: Tid, th: Thread)
    requires ThreadOk(sh, t, th) && Top(th) && TopFrame(th).Body?
    ensures OpenIn(sh.cells, TopFrame(th).c)
  {
    Frames(sh, t, th);
    assert FrameOk(sh, t, |th.frames| - 1, th.frames[|th.frames| - 1]);
  }

  lemma {:induction false} FinishAlive(sh: Shared, t: Tid, th: Thread)
    requires SharedInv(sh) && ActorOk(sh, t, th) && CanFinishBody(sh, t, th)
    ensures Good(sh, sh, t, Pop(th, Locking(TopFrame(th).c, Remove(TopFrame(th).id))), {})
  {
    hide SharedInv, ThreadOk, Answers, PinsBacked, Guarantee, OpOk;
    var f := TopFrame(th);
    var op := Locking(f.c, Remove(f.id));
    BodyIsOpen(sh, t, th);
    RemoveOp(sh, t, |th.frames| - 1, f.c, f.id);
    ThreadOp(sh, t, th);
    PopFrames(sh, t, th, op);
    PopBody(sh.heap, sh.cells, sh.cells, t, th, op);
    FramesBacked(sh.dom, t, th, Pop(th, op));
    NoChange(sh, t);
  }

  lemma {:induction false} AbandonWords(x: Cell, nextTok: Tok, t: Tid, id: nat, y: Cell)
    requires CounterOk(x, nextTok) && L.LogInv(x.log) && y == x.(log := L.Abandon(x.log, id))
    ensures CellG(x, y, t) && CounterOk(y, nextTok) && SameLists(x, y) && L.LogInv(y.log)
    ensures forall c, f :: SameCount(x, y, c, f)
  {
    hide L.LogInv, CellG, CounterOk, SameCount;
    L.AbandonKept(x.log, id);
    LogWords(x, nextTok, t, y);
  }

  /** The body's frame goes and its removal is no longer due. */
  lemma {:induction false} AbandonedThread(sh: Shared, t: Tid, th: Thread, y: Cell, after: Shared)
    requires ActorOk(sh, t, th) && CanFinishBody(sh, t, th) && after == SetCell(sh, TopFrame(th).c, y)
    requires y == sh.cells[TopFrame(th).c].(log := L.Abandon(sh.cells[TopFrame(th).c].log, TopFrame(th).id))
    ensures Answers(sh.heap, after.cells, t, Pop(th, Idle))
  {
    hide ActorOk, ThreadOk, PinsBacked, Answers;
    ActorAnswers(sh, t, th);
    PopBody(sh.heap, sh.cells, after.cells, t, th, Idle);
  }

  lemma {:induction false} AbandonedFrames(sh: Shared, t: Tid, th: Thread, y: Cell, after: Shared)
    requires SharedInv(sh) && ThreadOk(sh, t, th) && CanFinishBody(sh, t, th) && after == SetCell(sh, TopFrame(th).c, y)
    requires SameLists(sh.cells[TopFrame(th).c], y) && forall c, f :: SameCount(sh.cells[TopFrame(th).c], y, c, f)
    requires CellG(sh.cells[TopFrame(th).c], y, t)
    ensures forall i :: 0 <= i < |th.frames| - 1 ==> FrameOk(after, t, i, th.frames[i])
  {
    hide SharedInv, ThreadOk, FrameOk, SameCount, CellG;
    var n := |th.frames| - 1;
    BelowOk(sh, t, th);
    CellFrames(sh, TopFrame(th).c, y, after, t, th.(frames := th.frames[..n]));
  }

  lemma {:induction false} FinishAbandoned(sh: Shared, t: Tid, th: Thread)
    requires SharedInv(sh) && ActorOk(sh, t, th) && CanFinishBody(sh, t, th)
    ensures var r := DoFinishBody(sh, t, th, false); Good(sh, r.0, t, r.1, {})
  {
    hide SharedInv, ActorOk, Good, Answers, OpOk, LogsInv, SettledInv, CountersInv, L.LogInv, ThreadOk, FrameOk, CellG;
    hide CounterOk, SameCount, Settled;
    var r := DoFinishBody(sh, t, th, false);
    var f := TopFrame(th);
    var x, y := sh.cells[f.c], r.0.cells[f.c];
    CurrentOp(sh, t, th);
    ActorThread(sh, t, th);
    WordsPart(sh);
    LogPart(sh, f.c);
    AbandonWords(x, sh.nextTok, t, f.id, y);
    if x.lock.Nobody? { SettledPart(sh, f.c); StillSettled(x, y, |sh.dom.chain|); }
    AbandonedFrames(sh, t, th, y, r.0);
    IdleOp(r.0, t, |th.frames| - 1);
    AbandonedThread(sh, t, th, y, r.0);
    CellGood(sh, f.c, y, r.0, t, th, r.1);
  }

  lemma {:induction false} FinishBodyKept(sh: Shared, t: Tid, th: Thread, alive: bool)
    requires SharedInv(sh) && ActorOk(sh, t, th) && CanFinishBody(sh, t, th)
    ensures var r := DoFinishBody(sh, t, th, alive); Good(sh, r.0, t, r.1, {})
  {
    hide SharedInv, ActorOk, Good;
    if alive { FinishAlive(sh, t, th); } else { FinishAbandoned(sh, t, th); }
  }

  // ----- the end of a handler, and the panic callback -----------------------------------------

  lemma {:induction false} UserIsOpen(sh: Shared, t: Tid, th: Thread)
    requires ThreadOk(sh, t, th) && Top(th) && RunsUser(TopFrame(th))
    ensures OpenIn(sh.cells, TopFrame(th).c)
  {
    Frames(sh, t, th);
    assert FrameOk(sh, t, |th.frames| - 1, th.frames[|th.frames| - 1]);
  }

  lemma {:induction false} TellingOp(sh: Shared, t: Tid, n: nat, c: Cid, id: nat)
    requires OpenIn(sh.cells, c)
    ensures OpOk(sh, t, n, Telling(c, id))
  {
  }

  lemma {:induction false} PopKeepsPins(th: Thread)
    requires th.frames != [] && !TopFrame(th).Hazard?
    ensures KeepsPins(th.frames, th.frames[..|th.frames| - 1])
  {
  }

  /** A handler or a callback ends and leaves what it stood on. */
  lemma {:induction false} UserEnds(sh: Shared, t: Tid, th: Thread)
    requires ActorOk(sh, t, th) && Top(th) && RunsUser(TopFrame(th))
    ensures ActorOk(sh, t, Pop(th, Idle))
  {
    hide ThreadOk, Answers, PinsBacked, OpOk, KeepsPins;
    ThreadOp(sh, t, th);
    IdleOp(sh, t, |th.frames| - 1);
    PopFrames(sh, t, th, Idle);
    PopAnswers(sh.heap, sh.cells, t, th, Idle);
    PopKeepsPins(th);
    FramesBacked(sh.dom, t, th, Pop(th, Idle));
  }

  /** The frames below a handler that panics, with the panic counted. */
  lemma {:induction false} PanickedFrames(sh: Shared, t: Tid, th: Thread, y: Cell, after: Shared)
    requires SharedInv(sh) && ActorOk(sh, t, th) && CanHandlerEnds(sh, t, th) && after == SetCell(sh, TopFrame(th).c, y)
    requires y == sh.cells[TopFrame(th).c].(panics := y.panics) && CounterOk(sh.cells[TopFrame(th).c], sh.nextTok)
    ensures forall i :: 0 <= i < |th.frames| - 1 ==> FrameOk(after, t, i, th.frames[i])
    ensures Answers(after.heap, after.cells, t, Pop(th, Telling(TopFrame(th).c, TopFrame(th).id)))
  {
    hide SharedInv, ActorOk, ThreadOk, FrameOk, SameCount, CellG, Answers, CounterOk;
    var n, c := |th.frames| - 1, TopFrame(th).c;
    var op := Telling(c, TopFrame(th).id);
    ActorThread(sh, t, th);
    BelowOk(sh, t, th);
    LogWords(sh.cells[c], sh.nextTok, t, y);
    CellFrames(sh, c, y, after, t, th.(frames := th.frames[..n]));
    ActorAnswers(sh, t, th);
    PopAnswers(sh.heap, sh.cells, t, th, op);
    SameRunning(sh.heap, sh.cells, c, y, t, Pop(th, op));
  }

  lemma {:induction false} HandlerPanicked(sh: Shared, t: Tid, th: Thread)
    requires SharedInv(sh) && ActorOk(sh, t, th) && CanHandlerEnds(sh, t, th)
    ensures var r := DoHandlerEnds(sh, t, th, true); Good(sh, r.0, t, r.1, {})
  {
    hide SharedInv, ActorOk, Good, Answers, OpOk, LogsInv, SettledInv, CountersInv, L.LogInv, ThreadOk, FrameOk;
    hide CellG, CounterOk, SameCount, Settled, KeepsPins;
    var r := DoHandlerEnds(sh, t, th, true);
    var c := TopFrame(th).c;
    var x, y := sh.cells[c], r.0.cells[c];
    CurrentOp(sh, t, th);
    ActorThread(sh, t, th);
    UserIsOpen(sh, t, th);
    WordsPart(sh);
    LogPart(sh, c);
    LogWords(x, sh.nextTok, t, y);
    if x.lock.Nobody? { SettledPart(sh, c); StillSettled(x, y, |sh.dom.chain|); }
    PanickedFrames(sh, t, th, y, r.0);
    TellingOp(r.0, t, |th.frames| - 1, c, TopFrame(th).id);
    PopKeepsPins(th);
    CellGood(sh, c, y, r.0, t, th, r.1);
  }

  lemma {:induction false} HandlerEndsKept(sh: Shared, t: Tid, th: Thread, panicked: bool)
    requires SharedInv(sh) && ActorOk(sh, t, th) && CanHandlerEnds(sh, t, th)
    ensures var r := DoHandlerEnds(sh, t, th, panicked); Good(sh, r.0, t, r.1, {})
  {
    hide SharedInv, ActorOk, Good;
    if panicked {
      HandlerPanicked(sh, t, th);
    } else {
      UserEnds(sh, t, th);
      StillGood(sh, t, th, Pop(th, Idle));
    }
  }

  lemma {:induction false} TellKept(sh: Shared, t: Tid, th: Thread)
    requires SharedInv(sh) && ActorOk(sh, t, th) && CanTell(sh, t, th)
    ensures var r := DoTell(sh, t, th); Good(sh, r.0, t, r.1, {})
  {
    hide SharedInv, ActorOk, Good;
    CurrentOp(sh, t, th);
    assert OpenIn(sh.cells, th.op.c);
    if sh.cells[th.op.c].callback {
      UserStarts(sh, t, th, Callback(th.op.c, th.op.id));
      StillGood(sh, t, th, Push(th, Callback(th.op.c, th.op.id)));
    } else {
      LightOp(sh, t, th, Idle);
    }
  }

  lemma {:induction false} CallbackEndsKept(sh: Shared, t: Tid, th: Thread, panicked: bool)
    requires SharedInv(sh) && ActorOk(sh, t, th) && CanCallbackEnds(sh, t, th)
    ensures var r := DoCallbackEnds(sh, t, th, panicked); Good(sh, r.0, t, r.1, {})
  {
    hide SharedInv, ActorOk, Good;
    UserEnds(sh, t, th);
    StillGood(sh, t, th, Pop(th, Idle));
  }

  lemma {:induction false} SetCallbackKept(sh: Shared, t: Tid, th: Thread, c: Cid, on: bool)
    requires SharedInv(sh) && ActorOk(sh, t, th) && CanSetCallback(sh, t, th, c)
    ensures var r := DoSetCallback(sh, t, th, c, on); Good(sh, r.0, t, r.1, {})
  {
    hide SharedInv, ActorOk, Good, Answers, OpOk, LogsInv, SettledInv, CountersInv, L.LogInv, ThreadOk, FrameOk;
    hide CellG, CounterOk, SameCount, Settled;
    var r := DoSetCallback(sh, t, th, c, on);
    var x, y := sh.cells[c], r.0.cells[c];
    CurrentOp(sh, t, th);
    ActorThread(sh, t, th);
    WordsPart(sh);
    LogPart(sh, c);
    LogWords(x, sh.nextTok, t, y);
    if x.lock.Nobody? { SettledPart(sh, c); StillSettled(x, y, |sh.dom.chain|); }
    CellFrames(sh, c, y, r.0, t, th);
    IdleOp(r.0, t, |th.frames|);
    ActorAnswers(sh, t, th);
    SameRunning(sh.heap, sh.cells, c, y, t, th);
    CellGood(sh, c, y, r.0, t, th, th);
  }
}
