/** Writes from the call to the effect.  What a thread asks for when it registers, unregisters or clears is
    what its next write applies, every write was asked for, and no call returns without its write. */
module SnapCalls {
  import opened HandlerList
  import opened HazardDomain
  import opened SnapCell
  import opened SnapInvariant
  import opened SnapSafety
  import opened SnapLabels
  import opened SnapLogs
  import opened SnapRuns
  import opened SnapWait
  import L = RegistryLog
  import O = RegistryOrder

  /** The thread has asked for the write and not made it. */
  predicate Waits(op: Op, c: Cid, req: Request) { op == Locking(c, req) || op == Writing(c, req) }

  predicate Writes(l: Label, t: Tid) { l.Did? && l.t == t && l.step.Write? }

  // ----- one step -----------------------------------------------------------------------------------------

  lemma {:induction false} AskedOp(s: State, l: Label, s': State, t: Tid, c: Cid)
    requires LabelOk(s, l, s') && AsksFor(s, l, t, c).Some?
    ensures t in s'.threads && s'.threads[t].op == Locking(c, AsksFor(s, l, t, c).value) && !Writes(l, t)
  {
  }

  lemma {:induction false} QuietAsks(sh: Shared, t: Tid, th: Thread, q: QuietStep)
    requires CanQuiet(sh, t, th, q)
    ensures var op := DoQuiet(sh, t, th, q).op;
            && !th.op.Locking? && !th.op.Writing? && !op.Writing?
            && (op.Locking? ==> q.BeginWrite?)
  {
  }

  lemma {:induction false} LoudAsks(sh: Shared, t: Tid, th: Thread, step: SnapCell.Step)
    requires CanThread(sh, t, th, step) && !step.Quiet?
    ensures var op := DoThread(sh, t, th, step).1.op;
            && (th.op.Locking? ==> step.Lock? && op == Writing(th.op.c, th.op.req))
            && (th.op.Writing? ==> step.Write?)
            && (op.Writing? ==> step.Lock? && th.op == Locking(op.c, op.req))
            && (op.Locking? ==> step.DrawId? || step == FinishBody(true))
  {
    hide Do, Can, Unref, Apply, IsSplit, MoveOut, StoreSlot, CanQuiet, DoQuiet, FreeSlot;
  }

  /** A thread that waits goes on waiting until it writes, and one that waits now has waited or has just asked. */
  lemma {:induction false} NextWaits(s: State, l: Label, s': State, t: Tid, c: Cid, req: Request)
    requires LabelOk(s, l, s')
    ensures t in s.threads ==> t in s'.threads
    ensures t in s.threads && Waits(s.threads[t].op, c, req) ==>
              Waits(s'.threads[t].op, c, req) || (Writes(l, t) && s.threads[t].op == Writing(c, req))
    ensures t in s'.threads && Waits(s'.threads[t].op, c, req) ==>
              || (t in s.threads && Waits(s.threads[t].op, c, req) && !Writes(l, t))
              || AsksFor(s, l, t, c) == Some(req)
  {
    hide CanThread, DoThread, CanQuiet, DoQuiet, Do, Can, AsksFor;
    if l.Did? && l.t == t && !l.step.Spawn? && !l.step.CloseCell? {
      var th := s.threads[t];
      if l.step.Quiet? {
        QuietOf(s.sh, t, th, l.step);
        QuietAsks(s.sh, t, th, l.step.q);
      } else {
        LoudAsks(s.sh, t, th, l.step);
      }
      if s'.threads[t].op.Locking? { JustAsked(s, l, s', t); }
    }
  }

  /** A thread that starts to wait has asked for what it waits for. */
  lemma {:induction false} JustAsked(s: State, l: Label, s': State, t: Tid)
    requires LabelOk(s, l, s') && l.Did? && l.t == t && t in s.threads && t in s'.threads
    requires s'.threads[t].op.Locking?
    requires l.step.DrawId? || l.step == FinishBody(true) || (l.step.Quiet? && l.step.q.BeginWrite?)
    ensures AsksFor(s, l, t, s'.threads[t].op.c) == Some(s'.threads[t].op.req)
  {
  }

  lemma {:induction false} AfterWrite(s: State, l: Label, s': State, t: Tid, c: Cid, req: Request)
    requires LabelOk(s, l, s') && Writes(l, t)
    ensures t in s.threads && t in s'.threads && s.threads[t].op.Writing? && !Waits(s'.threads[t].op, c, req)
  {
    hide Apply;
  }

  // ----- from the call to the write and back -------------------------------------------------------------------

  /** The thread makes no write in the steps between these. */
  ghost predicate NoWrite(labels: seq<Label>, i: nat, j: nat, t: Tid) {
    forall k :: i < k < j && k < |labels| ==> !Writes(labels[k], t)
  }

  lemma {:induction false} StillWaits(run: seq<State>, labels: seq<Label>, i: nat, j: nat, t: Tid, c: Cid)
    requires Labels(run, labels) && i < j < |run| && AsksFor(run[i], labels[i], t, c).Some? && NoWrite(labels, i, j, t)
    ensures t in run[j].threads && Waits(run[j].threads[t].op, c, AsksFor(run[i], labels[i], t, c).value)
  {
    hide LabelOk, AsksFor, Waits;
    LabelAt(run, labels, j - 1);
    if j == i + 1 {
      AskedOp(run[i], labels[i], run[j], t, c);
      Asked(c, AsksFor(run[i], labels[i], t, c).value);
    } else {
      StillWaits(run, labels, i, j - 1, t, c);
      NextWaits(run[j - 1], labels[j - 1], run[j], t, c, AsksFor(run[i], labels[i], t, c).value);
    }
  }

  lemma {:induction false} Asked(c: Cid, req: Request)
    ensures Waits(Locking(c, req), c, req)
  {
  }

  /** A call does not come to an end without its write. */
  lemma {:induction false} CallWrites(run: seq<State>, labels: seq<Label>, i: nat, j: nat, t: Tid, c: Cid)
    returns (k: nat)
    requires Labels(run, labels) && i < j < |run| && AsksFor(run[i], labels[i], t, c).Some? && t in run[j].threads
    requires !Waits(run[j].threads[t].op, c, AsksFor(run[i], labels[i], t, c).value)
    ensures i < k < j && Writes(labels[k], t) && NoWrite(labels, i, k, t)
    ensures t in run[k].threads && run[k].threads[t].op == Writing(c, AsksFor(run[i], labels[i], t, c).value)
    decreases j
  {
    hide LabelOk, AsksFor, Waits, Writes;
    var req := AsksFor(run[i], labels[i], t, c).value;
    if x: nat :| i < x < j - 1 && Writes(labels[x], t) {
      LabelAt(run, labels, x);
      AfterWrite(run[x], labels[x], run[x + 1], t, c, req);
      k := CallWrites(run, labels, i, x + 1, t, c);
    } else {
      k := j - 1;
      LabelAt(run, labels, k);
      if k == i {
        AskedOp(run[i], labels[i], run[j], t, c);
        Asked(c, req);
      } else {
        StillWaits(run, labels, i, k, t, c);
        NextWaits(run[k], labels[k], run[j], t, c, req);
      }
    }
  }

  /** Whoever waits to write has asked for it. */
  lemma {:induction false} WhoAsked(run: seq<State>, labels: seq<Label>, j: nat, t: Tid, c: Cid, req: Request)
    returns (i: nat)
    requires IsRun(run) && Labels(run, labels) && j < |run|
    requires t in run[j].threads && Waits(run[j].threads[t].op, c, req)
    ensures i < j && AsksFor(run[i], labels[i], t, c) == Some(req) && NoWrite(labels, i, j, t)
  {
    hide NextState, LabelOk, AsksFor, Waits, Writes;
    assert j > 0;
    LabelAt(run, labels, j - 1);
    NextWaits(run[j - 1], labels[j - 1], run[j], t, c, req);
    i := j - 1;
    if AsksFor(run[i], labels[i], t, c) != Some(req) { i := WhoAsked(run, labels, i, t, c, req); }
  }

  // ----- what the write does ------------------------------------------------------------------------------

  /** What a write does to a list, said of the two lists; `changed` is what the call reports. */
  ghost predicate Effect(list: seq<Entry>, req: Request, next: seq<Entry>, changed: bool) {
    match req
    case Insert(e) => changed && exists n :: InsertedAt(list, e, next, n)
    case Remove(id) => (changed <==> HasId(list, id)) && next == O.Without(list, id)
    case Clear => (changed <==> list != []) && next == []
  }

  /** The entry stands after those of its priority or a higher one and before the next lower one. */
  ghost predicate InsertedAt(list: seq<Entry>, e: Entry, next: seq<Entry>, n: nat) {
    && n <= |list| && next == list[..n] + [e] + list[n..]
    && (forall i :: 0 <= i < n ==> list[i].priority >= e.priority)
    && (n < |list| ==> list[n].priority < e.priority)
  }

  lemma {:induction false} ApplyEffect(list: seq<Entry>, req: Request)
    requires req.Remove? ==> L.Distinct(list)
    ensures match Apply(list, req)
            case None => Effect(list, req, list, false)
            case Some(next) => Effect(list, req, next, true)
  {
    match req
    case Insert(e) => assert InsertedAt(list, e, Apply(list, req).value, After(list, e.priority));
    case Remove(id) =>
      if IndexOf(list, id) == |list| { O.WithoutAbsent(list, id); } else { O.RemoveIsWithout(list, id); }
    case Clear =>
  }

  lemma {:induction false} WriteLogs(sh: Shared, t: Tid, th: Thread, step: SnapCell.Step, list: seq<Entry>)
    requires CanThread(sh, t, th, step) && step.Write? && sh.heap[sh.cells[th.op.c].current].list == list
    requires sh.cells[th.op.c].log.hist != [] && L.Current(sh.cells[th.op.c].log) == list
    requires th.op.req.Remove? ==> L.Distinct(list)
    ensures var req, g, h := th.op.req, sh.cells[th.op.c].log, LogAfter(sh, t, th, step, th.op.c);
            && h.hist != [] && g.hist <= h.hist
            && Effect(list, req, L.Current(h), |h.hist| > |g.hist|)
            && h.reqs == g.reqs + (if |h.hist| > |g.hist| then [req] else [])
  {
    hide Apply, Effect, L.Distinct;
    ApplyEffect(list, th.op.req);
  }

  /** The write of a call applies what the call asked for, to the list as it then is: a registration puts its
      entry at its place, an unregistration takes out its id and a clear takes out everything; the last two
      change something, and say so, if and only if there is something to take out. */
  lemma {:induction false} CallTakesEffect(run: seq<State>, labels: seq<Label>, i: nat, k: nat, t: Tid, c: Cid)
    requires IsRun(run) && Labels(run, labels) && i < k < |labels| && AsksFor(run[i], labels[i], t, c).Some?
    requires Writes(labels[k], t) && NoWrite(labels, i, k, t)
    requires AsksFor(run[i], labels[i], t, c).value.Remove? ==> LogAt(run[k].sh.cells, c).drawn <= L.U64
    ensures var req, g, h := AsksFor(run[i], labels[i], t, c).value, LogAt(run[k].sh.cells, c),
            LogAt(run[k + 1].sh.cells, c);
            && g.hist != [] && h.hist != [] && g.hist <= h.hist
            && Effect(L.Current(g), req, L.Current(h), |h.hist| > |g.hist|)
            && h.reqs == g.reqs + (if |h.hist| > |g.hist| then [req] else [])
  {
    hide IsRun, StateInv, LabelOk, AsksFor, CanThread, Effect, LogAfter, L.Distinct, L.LogInv, NoWrite;
    var req := AsksFor(run[i], labels[i], t, c).value;
    StillWaits(run, labels, i, k, t, c);
    LabelAt(run, labels, k);
    AfterWrite(run[k], labels[k], run[k + 1], t, c, req);
    RunKept(run, k);
    WritersList(run[k], t, c);
    LogOf(run[k], c);
    NextLog(run[k], labels[k], run[k + 1], c);
    if req.Remove? { L.CurrentIsTidy(run[k].sh.cells[c].log); }
    WriteLogs(run[k].sh, t, run[k].threads[t], labels[k].step, L.Current(run[k].sh.cells[c].log));
  }

  // ----- every write was asked for -----------------------------------------------------------------------

  lemma {:induction false} ReqsAfter(sh: Shared, t: Tid, th: Thread, step: SnapCell.Step, c: Cid)
    requires CanThread(sh, t, th, step)
    ensures var g, h := LogAt(sh.cells, c), LogAfter(sh, t, th, step, c);
            || h.reqs == g.reqs
            || (step.Write? && th.op.Writing? && th.op.c == c && h.reqs == g.reqs + [th.op.req])
  {
    hide Apply, IsSplit, Can, CanQuiet;
  }

  /** Write `k` of thread `t` made request number `n` of the cell, asked for by the call `i`. */
  ghost predicate MadeBy(run: seq<State>, labels: seq<Label>, c: Cid, n: nat, req: Request, i: nat, k: nat, t: Tid) {
    && Labels(run, labels) && i < k < |labels| && AsksFor(run[i], labels[i], t, c) == Some(req)
    && Writes(labels[k], t) && NoWrite(labels, i, k, t)
    && |LogAt(run[k].sh.cells, c).reqs| == n && |LogAt(run[k + 1].sh.cells, c).reqs| == n + 1
  }

  /** Every request a registry has applied was asked for by a call, and applied by the first write of its thread
      after that call. */
  lemma {:induction false} WriteWasAsked(run: seq<State>, labels: seq<Label>, j: nat, c: Cid, n: nat)
    returns (i: nat, k: nat, t: Tid)
    requires IsRun(run) && Labels(run, labels) && j < |run| && n < |LogAt(run[j].sh.cells, c).reqs|
    ensures k < j && MadeBy(run, labels, c, n, LogAt(run[j].sh.cells, c).reqs[n], i, k, t)
  {
    hide NextState, LabelOk, AsksFor, CanThread, LogAfter;
    assert j > 0;
    var s, l := run[j - 1], labels[j - 1];
    LabelAt(run, labels, j - 1);
    NextLog(s, l, run[j], c);
    if Acts(l) { ReqsAfter(s.sh, l.t, s.threads[l.t], l.step, c); }
    if n < |LogAt(s.sh.cells, c).reqs| {
      i, k, t := WriteWasAsked(run, labels, j - 1, c, n);
    } else {
      k, t := j - 1, l.t;
      i := WhoAsked(run, labels, k, t, c, s.threads[t].op.req);
    }
  }

  /** No two requests come from one call. */
  lemma {:induction false} OneWritePerCall(
    run: seq<State>, labels: seq<Label>, c: Cid, n: nat, n': nat, req: Request, req': Request, i: nat, k: nat, k': nat,
    t: Tid, t': Tid)
    requires MadeBy(run, labels, c, n, req, i, k, t) && MadeBy(run, labels, c, n', req', i, k', t')
    ensures n == n' && k == k' && t == t'
  {
    hide AsksFor, Writes, NoWrite;
    AskedBy(run[i], labels[i], t, c);
    AskedBy(run[i], labels[i], t', c);
    FirstIsFirst(labels, i, k, k', t);
    FirstIsFirst(labels, i, k', k, t);
  }

  lemma {:induction false} FirstIsFirst(labels: seq<Label>, i: nat, k: nat, k': nat, t: Tid)
    requires i < k < |labels| && Writes(labels[k], t) && NoWrite(labels, i, k', t)
    ensures k' <= k
  {
  }

  /** No two registrations of a registry draw the same id, up to 2^64 of them. */
  lemma {:induction false} OneCallPerId(
    run: seq<State>, labels: seq<Label>, i: nat, i': nat, t: Tid, t': Tid, c: Cid, e: Entry, e': Entry)
    requires IsRun(run) && Labels(run, labels) && i < i' < |labels|
    requires AsksFor(run[i], labels[i], t, c) == Some(Insert(e))
    requires AsksFor(run[i'], labels[i'], t', c) == Some(Insert(e'))
    requires LogAt(run[i' + 1].sh.cells, c).drawn <= L.U64
    ensures e.id != e'.id
  {
    hide IsRun, StateInv, LabelOk, CanThread;
    LabelAt(run, labels, i);
    LabelAt(run, labels, i');
    Draws(run[i], labels[i], run[i + 1], t, c, e);
    Draws(run[i'], labels[i'], run[i' + 1], t', c, e');
    RunKept(run, i);
    RunKept(run, i');
    LogOf(run[i], c);
    LogOf(run[i'], c);
    RunCells(run, i + 1, i', c);
  }

  lemma {:induction false} Draws(s: State, l: Label, s': State, t: Tid, c: Cid, e: Entry)
    requires LabelOk(s, l, s') && AsksFor(s, l, t, c) == Some(Insert(e))
    ensures c in s.sh.cells && c in s'.sh.cells && e.id == s.sh.cells[c].log.nextId
    ensures s'.sh.cells[c].log.drawn == s.sh.cells[c].log.drawn + 1
    ensures l.Did? && l.step == DrawId(c, e.priority, e.once)
  {
  }

  /** The call `i` registers a handler under this id. */
  ghost predicate RegistersId(run: seq<State>, labels: seq<Label>, i: nat, c: Cid, id: nat) {
    && i < |labels| && i < |run| && labels[i].Did? && labels[i].step.DrawId? && labels[i].step.c == c
    && c in run[i].sh.cells && run[i].sh.cells[c].log.nextId == id
  }

  lemma {:induction false} Registers(run: seq<State>, labels: seq<Label>, i: nat, c: Cid, id: nat)
    requires Labels(run, labels) && RegistersId(run, labels, i, c, id)
    ensures labels[i].t in run[i].threads
    ensures AsksFor(run[i], labels[i], labels[i].t, c)
            == Some(Insert(Entry(id, labels[i].step.priority, labels[i].step.once)))
  {
    LabelAt(run, labels, i);
  }

  /** Every entry in a registry's history of writes was registered by exactly one call, with that priority, that
      kind and the id the call drew. */
  lemma {:induction false} EntryWasRegistered(run: seq<State>, labels: seq<Label>, j: nat, c: Cid, n: nat, e: Entry)
    returns (i: nat)
    requires IsRun(run) && Labels(run, labels) && j < |run| && n < |LogAt(run[j].sh.cells, c).reqs|
    requires LogAt(run[j].sh.cells, c).reqs[n] == Insert(e) && LogAt(run[j].sh.cells, c).drawn <= L.U64
    ensures i < j && RegistersId(run, labels, i, c, e.id)
    ensures labels[i].step == DrawId(c, e.priority, e.once)
    ensures forall i' :: 0 <= i' < j && RegistersId(run, labels, i', c, e.id) ==> i' == i
  {
    hide IsRun, LabelOk, AsksFor;
    var k, t;
    i, k, t := WriteWasAsked(run, labels, j, c, n);
    LabelAt(run, labels, i);
    Draws(run[i], labels[i], run[i + 1], t, c, e);
    forall i' | 0 <= i' < j && RegistersId(run, labels, i', c, e.id) ensures i' == i {
      OnlyCall(run, labels, i, i', j, t, c, e);
    }
  }

  lemma {:induction false} OnlyCall(
    run: seq<State>, labels: seq<Label>, i: nat, i': nat, j: nat, t: Tid, c: Cid, e: Entry)
    requires IsRun(run) && Labels(run, labels) && i < j < |run| && i' < j && c in run[j].sh.cells
    requires AsksFor(run[i], labels[i], t, c) == Some(Insert(e)) && RegistersId(run, labels, i', c, e.id)
    requires LogAt(run[j].sh.cells, c).drawn <= L.U64
    ensures i' == i
  {
    hide IsRun, LabelOk, AsksFor;
    Registers(run, labels, i', c, e.id);
    var t', e' := labels[i'].t, Entry(e.id, labels[i'].step.priority, labels[i'].step.once);
    LabelAt(run, labels, i);
    LabelAt(run, labels, i');
    Draws(run[i], labels[i], run[i + 1], t, c, e);
    Draws(run[i'], labels[i'], run[i' + 1], t', c, e');
    RunCells(run, i + 1, j, c);
    RunCells(run, i' + 1, j, c);
    if i < i' {
      OneCallPerId(run, labels, i, i', t, t', c, e, e');
    } else if i' < i {
      OneCallPerId(run, labels, i', i, t', t, c, e', e);
    }
  }

  lemma {:induction false} AskedBy(s: State, l: Label, t: Tid, c: Cid)
    requires AsksFor(s, l, t, c).Some?
    ensures l.Did? && l.t == t
  {
  }

  /** A registration that has come to an end stands in the history of writes, exactly once, with the priority and
      the kind it was called with. */
  lemma {:induction false} RegistrationIsWritten(
    run: seq<State>, labels: seq<Label>, i: nat, j: nat, c: Cid, id: nat) returns (n: nat)
    requires IsRun(run) && Labels(run, labels) && i < j < |run| && RegistersId(run, labels, i, c, id)
    requires labels[i].t in run[j].threads && run[j].threads[labels[i].t].op.Idle?
    requires LogAt(run[j].sh.cells, c).drawn <= L.U64
    ensures var reqs, e := LogAt(run[j].sh.cells, c).reqs, Entry(id, labels[i].step.priority, labels[i].step.once);
            n < |reqs| && reqs[n] == Insert(e) && forall m :: 0 <= m < |reqs| && reqs[m] == Insert(e) ==> m == n
  {
    hide IsRun, StateInv, LabelOk, CanThread, NoWrite, AsksFor, L.LogInv, Effect;
    var t := labels[i].t;
    Registers(run, labels, i, c, id);
    var e := Entry(id, labels[i].step.priority, labels[i].step.once);
    var k := CallWrites(run, labels, i, j, t, c);
    CallTakesEffect(run, labels, i, k, t, c);
    InsertChanges(L.Current(LogAt(run[k].sh.cells, c)), e, L.Current(LogAt(run[k + 1].sh.cells, c)),
                  |LogAt(run[k + 1].sh.cells, c).hist| > |LogAt(run[k].sh.cells, c).hist|);
    n := |LogAt(run[k].sh.cells, c).reqs|;
    RunCells(run, i, k + 1, c);
    RunCells(run, k + 1, j, c);
    RunKept(run, j);
    LogOf(run[j], c);
    var g := run[j].sh.cells[c].log;
    assert g.reqs[n] == Insert(e);
    forall m | 0 <= m < |g.reqs| && g.reqs[m] == Insert(e) ensures m == n { OnlyInsert(g, m, n, e); }
  }

  lemma {:induction false} InsertChanges(list: seq<Entry>, e: Entry, next: seq<Entry>, changed: bool)
    requires Effect(list, Insert(e), next, changed)
    ensures changed
  {
  }

  lemma {:induction false} OnlyInsert(g: L.Log, m: nat, n: nat, e: Entry)
    requires L.LogInv(g) && g.drawn <= L.U64 && m < |g.reqs| && n < |g.reqs|
    requires g.reqs[m] == Insert(e) && g.reqs[n] == Insert(e)
    ensures m == n
  {
    assert L.InsertsAt(g.reqs, m, e.id) && L.InsertsAt(g.reqs, n, e.id);
  }

  lemma {:induction false} EntriesAfter(list: seq<Entry>, req: Request, next: seq<Entry>, e: Entry)
    requires Apply(list, req) == Some(next) && e in next
    ensures e in list || req == Insert(e)
  {
  }

  /** Every entry of a list of the history was inserted by one of the writes before. */
  lemma {:induction false} ListedWasInserted(hist: seq<seq<Entry>>, reqs: seq<Request>, v: nat, e: Entry)
    returns (n: nat)
    requires L.Evolves(hist, reqs) && v < |hist| && e in hist[v]
    ensures n < v && n < |reqs| && reqs[n] == Insert(e)
  {
    assert v > 0;
    assert Apply(hist[v - 1], reqs[v - 1]) == Some(hist[v]);
    EntriesAfter(hist[v - 1], reqs[v - 1], hist[v], e);
    n := v - 1;
    if reqs[n] != Insert(e) { n := ListedWasInserted(hist, reqs, v - 1, e); }
  }
}
