/** One registry's write history: the lists its cell has held, the writes that made them in
    the order they took the writer lock, the id counter, and its one-shot handlers.

    Only `nextId` (the atomic counter of `src/handler_id.rs`) and `armed` (the one-shot
    closures still in their mutexes) exist at run time; the rest is history. */
module RegistryLog {
  import opened HandlerList

  const U64: nat := 0x1_0000_0000_0000_0000

  /** Counting in 64 bits one at a time is counting, then cutting to 64 bits. */
  lemma {:induction false} WrapsAround(n: nat)
    ensures (n % U64 + 1) % U64 == (n + 1) % U64
  {
    assert n == n / U64 * U64 + n % U64;
    if n % U64 + 1 == U64 {
      assert n + 1 == (n / U64 + 1) * U64;
    } else {
      assert n + 1 == n / U64 * U64 + (n % U64 + 1);
    }
  }

  /** `hist[v]` is the list after `v` effective writes; `pending` maps an id drawn but not yet
      inserted to the thread holding it; `bodies` lists the one-shot bodies run so far, `running`
      those whose thread has yet to remove them, `abandoned` those that outlived the registry's `Arc`. */
  datatype Log = Log(
    nextId: nat, drawn: nat,
    hist: seq<seq<Entry>>, reqs: seq<Request>,
    pending: map<nat, nat>, armed: set<nat>, bodies: seq<nat>,
    running: map<nat, nat>, abandoned: set<nat>)

  const FRESH: Log := Log(1, 0, [[]], [], map[], {}, [], map[], {})

  function Current(g: Log): seq<Entry>
    requires g.hist != []
  {
    g.hist[|g.hist| - 1]
  }

  // ----- steps ---------------------------------------------------------------

  /** `HandlerIdGenerator::next`, and the one-shot closure being stored beside the id. */
  function Draw(g: Log, t: nat, once: bool): Log {
    g.(nextId := (g.nextId + 1) % U64,
       drawn := g.drawn + 1,
       pending := g.pending[g.nextId := t],
       armed := if once then g.armed + {g.nextId} else g.armed)
  }

  /** A write takes effect. */
  function Commit(g: Log, req: Request, next: seq<Entry>): Log {
    g.(hist := g.hist + [next],
       reqs := g.reqs + [req],
       pending := if req.Insert? then g.pending - {req.entry.id} else g.pending,
       running := if req.Remove? then g.running - {req.id} else g.running)
  }

  /** A write finds nothing to do. */
  function Miss(g: Log, req: Request): Log {
    g.(running := if req.Remove? then g.running - {req.id} else g.running)
  }

  /** A dispatch takes the one-shot closure out of its mutex and runs it. */
  function Take(g: Log, id: nat, t: nat): Log {
    g.(armed := g.armed - {id}, bodies := g.bodies + [id], running := g.running[id := t])
  }

  /** A one-shot body ends and cannot reach the registry any more. */
  function Abandon(g: Log, id: nat): Log {
    g.(running := g.running - {id}, abandoned := g.abandoned + {id})
  }

  // ----- invariant -----------------------------------------------------------

  ghost predicate Evolves(hist: seq<seq<Entry>>, reqs: seq<Request>) {
    && |hist| == |reqs| + 1
    && hist[0] == []
    && forall i :: 0 <= i < |reqs| ==> Apply(hist[i], reqs[i]) == Some(hist[i + 1])
  }

  /** `id` was inserted by one of the writes. */
  ghost predicate Inserted(reqs: seq<Request>, id: nat) {
    exists i :: 0 <= i < |reqs| && InsertsAt(reqs, i, id)
  }

  ghost predicate InsertsAt(reqs: seq<Request>, i: nat, id: nat)
    requires i < |reqs|
  {
    reqs[i].Insert? && reqs[i].entry.id == id
  }

  /** Which draw produced this id: the counter starts at 1 and wraps to 0. */
  function Serial(id: nat): int {
    if id == 0 then U64 - 1 else id - 1
  }

  ghost predicate InsertsOnce(reqs: seq<Request>) {
    forall i, j, id :: 0 <= i < j < |reqs| && InsertsAt(reqs, i, id) ==> !InsertsAt(reqs, j, id)
  }

  /** A one-shot body that has run is gone from the list, unless its removal is still due. */
  ghost predicate Spent(g: Log, id: nat)
    requires g.hist != []
  {
    id in g.running || id in g.abandoned || !HasId(Current(g), id)
  }

  /** What holds of ids until the counter has wrapped past its start. */
  ghost predicate IdsInv(g: Log)
    requires g.hist != []
  {
    && InsertsOnce(g.reqs)
    && (forall x :: Inserted(g.reqs, x) ==> Serial(x) < g.drawn && x !in g.pending)
    && (forall x :: x in g.pending ==> Serial(x) < g.drawn)
    && (forall x :: x in g.armed ==> Serial(x) < g.drawn)
    && (forall x :: x in g.bodies ==> x !in g.armed && Inserted(g.reqs, x) && Spent(g, x))
    && (forall i, j :: 0 <= i < j < |g.bodies| ==> g.bodies[i] != g.bodies[j])
  }

  ghost predicate LogInv(g: Log) {
    && Evolves(g.hist, g.reqs)
    && g.nextId == (1 + g.drawn) % U64
    && (g.drawn <= U64 ==> IdsInv(g))
  }

  // ----- preservation --------------------------------------------------------

  lemma FreshHolds()
    ensures LogInv(FRESH)
  {
  }

  lemma DrawKept(g: Log, t: nat, once: bool)
    requires LogInv(g)
    ensures LogInv(Draw(g, t, once))
    ensures g.drawn < U64 ==> g.nextId !in g.pending && !Inserted(g.reqs, g.nextId)
  {
    var e := Draw(g, t, once);
    if g.drawn < U64 {
      assert Serial(g.nextId) == g.drawn;
      forall x | x in e.bodies ensures x !in e.armed && Inserted(e.reqs, x) && Spent(e, x) {
        assert Spent(g, x);
      }
    }
  }

  lemma InsertedAppend(reqs: seq<Request>, req: Request, id: nat)
    ensures Inserted(reqs + [req], id) <==> Inserted(reqs, id) || (req.Insert? && req.entry.id == id)
  {
    var all := reqs + [req];
    if Inserted(reqs, id) {
      var i :| 0 <= i < |reqs| && InsertsAt(reqs, i, id);
      assert InsertsAt(all, i, id);
    }
    if req.Insert? && req.entry.id == id {
      assert InsertsAt(all, |reqs|, id);
    }
    if Inserted(all, id) {
      var i :| 0 <= i < |all| && InsertsAt(all, i, id);
      assert i < |reqs| ==> InsertsAt(reqs, i, id);
    }
  }

  /** The ids of the next list: those of this one, less what the write takes out, plus what it puts in. */
  lemma IdsAfter(list: seq<Entry>, req: Request, next: seq<Entry>, id: nat)
    requires Apply(list, req) == Some(next)
    ensures HasId(next, id) ==> HasId(list, id) || (req.Insert? && req.entry.id == id)
  {
    if HasId(next, id) {
      var k :| 0 <= k < |next| && next[k].id == id;
      match req
      case Insert(e) =>
        var n := After(list, e.priority);
        assert next == InsertAt(list, n, e);
        if k < n { assert list[k].id == id; } else if k > n { assert list[k - 1].id == id; }
      case Remove(x) =>
        var n := IndexOf(list, x);
        assert next == RemoveAt(list, n);
        if k < n { assert list[k].id == id; } else { assert list[k + 1].id == id; }
      case Clear =>
    }
  }

  ghost predicate Distinct(list: seq<Entry>) {
    forall i, j :: 0 <= i < j < |list| ==> list[i].id != list[j].id
  }

  /** Every id in a list was inserted by an earlier write, and no list holds an id twice. */
  lemma {:induction false} ListedWereInserted(hist: seq<seq<Entry>>, reqs: seq<Request>, v: nat)
    requires Evolves(hist, reqs) && v < |hist|
    ensures forall id :: HasId(hist[v], id) ==> Inserted(reqs[..v], id)
    ensures InsertsOnce(reqs) ==> Distinct(hist[v])
  {
    if v > 0 {
      ListedWereInserted(hist, reqs, v - 1);
      assert Apply(hist[v - 1], reqs[v - 1]) == Some(hist[v]);
      assert reqs[..v] == reqs[..v - 1] + [reqs[v - 1]];
      forall id | HasId(hist[v], id) ensures Inserted(reqs[..v], id) {
        IdsAfter(hist[v - 1], reqs[v - 1], hist[v], id);
        InsertedAppend(reqs[..v - 1], reqs[v - 1], id);
      }
      if InsertsOnce(reqs) {
        if reqs[v - 1].Insert? { NotInsertedBefore(reqs, v - 1, reqs[v - 1].entry.id); }
        DistinctAfter(hist[v - 1], reqs[v - 1], hist[v]);
      }
    }
  }

  lemma NotInsertedBefore(reqs: seq<Request>, v: nat, id: nat)
    requires InsertsOnce(reqs) && v < |reqs| && InsertsAt(reqs, v, id)
    ensures !Inserted(reqs[..v], id)
  {
    if Inserted(reqs[..v], id) {
      var i :| 0 <= i < v && InsertsAt(reqs[..v], i, id);
      assert InsertsAt(reqs, i, id);
    }
  }

  lemma DistinctAfter(list: seq<Entry>, req: Request, next: seq<Entry>)
    requires Apply(list, req) == Some(next) && Distinct(list)
    requires req.Insert? ==> !HasId(list, req.entry.id)
    ensures Distinct(next)
    ensures req.Remove? ==> !HasId(next, req.id)
  {
    match req
    case Insert(e) =>
      var n := After(list, e.priority);
      assert next == InsertAt(list, n, e);
      assert forall k :: 0 <= k < |next| ==> next[k] == if k < n then list[k] else if k == n then e else list[k - 1];
    case Remove(x) =>
      var n := IndexOf(list, x);
      assert next == RemoveAt(list, n);
      assert forall k :: 0 <= k < |next| ==> next[k] == if k < n then list[k] else list[k + 1];
    case Clear =>
  }

  lemma CurrentIsTidy(g: Log)
    requires LogInv(g) && g.drawn <= U64
    ensures Distinct(Current(g))
    ensures forall id :: HasId(Current(g), id) ==> Inserted(g.reqs, id)
  {
    ListedWereInserted(g.hist, g.reqs, |g.reqs|);
    assert g.reqs[..|g.reqs|] == g.reqs;
  }

  lemma SpentAfterCommit(g: Log, req: Request, next: seq<Entry>, x: nat)
    requires LogInv(g) && Apply(Current(g), req) == Some(next) && g.drawn <= U64
    requires req.Insert? ==> req.entry.id in g.pending
    requires x in g.bodies
    ensures Spent(Commit(g, req, next), x)
  {
    assert Inserted(g.reqs, x) && Spent(g, x);
    IdsAfter(Current(g), req, next, x);
    CurrentIsTidy(g);
    DistinctAfter(Current(g), req, next);
  }

  lemma CommitKept(g: Log, req: Request, next: seq<Entry>)
    requires LogInv(g) && Apply(Current(g), req) == Some(next)
    requires req.Insert? && g.drawn <= U64 ==> req.entry.id in g.pending
    ensures LogInv(Commit(g, req, next))
  {
    var e := Commit(g, req, next);
    if g.drawn <= U64 {
      forall i, j, id | 0 <= i < j < |e.reqs| && InsertsAt(e.reqs, i, id) ensures !InsertsAt(e.reqs, j, id) {
        assert InsertsAt(g.reqs, i, id) && Inserted(g.reqs, id);
        assert j < |g.reqs| ==> InsertsAt(e.reqs, j, id) == InsertsAt(g.reqs, j, id);
      }
      forall x ensures Inserted(e.reqs, x) ==> Serial(x) < e.drawn && x !in e.pending {
        InsertedAppend(g.reqs, req, x);
      }
      forall x | x in e.bodies ensures x !in e.armed && Inserted(e.reqs, x) && Spent(e, x) {
        InsertedAppend(g.reqs, req, x);
        SpentAfterCommit(g, req, next, x);
      }
    }
  }

  lemma MissKept(g: Log, req: Request)
    requires LogInv(g) && Apply(Current(g), req) == None
    ensures LogInv(Miss(g, req))
  {
    var e := Miss(g, req);
    if g.drawn <= U64 {
      forall x | x in e.bodies ensures x !in e.armed && Inserted(e.reqs, x) && Spent(e, x) {
        assert Spent(g, x);
      }
    }
  }

  lemma TakeKept(g: Log, id: nat, t: nat)
    requires LogInv(g) && id in g.armed
    requires g.drawn <= U64 ==> Inserted(g.reqs, id)
    ensures LogInv(Take(g, id, t))
  {
    var e := Take(g, id, t);
    if g.drawn <= U64 {
      forall x | x in e.bodies ensures x !in e.armed && Inserted(e.reqs, x) && Spent(e, x) {
        if x != id { assert Spent(g, x); }
      }
    }
  }

  lemma AbandonKept(g: Log, id: nat)
    requires LogInv(g)
    ensures LogInv(Abandon(g, id))
  {
    var e := Abandon(g, id);
    if g.drawn <= U64 {
      forall x | x in e.bodies ensures x !in e.armed && Inserted(e.reqs, x) && Spent(e, x) {
        assert Spent(g, x);
      }
    }
  }
}
