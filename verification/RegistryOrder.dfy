/** What the write history of a registry says about its lists: they are the stable
    descending-priority sort of the surviving registrations, in the order the writes took the
    lock, and an id that has left never comes back. */
module RegistryOrder {
  import opened HandlerList
  import opened RegistryLog

  // ----- an independent description -----------------------------------------------------------

  function Without(list: seq<Entry>, id: nat): seq<Entry> {
    if list == [] then []
    else if list[0].id == id then Without(list[1..], id)
    else [list[0]] + Without(list[1..], id)
  }

  /** The registrations still standing after the writes, in the order they were made. */
  function Survivors(reqs: seq<Request>): seq<Entry> {
    if reqs == [] then []
    else
      var before := Survivors(reqs[..|reqs| - 1]);
      match reqs[|reqs| - 1]
      case Insert(e) => before + [e]
      case Remove(id) => Without(before, id)
      case Clear => []
  }

  function OfPriority(list: seq<Entry>, p: int): seq<Entry> {
    if list == [] then []
    else (if list[0].priority == p then [list[0]] else []) + OfPriority(list[1..], p)
  }

  ghost predicate Descending(list: seq<Entry>) {
    forall i, j :: 0 <= i < j < |list| ==> list[i].priority >= list[j].priority
  }

  /** Highest priority first; entries of equal priority in the order they arrived. */
  ghost predicate IsStableSort(list: seq<Entry>, arrivals: seq<Entry>) {
    Descending(list) && forall p :: OfPriority(list, p) == OfPriority(arrivals, p)
  }

  // ----- filters and concatenation --------------------------------------------------------------

  lemma {:induction false} OfPriorityAppend(a: seq<Entry>, b: seq<Entry>, p: int)
    ensures OfPriority(a + b, p) == OfPriority(a, p) + OfPriority(b, p)
  {
    if a == [] {
      assert a + b == b;
    } else {
      var head := if a[0].priority == p then [a[0]] else [];
      assert (a + b)[1..] == a[1..] + b;
      OfPriorityAppend(a[1..], b, p);
      assert OfPriority(a + b, p) == head + OfPriority(a[1..] + b, p);
      assert head + (OfPriority(a[1..], p) + OfPriority(b, p)) == (head + OfPriority(a[1..], p)) + OfPriority(b, p);
    }
  }

  lemma {:induction false} WithoutAppend(a: seq<Entry>, b: seq<Entry>, id: nat)
    ensures Without(a + b, id) == Without(a, id) + Without(b, id)
  {
    if a == [] {
      assert a + b == b;
    } else {
      assert (a + b)[1..] == a[1..] + b;
      WithoutAppend(a[1..], b, id);
    }
  }

  lemma {:induction false} WithoutAbsent(list: seq<Entry>, id: nat)
    requires !HasId(list, id)
    ensures Without(list, id) == list
  {
    if list != [] {
      forall i | 0 <= i < |list[1..]| ensures list[1..][i].id != id { assert list[i + 1].id != id; }
      WithoutAbsent(list[1..], id);
    }
  }

  /** Taking an id out commutes with looking at one priority. */
  lemma {:induction false} WithoutOfPriority(list: seq<Entry>, id: nat, p: int)
    ensures OfPriority(Without(list, id), p) == Without(OfPriority(list, p), id)
  {
    if list != [] {
      WithoutOfPriority(list[1..], id, p);
      var head := if list[0].priority == p then [list[0]] else [];
      WithoutAppend(head, OfPriority(list[1..], p), id);
      if list[0].id != id {
        OfPriorityAppend([list[0]], Without(list[1..], id), p);
        assert OfPriority([list[0]], p) == head;
      }
      assert head != [] ==> head[1..] == [];
    }
  }

  /** No entry of priority `p` where every priority is on one side of it. */
  lemma {:induction false} NoneOfPriority(list: seq<Entry>, p: int)
    requires forall i :: 0 <= i < |list| ==> list[i].priority != p
    ensures OfPriority(list, p) == []
  {
    if list != [] {
      NoneOfPriority(list[1..], p);
    }
  }

  // ----- the writes keep the order ----------------------------------------------------------------

  /** In a descending list `After` splits exactly between priorities at least `p` and below. */
  lemma {:induction false} AfterSplits(list: seq<Entry>, p: int)
    requires Descending(list)
    ensures forall i :: 0 <= i < |list| ==> (i < After(list, p) <==> list[i].priority >= p)
  {
  }

  lemma {:induction false} InsertDescends(list: seq<Entry>, n: nat, e: Entry)
    requires Descending(list) && n <= |list|
    requires forall i :: 0 <= i < |list| ==> (i < n <==> list[i].priority >= e.priority)
    ensures Descending(InsertAt(list, n, e))
  {
    var next := InsertAt(list, n, e);
    assert forall k :: 0 <= k < |next| ==> next[k] == if k < n then list[k] else if k == n then e else list[k - 1];
  }

  lemma {:induction false} InsertOfPriority(list: seq<Entry>, n: nat, e: Entry, p: int)
    requires n <= |list| && forall i :: n <= i < |list| ==> list[i].priority != e.priority
    ensures OfPriority(InsertAt(list, n, e), p) == OfPriority(list, p) + OfPriority([e], p)
  {
    assert list == list[..n] + list[n..] && InsertAt(list, n, e) == list[..n] + ([e] + list[n..]);
    OfPriorityAppend(list[..n], list[n..], p);
    OfPriorityAppend(list[..n], [e] + list[n..], p);
    OfPriorityAppend([e], list[n..], p);
    if p == e.priority { NoneOfPriority(list[n..], p); }
  }

  lemma {:induction false} InsertKeepsOrder(list: seq<Entry>, arrivals: seq<Entry>, e: Entry)
    requires IsStableSort(list, arrivals)
    ensures IsStableSort(InsertAt(list, After(list, e.priority), e), arrivals + [e])
  {
    var n := After(list, e.priority);
    AfterSplits(list, e.priority);
    InsertDescends(list, n, e);
    hide OfPriority, InsertAt;
    var next := InsertAt(list, n, e);
    forall p ensures OfPriority(next, p) == OfPriority(arrivals + [e], p) {
      InsertOfPriority(list, n, e, p);
      OfPriorityAppend(arrivals, [e], p);
    }
  }

  lemma {:induction false} RemoveIsWithout(list: seq<Entry>, id: nat)
    requires Distinct(list) && IndexOf(list, id) < |list|
    ensures RemoveAt(list, IndexOf(list, id)) == Without(list, id)
  {
    var n := IndexOf(list, id);
    assert list == list[..n] + ([list[n]] + list[n + 1..]);
    WithoutAppend(list[..n], [list[n]] + list[n + 1..], id);
    WithoutAbsent(list[..n], id);
    WithoutAbsent(list[n + 1..], id);
    assert ([list[n]] + list[n + 1..])[1..] == list[n + 1..];
  }

  lemma {:induction false} RemoveDescends(list: seq<Entry>, n: nat)
    requires Descending(list) && n < |list|
    ensures Descending(RemoveAt(list, n))
  {
    var next := RemoveAt(list, n);
    assert forall k :: 0 <= k < |next| ==> next[k] == if k < n then list[k] else list[k + 1];
  }

  lemma {:induction false} RemoveKeepsOrder(list: seq<Entry>, arrivals: seq<Entry>, id: nat)
    requires IsStableSort(list, arrivals) && Distinct(list) && IndexOf(list, id) < |list|
    ensures IsStableSort(RemoveAt(list, IndexOf(list, id)), Without(arrivals, id))
  {
    hide OfPriority, RemoveAt, Without, Distinct;
    RemoveDescends(list, IndexOf(list, id));
    RemoveIsWithout(list, id);
    var next := Without(list, id);
    forall p ensures OfPriority(next, p) == OfPriority(Without(arrivals, id), p) {
      WithoutOfPriority(list, id, p);
      WithoutOfPriority(arrivals, id, p);
    }
  }

  /** Every list a registry has ever held is the stable sort of the registrations standing at the time. */
  lemma {:induction false} ListsAreStableSorts(hist: seq<seq<Entry>>, reqs: seq<Request>, v: nat)
    requires Evolves(hist, reqs) && InsertsOnce(reqs) && v < |hist|
    ensures IsStableSort(hist[v], Survivors(reqs[..v]))
  {
    if v == 0 {
      assert reqs[..0] == [];
    } else {
      ListsAreStableSorts(hist, reqs, v - 1);
      ListedWereInserted(hist, reqs, v - 1);
      var list, req := hist[v - 1], reqs[v - 1];
      assert Apply(list, req) == Some(hist[v]);
      assert reqs[..v][..v - 1] == reqs[..v - 1] && reqs[..v][v - 1] == req;
      match req
      case Insert(e) => InsertKeepsOrder(list, Survivors(reqs[..v - 1]), e);
      case Remove(id) => RemoveKeepsOrder(list, Survivors(reqs[..v - 1]), id);
      case Clear =>
    }
  }

  // ----- the order determines the list -------------------------------------------------------------

  lemma {:induction false} HeadOfPriority(list: seq<Entry>)
    requires list != []
    ensures OfPriority(list, list[0].priority) != [] && OfPriority(list, list[0].priority)[0] == list[0]
  {
  }

  lemma {:induction false} PriorityOccurs(list: seq<Entry>, p: int)
    requires OfPriority(list, p) != []
    ensures exists i :: 0 <= i < |list| && list[i].priority == p
  {
    if forall i :: 0 <= i < |list| ==> list[i].priority != p {
      NoneOfPriority(list, p);
    }
  }

  lemma {:induction false} SameHead(a: seq<Entry>, b: seq<Entry>)
    requires Descending(a) && Descending(b) && a != [] && forall p :: OfPriority(a, p) == OfPriority(b, p)
    ensures b != [] && a[0] == b[0]
  {
    HeadOfPriority(a);
    PriorityOccurs(b, a[0].priority);
    HeadOfPriority(b);
    PriorityOccurs(a, b[0].priority);
  }

  /** There is only one stable sort of given arrivals. */
  lemma {:induction false} StableSortIsUnique(a: seq<Entry>, b: seq<Entry>, arrivals: seq<Entry>)
    requires IsStableSort(a, arrivals) && IsStableSort(b, arrivals)
    ensures a == b
  {
    if a == [] {
      if b != [] { SameHead(b, a); }
    } else {
      SameHead(a, b);
      forall p ensures OfPriority(a[1..], p) == OfPriority(b[1..], p) {
        var head := if a[0].priority == p then [a[0]] else [];
        assert OfPriority(a, p) == head + OfPriority(a[1..], p) && OfPriority(b, p) == head + OfPriority(b[1..], p);
        assert OfPriority(a[1..], p) == OfPriority(a, p)[|head|..];
        assert OfPriority(b[1..], p) == OfPriority(b, p)[|head|..];
      }
      StableSortIsUnique(a[1..], b[1..], b[1..]);
      assert a == [a[0]] + a[1..] && b == [b[0]] + b[1..];
    }
  }

  // ----- ids leave for good --------------------------------------------------------------------------

  /** An id inserted once and absent from a later list is in no list after that. */
  lemma {:induction false} StaysOut(hist: seq<seq<Entry>>, reqs: seq<Request>, id: nat, n: nat, v: nat)
    requires Evolves(hist, reqs) && InsertsOnce(reqs) && n <= v < |hist|
    requires Inserted(reqs[..n], id) && !HasId(hist[n], id)
    ensures !HasId(hist[v], id)
  {
    if v > n {
      StaysOut(hist, reqs, id, n, v - 1);
      assert Apply(hist[v - 1], reqs[v - 1]) == Some(hist[v]);
      var i :| 0 <= i < |reqs[..n]| && InsertsAt(reqs[..n], i, id);
      assert InsertsAt(reqs, i, id);
      assert !InsertsAt(reqs, v - 1, id);
      IdsAfter(hist[v - 1], reqs[v - 1], hist[v], id);
    }
  }

  /** An id that has been in the list and has left it is in no later list. */
  lemma {:induction false} LeavesForGood(hist: seq<seq<Entry>>, reqs: seq<Request>, id: nat, m: nat, n: nat, v: nat)
    requires Evolves(hist, reqs) && InsertsOnce(reqs) && m < n <= v < |hist|
    requires HasId(hist[m], id) && !HasId(hist[n], id)
    ensures !HasId(hist[v], id)
  {
    ListedWereInserted(hist, reqs, m);
    var i :| 0 <= i < |reqs[..m]| && InsertsAt(reqs[..m], i, id);
    assert InsertsAt(reqs[..n], i, id);
    StaysOut(hist, reqs, id, n, v);
  }

  /** A removal takes effect exactly when the id is in the list at that write, and then the id is gone. */
  lemma {:induction false} RemovalIffPresent(list: seq<Entry>, id: nat)
    ensures Apply(list, Remove(id)) != None <==> HasId(list, id)
    ensures Distinct(list) && Apply(list, Remove(id)).Some? ==>
              !HasId(Apply(list, Remove(id)).value, id) && |Apply(list, Remove(id)).value| == |list| - 1
  {
    if Distinct(list) && Apply(list, Remove(id)).Some? {
      DistinctAfter(list, Remove(id), Apply(list, Remove(id)).value);
    }
  }

  /** At most one removal of an id ever takes effect. */
  lemma {:induction false} RemovedOnce(hist: seq<seq<Entry>>, reqs: seq<Request>, id: nat, i: nat, j: nat)
    requires Evolves(hist, reqs) && InsertsOnce(reqs) && i < |reqs| && j < |reqs|
    requires reqs[i] == Remove(id) && reqs[j] == Remove(id)
    ensures i == j
  {
    if i < j {
      RemovedBefore(hist, reqs, id, i, j);
    } else if j < i {
      RemovedBefore(hist, reqs, id, j, i);
    }
  }

  lemma {:induction false} RemovedBefore(hist: seq<seq<Entry>>, reqs: seq<Request>, id: nat, i: nat, j: nat)
    requires Evolves(hist, reqs) && InsertsOnce(reqs) && i < j < |reqs| && reqs[i] == Remove(id)
    ensures reqs[j] != Remove(id)
  {
    ListedWereInserted(hist, reqs, i);
    assert Apply(hist[i], reqs[i]) == Some(hist[i + 1]) && Apply(hist[j], reqs[j]) == Some(hist[j + 1]);
    RemovalIffPresent(hist[i], id);
    LeavesForGood(hist, reqs, id, i, i + 1, j);
    RemovalIffPresent(hist[j], id);
  }

  /** How many entries a write takes out of the list it finds. */
  function TakenOut(list: seq<Entry>, req: Request): nat {
    match req
    case Insert(_) => 0
    case Remove(_) => 1
    case Clear => |list|
  }

  function Insertions(reqs: seq<Request>): nat {
    if reqs == [] then 0 else Insertions(reqs[..|reqs| - 1]) + (if reqs[|reqs| - 1].Insert? then 1 else 0)
  }

  function Removals(hist: seq<seq<Entry>>, reqs: seq<Request>): nat
    requires |hist| > |reqs|
  {
    if reqs == [] then 0
    else Removals(hist, reqs[..|reqs| - 1]) + TakenOut(hist[|reqs| - 1], reqs[|reqs| - 1])
  }

  /** The length of the list is the number of insertions less the number of entries removed. */
  lemma {:induction false} LengthBalances(hist: seq<seq<Entry>>, reqs: seq<Request>, v: nat)
    requires Evolves(hist, reqs) && v <= |reqs|
    ensures |hist[v]| + Removals(hist, reqs[..v]) == Insertions(reqs[..v])
  {
    if v > 0 {
      LengthBalances(hist, reqs, v - 1);
      assert Apply(hist[v - 1], reqs[v - 1]) == Some(hist[v]);
      assert reqs[..v][..v - 1] == reqs[..v - 1] && reqs[..v][v - 1] == reqs[v - 1];
    }
  }
}
