/** The loops behind the registry's writes and behind reclamation, proved against the functions the
    protocol uses: `partition_point` and `insert`, `position` and `remove_id`, `collect_unprotected`,
    and the id counter. */
module RegistryWrites {
  import opened HandlerList
  import opened HazardDomain
  import opened SnapCell
  import O = RegistryOrder
  import L = RegistryLog

  /** `partition_point` over the lists a registry holds: the position after every entry of equal or
      higher priority. */
  method PartitionPoint(list: seq<Entry>, priority: int) returns (pos: nat)
    requires O.Descending(list)
    ensures pos <= |list|
    ensures forall i :: 0 <= i < |list| ==> (i < pos <==> list[i].priority >= priority)
    ensures pos == After(list, priority)
  {
    pos := 0;
    var hi := |list|;
    while pos < hi
      invariant 0 <= pos <= hi <= |list|
      invariant forall i :: 0 <= i < pos ==> list[i].priority >= priority
      invariant forall i :: hi <= i < |list| ==> list[i].priority < priority
    {
      var mid := pos + (hi - pos) / 2;
      if list[mid].priority >= priority { pos := mid + 1; } else { hi := mid; }
    }
    O.AfterSplits(list, priority);
    assert pos < |list| ==> list[pos].priority < priority;
  }

  /** The closure `insert` gives to `update`: the write it makes is the protocol's insertion, and the
      order it keeps is the stable one. */
  method InsertEntry(current: seq<Entry>, entry: Entry, ghost arrivals: seq<Entry>) returns (next: seq<Entry>)
    requires O.IsStableSort(current, arrivals)
    ensures Apply(current, Insert(entry)) == Some(next)
    ensures O.IsStableSort(next, arrivals + [entry])
  {
    var pos := PartitionPoint(current, entry.priority);
    next := current[..pos] + [entry] + current[pos..];
    O.InsertKeepsOrder(current, arrivals, entry);
  }

  /** The closure `remove_id` gives to `update`; `None` leaves the list alone and reports false. */
  method RemoveEntry(current: seq<Entry>, id: nat) returns (next: Option<seq<Entry>>)
    ensures next == Apply(current, Remove(id))
    ensures next.None? <==> !HasId(current, id)
  {
    var pos := 0;
    while pos < |current| && current[pos].id != id
      invariant 0 <= pos <= |current|
      invariant forall i :: 0 <= i < pos ==> current[i].id != id
    {
      pos := pos + 1;
    }
    assert pos == IndexOf(current, id);
    next := if pos == |current| then None else Some(current[..pos] + current[pos + 1..]);
  }

  /** `swap_remove`. */
  function SwapRemove(s: seq<Addr>, i: nat): (r: seq<Addr>)
    requires i < |s|
    ensures |r| == |s| - 1
  {
    var n := |s| - 1;
    if i == n then s[..n] else s[..n][i := s[n]]
  }

  lemma {:induction false} SwapRemoveTakesOne(s: seq<Addr>, i: nat)
    requires i < |s|
    ensures multiset(SwapRemove(s, i)) + multiset{s[i]} == multiset(s)
    ensures SwapRemove(s, i)[..i] == s[..i]
  {
    var n := |s| - 1;
    assert s == s[..n] + [s[n]];
    if i < n {
      var r := s[..n];
      assert multiset(r[i := s[n]]) == multiset(r) - multiset{r[i]} + multiset{s[n]};
      assert r[i] in multiset(r);
    }
  }

  /** `collect_unprotected` with the announcements it found: an exact partition of the retired lists. */
  method CollectUnprotected(retired: seq<Addr>, announced: seq<Addr>) returns (kept: seq<Addr>, freed: seq<Addr>)
    ensures IsSplit(retired, announced, kept, freed)
  {
    kept, freed := retired, [];
    var i := 0;
    while i < |kept|
      invariant 0 <= i <= |kept|
      invariant multiset(kept) + multiset(freed) == multiset(retired)
      invariant forall a :: a in kept[..i] ==> a in announced
      invariant forall a :: a in freed ==> a !in announced
      decreases |kept| - i
    {
      if kept[i] in announced {
        i := i + 1;
      } else {
        SwapRemoveTakesOne(kept, i);
        freed := freed + [kept[i]];
        kept := SwapRemove(kept, i);
      }
    }
    assert kept[..i] == kept;
  }

  /** Run by a thread whose scan is over, it is one of the protocol's collection steps. */
  method CollectStep(sh: Shared, t: Tid, th: Thread) returns (kept: seq<Addr>, freed: seq<Addr>)
    requires th.op.Scanning? && th.op.cursor == NULL && th.op.c in sh.cells
    ensures CanCollect(sh, t, th, kept, freed)
    ensures |kept| + |freed| == |sh.cells[th.op.c].retired|
  {
    kept, freed := CollectUnprotected(sh.cells[th.op.c].retired, th.op.found);
    assert |multiset(kept) + multiset(freed)| == |multiset(sh.cells[th.op.c].retired)|;
  }

  /** `HandlerIdGenerator`: a 64-bit counter that starts at 1 and wraps. */
  class HandlerIds {
    var next: nat
    ghost var issued: seq<nat>

    ghost predicate Valid()
      reads this
    {
      && next == IdOf(|issued|)
      && forall i :: 0 <= i < |issued| ==> issued[i] == IdOf(i)
    }

    constructor ()
      ensures Valid() && issued == []
    {
      next, issued := 1, [];
    }

    /** Issues an id, the one the next draw of a registry with as many draws behind it would issue. */
    method Next() returns (id: nat)
      requires Valid()
      modifies this
      ensures Valid() && issued == old(issued) + [id]
      ensures |issued| <= L.U64 ==> id !in old(issued)
      ensures forall g: L.Log :: L.LogInv(g) && g.drawn == |old(issued)| ==> g.nextId == id
    {
      id := next;
      next := (next + 1) % L.U64;
      issued := issued + [id];
      L.WrapsAround(|issued|);
      if |issued| <= L.U64 { DrawnDiffer(|issued| - 1); }
    }
  }

  /** The id of draw number `n`. */
  function IdOf(n: nat): nat { (1 + n) % L.U64 }

  /** The first 2^64 ids are distinct. */
  lemma {:induction false} DrawnDiffer(n: nat)
    requires n < L.U64
    ensures forall i: nat :: i < n ==> IdOf(i) != IdOf(n)
  {
    forall i: nat | i < n ensures IdOf(i) != IdOf(n) {
      assert IdOf(i) == 1 + i;
      if 1 + n < L.U64 { assert IdOf(n) == 1 + n; } else { assert 1 + n == L.U64; }
    }
  }
}
