/** Handler lists and the three writes the registries make on them: `insert`, `remove_id`
    and `remove_all` of `src/sync/mod.rs` (the asynchronous registry's are the same). */
module HandlerList {

  datatype Option<+T> = None | Some(value: T)

  /** `once` marks an entry made by `register_once`; the closure itself is not modelled. */
  datatype Entry = Entry(id: nat, priority: int, once: bool)

  datatype Request = Insert(entry: Entry) | Remove(id: nat) | Clear

  /** The number of leading entries whose priority is at least `p`. */
  function After(list: seq<Entry>, p: int): (n: nat)
    ensures n <= |list|
    ensures forall i :: 0 <= i < n ==> list[i].priority >= p
    ensures n < |list| ==> list[n].priority < p
  {
    if list == [] || list[0].priority < p then 0 else 1 + After(list[1..], p)
  }

  /** The first position of `id`, or the length of the list. */
  function IndexOf(list: seq<Entry>, id: nat): (n: nat)
    ensures n <= |list|
    ensures n < |list| ==> list[n].id == id
    ensures forall i :: 0 <= i < n ==> list[i].id != id
  {
    if list == [] || list[0].id == id then 0 else 1 + IndexOf(list[1..], id)
  }

  predicate HasId(list: seq<Entry>, id: nat) {
    exists i :: 0 <= i < |list| && list[i].id == id
  }

  function InsertAt(list: seq<Entry>, n: nat, e: Entry): seq<Entry>
    requires n <= |list|
  {
    list[..n] + [e] + list[n..]
  }

  function RemoveAt(list: seq<Entry>, n: nat): seq<Entry>
    requires n < |list|
  {
    list[..n] + list[n + 1..]
  }

  /** What the closure given to `update` returns: the next list, or `None` to leave it alone. */
  function Apply(list: seq<Entry>, req: Request): Option<seq<Entry>> {
    match req
    case Insert(e) => Some(InsertAt(list, After(list, e.priority), e))
    case Remove(id) =>
      var n := IndexOf(list, id);
      if n == |list| then None else Some(RemoveAt(list, n))
    case Clear => if list == [] then None else Some([])
  }
}
