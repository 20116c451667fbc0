/** `src/future_ext.rs`: handler futures polled in place inside an unwind boundary. */
module FutureExt {
  import opened HandlerList

  /** How one handler behaves for one event: it panics before returning a future, or its future is
      pending `pending` times and then is ready or panics. */
  datatype Script = PanicsBuilding | Builds(pending: nat, panics: bool)

  datatype Fut = Fut(pending: nat, panics: bool)

  /** One poll: the future as it is left, or its end. */
  datatype Polled = Pending(rest: Fut) | ReadyOk | ReadyErr

  datatype Slot = Running(fut: Fut) | Done | Panicked

  /** `start`; `None` is a caught panic. */
  function Start(s: Script): Option<Fut> {
    match s
    case PanicsBuilding => None
    case Builds(pending, panics) => Some(Fut(pending, panics))
  }

  function PollCaught(f: Fut): Polled {
    if f.pending > 0 then Pending(Fut(f.pending - 1, f.panics)) else if f.panics then ReadyErr else ReadyOk
  }

  function NewSlot(started: Option<Fut>): Slot {
    match started
    case Some(fut) => Running(fut)
    case None => Panicked
  }

  /** How many polls the handler's future needs. */
  function Needs(s: Script): nat { if s.PanicsBuilding? then 0 else s.pending + 1 }

  predicate EndsInPanic(s: Script) { s.PanicsBuilding? || s.panics }

  /** The slot of a handler after `n` rounds of polling, said without polling. */
  function SlotAfter(s: Script, n: nat): Slot {
    if n < Needs(s) then Running(Fut(s.pending - n, s.panics)) else if EndsInPanic(s) then Panicked else Done
  }

  lemma {:induction false} RunningIffNeeded(s: Script, n: nat)
    ensures SlotAfter(s, n).Running? <==> n < Needs(s)
    ensures SlotAfter(s, n).Panicked? <==> n >= Needs(s) && EndsInPanic(s)
    ensures n >= Needs(s) ==> SlotAfter(s, n + 1) == SlotAfter(s, n)
  {
  }

  /** `Slot::poll`: a running slot moves one round on, any other is left alone. */
  method PollSlot(slots: array<Slot>, i: nat) returns (finished: bool)
    requires i < slots.Length
    modifies slots
    ensures finished <==> !slots[i].Running?
    ensures forall j :: 0 <= j < slots.Length && j != i ==> slots[j] == old(slots[j])
    ensures forall s: Script, n: nat :: old(slots[i]) == SlotAfter(s, n) ==> slots[i] == SlotAfter(s, n + 1)
  {
    if !slots[i].Running? { return true; }
    match PollCaught(slots[i].fut)
    case Pending(rest) => slots[i] := Running(rest); finished := false;
    case ReadyOk => slots[i] := Done; finished := true;
    case ReadyErr => slots[i] := Panicked; finished := true;
  }

  /** The future that awaits one handler. */
  class CatchUnwind {
    var inner: Option<Fut>
    ghost const script: Script
    ghost var polls: nat

    /** Until it is over it holds the future as the polls so far have left it; then it holds none. */
    ghost predicate Valid()
      reads this
    {
      && script.Builds?
      && inner == (if polls < Needs(script) then Some(Fut(script.pending - polls, script.panics)) else None)
    }

    constructor (s: Script)
      requires s.Builds?
      ensures Valid() && polls == 0 && script == s
    {
      inner, script, polls := Some(Fut(s.pending, s.panics)), s, 0;
    }

    /** Ready at poll number `Needs(script)` and at no other; after that it only ever is pending. */
    method Poll() returns (p: Option<bool>)
      requires Valid()
      modifies this
      ensures Valid() && polls == old(polls) + 1
      ensures p == (if polls == Needs(script) then Some(script.panics) else None)
      ensures p.Some? ==> inner == None
    {
      p := None;
      if inner.Some? {
        match PollCaught(inner.value)
        case Pending(rest) => inner := Some(rest);
        case ReadyOk => inner := None; p := Some(false);
        case ReadyErr => inner := None; p := Some(true);
      }
      polls := polls + 1;
    }
  }
}
