/** `notify` and `notify_sequential` of `src/async_registry/mod.rs`: the futures they return, polled by
    an executor until they are ready. */
module AsyncDispatch {
  import opened HandlerList
  import opened FutureExt

  function Max(a: nat, b: nat): nat { if a < b then b else a }

  function Min(a: nat, b: nat): nat { if a < b then a else b }

  function MaxNeeds(scripts: seq<Script>): nat {
    if scripts == [] then 0 else Max(MaxNeeds(scripts[..|scripts| - 1]), Needs(scripts[|scripts| - 1]))
  }

  /** The polls beyond its first that every future needs, added up. */
  function SumPending(scripts: seq<Script>): nat {
    if scripts == [] then 0
    else (if scripts[0].Builds? then scripts[0].pending else 0) + SumPending(scripts[1..])
  }

  /** The ids of the handlers that panic, in list order. */
  function PanickingIds(ids: seq<nat>, scripts: seq<Script>): seq<nat>
    requires |ids| == |scripts|
  {
    if ids == [] then []
    else
      var n := |ids| - 1;
      PanickingIds(ids[..n], scripts[..n]) + (if EndsInPanic(scripts[n]) then [ids[n]] else [])
  }

  /** The reports are those of the handlers that panic, building their future or being polled, each once and
      in the order of the list: `pos` are their places. */
  ghost predicate ReportsInOrder(ids: seq<nat>, scripts: seq<Script>, reported: seq<nat>, pos: seq<nat>)
    requires |ids| == |scripts|
  {
    && |pos| == |reported|
    && (forall j, k :: 0 <= j < k < |pos| ==> pos[j] < pos[k])
    && (forall k :: 0 <= k < |pos| ==> pos[k] < |ids| && reported[k] == ids[pos[k]])
    && (forall i :: 0 <= i < |ids| ==> (i in pos <==> scripts[i].PanicsBuilding? || scripts[i].panics))
  }

  lemma {:induction false} OneMoreReport(ids: seq<nat>, scripts: seq<Script>, reported: seq<nat>, pos: seq<nat>)
    requires |ids| == |scripts| > 0 && ReportsInOrder(ids[..|ids| - 1], scripts[..|ids| - 1], reported, pos)
    ensures var n := |ids| - 1;
            if scripts[n].PanicsBuilding? || scripts[n].panics
            then ReportsInOrder(ids, scripts, reported + [ids[n]], pos + [n])
            else ReportsInOrder(ids, scripts, reported, pos)
  {
    var n := |ids| - 1;
    assert forall i :: 0 <= i < n ==> scripts[..n][i] == scripts[i] && ids[..n][i] == ids[i];
    assert n !in pos;
    assert forall i :: i in pos + [n] <==> i in pos || i == n;
  }

  lemma {:induction false} ReportsAreInOrder(ids: seq<nat>, scripts: seq<Script>) returns (pos: seq<nat>)
    requires |ids| == |scripts|
    ensures ReportsInOrder(ids, scripts, PanickingIds(ids, scripts), pos)
  {
    if ids == [] {
      pos := [];
    } else {
      hide ReportsInOrder;
      var n := |ids| - 1;
      pos := ReportsAreInOrder(ids[..n], scripts[..n]);
      OneMoreReport(ids, scripts, PanickingIds(ids[..n], scripts[..n]), pos);
      if scripts[n].PanicsBuilding? || scripts[n].panics { pos := pos + [n]; }
    }
  }

  function AllNeeds(scripts: seq<Script>): seq<nat> {
    seq(|scripts|, i requires 0 <= i < |scripts| => Needs(scripts[i]))
  }

  // ----- the concurrent join ------------------------------------------------------------------

  function CountRunning(slots: seq<Slot>): nat {
    if slots == [] then 0
    else CountRunning(slots[..|slots| - 1]) + (if slots[|slots| - 1].Running? then 1 else 0)
  }

  lemma {:induction false} CountAfter(slots: seq<Slot>, i: nat, x: Slot)
    requires i < |slots|
    ensures CountRunning(slots[i := x]) + (if slots[i].Running? then 1 else 0)
            == CountRunning(slots) + (if x.Running? then 1 else 0)
  {
    var n := |slots| - 1;
    if i == n {
      assert slots[i := x][..n] == slots[..n];
    } else {
      assert slots[i := x][..n] == slots[..n][i := x];
      CountAfter(slots[..n], i, x);
    }
  }

  lemma {:induction false} NoneRunning(slots: seq<Slot>)
    ensures CountRunning(slots) == 0 <==> forall i :: 0 <= i < |slots| ==> !slots[i].Running?
  {
    if slots != [] {
      var n := |slots| - 1;
      NoneRunning(slots[..n]);
      assert forall i :: 0 <= i < n ==> slots[..n][i] == slots[i];
      assert slots == slots[..n] + [slots[n]];
    }
  }

  lemma {:induction false} AtLeastMax(scripts: seq<Script>, n: nat)
    ensures n >= MaxNeeds(scripts) <==> forall i :: 0 <= i < |scripts| ==> n >= Needs(scripts[i])
  {
    if scripts != [] {
      var m := |scripts| - 1;
      AtLeastMax(scripts[..m], n);
      assert forall i :: 0 <= i < m ==> scripts[..m][i] == scripts[i];
      assert scripts == scripts[..m] + [scripts[m]];
    }
  }

  /** The state `notify` keeps across polls when there are several handlers. */
  class Join {
    const slots: array<Slot>
    var running: nat
    ghost const scripts: seq<Script>
    ghost var rounds: nat
    ghost var polled: seq<nat>

    /** After `rounds` polls every slot is where its handler then is, `running` counts the running ones,
        and each future has been polled once a round until it ended and not after. */
    ghost predicate Valid()
      reads this, slots
    {
      && slots.Length == |scripts| == |polled|
      && (forall i :: 0 <= i < |scripts| ==> slots[i] == SlotAfter(scripts[i], rounds))
      && (forall i :: 0 <= i < |scripts| ==> polled[i] == Min(rounds, Needs(scripts[i])))
      && running == CountRunning(slots[..])
    }

    constructor (s: seq<Script>)
      ensures Valid() && fresh(slots) && scripts == s && rounds == 0
    {
      slots := new Slot[|s|](i requires 0 <= i < |s| => NewSlot(Start(s[i])));
      running, scripts, rounds, polled := 0, s, 0, seq(|s|, i => 0);
      new;
      assert forall i :: 0 <= i < |s| ==> slots[i] == SlotAfter(s[i], 0);
      for i := 0 to slots.Length
        modifies this`running
        invariant running == CountRunning(slots[..i])
      {
        assert slots[..i + 1][..i] == slots[..i];
        if slots[i].Running? { running := running + 1; }
      }
      assert slots[..slots.Length] == slots[..];
    }

    /** One poll of the join: ready exactly when as many rounds have passed as the slowest handler needs. */
    method Poll() returns (ready: bool)
      requires Valid()
      modifies this`running, this`rounds, this`polled, slots
      ensures Valid() && rounds == old(rounds) + 1
      ensures ready <==> rounds >= MaxNeeds(scripts)
      ensures ready <==> forall i :: 0 <= i < slots.Length ==> !slots[i].Running?
    {
      hide SlotAfter, Needs, CountRunning;
      for i := 0 to slots.Length
        invariant slots.Length == |scripts| == |polled| && rounds == old(rounds)
        invariant forall j :: 0 <= j < i ==> slots[j] == SlotAfter(scripts[j], rounds + 1)
        invariant forall j :: i <= j < |scripts| ==> slots[j] == SlotAfter(scripts[j], rounds)
        invariant forall j :: 0 <= j < i ==> polled[j] == Min(rounds + 1, Needs(scripts[j]))
        invariant forall j :: i <= j < |scripts| ==> polled[j] == Min(rounds, Needs(scripts[j]))
        invariant running == CountRunning(slots[..])
      {
        RunningIffNeeded(scripts[i], rounds);
        if slots[i].Running? {
          ghost var before := slots[..];
          var finished := PollSlot(slots, i);
          CountAfter(before, i, slots[i]);
          assert slots[..] == before[i := slots[i]];
          polled := polled[i := polled[i] + 1];
          if finished { running := running - 1; }
        }
      }
      rounds := rounds + 1;
      NoneRunning(slots[..]);
      forall i | 0 <= i < |scripts|
        ensures slots[i].Running? <==> rounds < Needs(scripts[i])
      {
        RunningIffNeeded(scripts[i], rounds);
      }
      AtLeastMax(scripts, rounds);
      ready := running == 0;
    }

    /** The loop after the join: each handler that panicked is reported, in list order. */
    method Report(ids: seq<nat>) returns (reported: seq<nat>)
      requires Valid() && |ids| == |scripts| && rounds >= MaxNeeds(scripts)
      ensures reported == PanickingIds(ids, scripts)
    {
      reported := [];
      AtLeastMax(scripts, rounds);
      for i := 0 to slots.Length
        invariant reported == PanickingIds(ids[..i], scripts[..i])
      {
        assert ids[..i + 1][..i] == ids[..i] && scripts[..i + 1][..i] == scripts[..i];
        if slots[i].Panicked? { reported := reported + [ids[i]]; }
      }
      assert ids[..|ids|] == ids && scripts[..|ids|] == scripts;
    }
  }

  /** `notify`, polled until ready: it takes exactly as many polls as the slowest handler (and one when
      there is nothing to wait for), every future is polled to its end and never again, and every panic
      is reported once, in list order, after all handlers have ended. */
  method Notify(ids: seq<nat>, scripts: seq<Script>) returns (polls: nat, reported: seq<nat>, ghost polled: seq<nat>)
    requires |ids| == |scripts|
    ensures polls == Max(1, MaxNeeds(scripts))
    ensures reported == PanickingIds(ids, scripts)
    ensures polled == AllNeeds(scripts)
  {
    polls, reported, polled := 1, [], [];
    if |scripts| == 0 {
      return;
    } else if |scripts| == 1 {
      ghost var n;
      polls, reported, n := AwaitOne(ids[0], scripts[0]);
      polled := [n];
      assert ids[..0] == [] && scripts[..0] == [];
    } else {
      var join := new Join(scripts);
      var ready := join.Poll();
      while !ready
        invariant join.Valid() && fresh(join) && fresh(join.slots) && join.scripts == scripts && join.rounds == polls
        invariant ready <==> join.rounds >= MaxNeeds(scripts)
        invariant polls == 1 || polls - 1 < MaxNeeds(scripts)
        decreases MaxNeeds(scripts) - polls
      {
        ready := join.Poll();
        polls := polls + 1;
      }
      reported := join.Report(ids);
      AtLeastMax(scripts, polls);
      polled := join.polled;
    }
  }

  /** A list of one handler is awaited without a join. */
  method AwaitOne(id: nat, s: Script) returns (polls: nat, reported: seq<nat>, ghost polled: nat)
    ensures polls == Max(1, Needs(s)) && polled == Needs(s)
    ensures reported == if EndsInPanic(s) then [id] else []
  {
    polls := 1;
    if s.PanicsBuilding? { return 1, [id], 0; }
    var future := new CatchUnwind(s);
    var outcome := future.Poll();
    while outcome.None?
      invariant future.Valid() && fresh(future) && future.script == s && future.polls == polls
      invariant polls <= Needs(s)
      invariant outcome == if polls == Needs(s) then Some(s.panics) else None
      decreases Needs(s) - polls
    {
      outcome := future.Poll();
      polls := polls + 1;
    }
    reported := if outcome.value then [id] else [];
    polled := future.polls;
  }

  // ----- one handler after another --------------------------------------------------------------

  /** The state `notify_sequential` keeps across polls. */
  class Sequence {
    const ids: seq<nat>
    const scripts: seq<Script>
    var index: nat
    var current: Option<Fut>
    var reported: seq<nat>
    ghost var polled: seq<nat>

    ghost predicate Valid()
      reads this
    {
      && |ids| == |scripts| == |polled| && index <= |ids|
      && (current.Some? ==>
            && index < |ids| && scripts[index].Builds? && current.value.panics == scripts[index].panics
            && current.value.pending + polled[index] == scripts[index].pending)
      && (forall j :: 0 <= j < index ==> polled[j] == Needs(scripts[j]))
      && (forall j :: index <= j < |ids| && (j > index || current.None?) ==> polled[j] == 0)
      && reported == PanickingIds(ids[..index], scripts[..index])
    }

    /** The pending polls still to come. */
    ghost function Left(): nat
      requires Valid()
      reads this
    {
      if current.Some? then current.value.pending + SumPending(scripts[index + 1..]) else SumPending(scripts[index..])
    }

    constructor (i: seq<nat>, s: seq<Script>)
      requires |i| == |s|
      ensures Valid() && ids == i && scripts == s && Left() == SumPending(s)
    {
      ids, scripts, index, current, reported, polled := i, s, 0, None, [], seq(|s|, k => 0);
      new;
      assert ids[..0] == [] && scripts[..0] == [] && scripts[0..] == s;
    }

    /** The current handler has ended. */
    method Advance(panicked: bool)
      requires Valid() && index < |ids| && (current.Some? ==> current.value.pending == 0)
      requires panicked == EndsInPanic(scripts[index]) && (current.None? ==> scripts[index].PanicsBuilding?)
      modifies this`index, this`current, this`reported, this`polled
      ensures Valid() && index == old(index) + 1 && current.None? && Left() == old(Left())
    {
      assert ids[..index + 1][..index] == ids[..index] && scripts[..index + 1][..index] == scripts[..index];
      assert scripts[index..][1..] == scripts[index + 1..];
      if current.Some? { polled := polled[index := polled[index] + 1]; }
      if panicked { reported := reported + [ids[index]]; }
      index, current := index + 1, None;
    }

    /** One poll: it goes on through the list until a future is pending. */
    method Poll() returns (ready: bool)
      requires Valid()
      modifies this`index, this`current, this`reported, this`polled
      ensures Valid()
      ensures ready <==> old(Left()) == 0
      ensures ready ==> index == |ids| && current.None?
      ensures !ready ==> Left() == old(Left()) - 1
    {
      while index < |ids|
        invariant Valid() && Left() == old(Left())
        decreases |ids| - index, current.None?
      {
        if current.None? {
          match Start(scripts[index])
          case None => Advance(true);
          case Some(fut) =>
            assert scripts[index..][1..] == scripts[index + 1..];
            current := Some(fut);
        } else {
          match PollCaught(current.value)
          case Pending(rest) =>
            current := Some(rest);
            polled := polled[index := polled[index] + 1];
            return false;
          case ReadyOk => Advance(false);
          case ReadyErr => Advance(true);
        }
      }
      assert scripts[index..] == [];
      ready := true;
    }
  }

  /** `notify_sequential`, polled until ready: one poll and one more for every time a future is pending;
      the same futures polled to their ends and the same reports as the concurrent form. */
  method NotifySequential(ids: seq<nat>, scripts: seq<Script>)
    returns (polls: nat, reported: seq<nat>, ghost polled: seq<nat>)
    requires |ids| == |scripts|
    ensures polls == 1 + SumPending(scripts)
    ensures reported == PanickingIds(ids, scripts)
    ensures polled == AllNeeds(scripts)
  {
    polls := 1;
    if |scripts| == 0 { return 1, [], []; }
    var task := new Sequence(ids, scripts);
    ghost var left := task.Left();
    var ready := task.Poll();
    while !ready
      invariant task.Valid() && fresh(task) && task.ids == ids && task.scripts == scripts
      invariant if ready then left == 0 && task.index == |ids| && task.current.None? else task.Left() + 1 == left
      invariant polls + left == 1 + SumPending(scripts)
      decreases left, !ready
    {
      left := task.Left();
      ready := task.Poll();
      polls := polls + 1;
    }
    reported, polled := task.reported, task.polled;
    assert ids[..|ids|] == ids && scripts[..|ids|] == scripts;
  }

  /** The concurrent form never takes more polls than the sequential one. */
  lemma {:induction false} ConcurrentIsNoSlower(scripts: seq<Script>)
    ensures Max(1, MaxNeeds(scripts)) <= 1 + SumPending(scripts)
  {
    AtLeastMax(scripts, 1 + SumPending(scripts));
    forall i | 0 <= i < |scripts| ensures Needs(scripts[i]) <= 1 + SumPending(scripts) {
      OneOfSum(scripts, i);
    }
  }

  lemma {:induction false} OneOfSum(scripts: seq<Script>, i: nat)
    requires i < |scripts|
    ensures Needs(scripts[i]) <= 1 + SumPending(scripts)
  {
    if i > 0 {
      OneOfSum(scripts[1..], i - 1);
    }
  }
}
