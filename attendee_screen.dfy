/** The mobile attendee screen's reaction to `lastEffect`
    (mobile/screens/AttendeeScreen.tsx). The screen keeps `lastEffect` as a string or
    null and never calls its setter, so it stays null; the reaction is modelled for
    every value all the same. Torch toggles and `setIsFlashing` calls go to one log in
    the order they are made, each stamped with its time. */
module AttendeeScreen {
  import opened Wrappers

  const PulseMs: nat := 200

  datatype Action = Toggle(on: bool) | SetFlashing(flashing: bool)

  datatype Timed = Timed(at: int, action: Action)

  /** What the effect hook does at once for `lastEffect` and the permission flag, and
      whether it arms the 200 ms switch-off. */
  datatype Reaction = Reaction(now: seq<Action>, armsOff: bool)

  function ReactionTo(lastEffect: Option<string>, permitted: bool): (r: Reaction)
    ensures !permitted ==> r == Reaction([], false)
    ensures lastEffect !in {Some("TORCH_ON"), Some("TORCH_OFF"), Some("PULSE")} ==> r == Reaction([], false)
    ensures permitted && lastEffect == Some("TORCH_ON") ==> r == Reaction([Toggle(true), SetFlashing(true)], false)
    ensures permitted && lastEffect == Some("TORCH_OFF") ==> r == Reaction([Toggle(false), SetFlashing(false)], false)
    ensures permitted && lastEffect == Some("PULSE") ==> r == Reaction([SetFlashing(true), Toggle(true)], true)
  {
    if lastEffect == Some("TORCH_ON") && permitted then Reaction([Toggle(true), SetFlashing(true)], false)
    else if lastEffect == Some("TORCH_OFF") && permitted then Reaction([Toggle(false), SetFlashing(false)], false)
    else if lastEffect == Some("PULSE") && permitted then Reaction([SetFlashing(true), Toggle(true)], true)
    else Reaction([], false)
  }

  /** The pulse's timeout callback. */
  const PulseOff: seq<Action> := [Toggle(false), SetFlashing(false)]

  function Stamp(at: int, actions: seq<Action>): (r: seq<Timed>)
    ensures |r| == |actions|
    ensures forall i :: 0 <= i < |r| ==> r[i] == Timed(at, actions[i])
  {
    if actions == [] then [] else [Timed(at, actions[0])] + Stamp(at, actions[1..])
  }

  /** The value `isFlashing` takes from a run of actions. */
  function FlashingAfter(flashing: bool, actions: seq<Action>): bool
    decreases |actions|
  {
    if actions == [] then flashing
    else FlashingAfter(if actions[0].SetFlashing? then actions[0].flashing else flashing, actions[1..])
  }

  /** With permission, a pulse turns the torch on and flags flashing, and its timeout
      turns it off and clears the flag; the reactions leave `isFlashing` matching the
      torch. */
  lemma ReactionsMatchTorch(flashing: bool, permitted: bool)
    ensures permitted ==> FlashingAfter(flashing, ReactionTo(Some("TORCH_ON"), permitted).now)
    ensures permitted ==> !FlashingAfter(flashing, ReactionTo(Some("TORCH_OFF"), permitted).now)
    ensures permitted ==> FlashingAfter(flashing, ReactionTo(Some("PULSE"), permitted).now)
    ensures !FlashingAfter(flashing, PulseOff)
    ensures !permitted ==> forall e :: FlashingAfter(flashing, ReactionTo(e, permitted).now) == flashing
  {
    assert [Toggle(true), SetFlashing(true)][1..] == [SetFlashing(true)];
    assert [Toggle(false), SetFlashing(false)][1..] == [SetFlashing(false)];
    assert [SetFlashing(true), Toggle(true)][1..] == [Toggle(true)];
  }

  class AttendeeScreenState {
    var lastEffect: Option<string>
    var isFlashing: bool
    var log: seq<Timed>
    /** Due times of the armed pulse switch-offs. */
    var timers: seq<int>

    /** `lastEffect` is never set away from its initial null. */
    ghost predicate Valid()
      reads this
    {
      lastEffect == None
    }

    constructor ()
      ensures Valid()
      ensures !isFlashing && log == [] && timers == []
    {
      lastEffect := None;
      isFlashing := false;
      log := [];
      timers := [];
    }

    /** The effect hook runs at time `now` with the current permission. */
    method React(permitted: bool, now: int)
      modifies this`isFlashing, this`log, this`timers
      ensures var r := ReactionTo(lastEffect, permitted);
        log == old(log) + Stamp(now, r.now) &&
        isFlashing == FlashingAfter(old(isFlashing), r.now) &&
        timers == old(timers) + (if r.armsOff then [now + PulseMs] else [])
      ensures Valid() ==> log == old(log) && isFlashing == old(isFlashing) && timers == old(timers)
    {
      if lastEffect == Some("TORCH_ON") && permitted {
        log := log + [Timed(now, Toggle(true))];
        isFlashing := true;
        log := log + [Timed(now, SetFlashing(true))];
      } else if lastEffect == Some("TORCH_OFF") && permitted {
        log := log + [Timed(now, Toggle(false))];
        isFlashing := false;
        log := log + [Timed(now, SetFlashing(false))];
      } else if lastEffect == Some("PULSE") && permitted {
        isFlashing := true;
        log := log + [Timed(now, SetFlashing(true))];
        log := log + [Timed(now, Toggle(true))];
        timers := timers + [now + PulseMs];
      }
      assert [Toggle(true), SetFlashing(true)][1..] == [SetFlashing(true)];
      assert [Toggle(false), SetFlashing(false)][1..] == [SetFlashing(false)];
      assert [SetFlashing(true), Toggle(true)][1..] == [Toggle(true)];
    }

    /** The `i`-th armed switch-off fires. */
    method FireTimer(i: nat)
      requires i < |timers|
      modifies this`isFlashing, this`log, this`timers
      ensures log == old(log) + Stamp(old(timers)[i], PulseOff) && !isFlashing
      ensures timers == old(timers)[..i] + old(timers)[i + 1..]
    {
      var at := timers[i];
      timers := timers[..i] + timers[i + 1..];
      log := log + [Timed(at, Toggle(false))];
      isFlashing := false;
      log := log + [Timed(at, SetFlashing(false))];
    }
  }
}
