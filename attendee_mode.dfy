/** The web attendee's effect player (client/src/pages/AttendeeMode.tsx): `runEffect`
    inside the effect-processing hook and the hook's cleanup. The player is a producer
    of timed outputs: torch switches and screen-colour changes, each stamped with the
    millisecond at which it happens. `setTimeout` becomes a list of pending timeouts and
    `setInterval` the one live strobe interval; which pending callback runs next is the
    caller's choice. The hook depends on `lastEffect`, `hasPermission` and `toggle`, and
    React compares them by identity: `lastEffect` is a new object on every
    `setLastEffect`, and `toggle` is rebuilt whenever the torch's on/off state changes
    (client/src/hooks/use-torch.ts:37-52). */
module AttendeeMode {
  import opened Wrappers
  import opened JsNumber
  import opened Schema
  import SocketClient

  /** Defaults for fields the payload leaves undefined. */
  const DefaultDuration: real := 5000.0
  const DefaultFrequency: real := 5.0
  const DefaultColor: string := "#FFFFFF"
  /** Length of a single pulse. */
  const PulseMs: nat := 200

  /** `toggle(on)` on the torch, or `setScreenFlashColor(color)` with `None` for null. */
  datatype Action = Torch(on: bool) | Screen(color: Option<string>)

  datatype Output = Output(at: int, action: Action)

  /** Whether an action lights the device (torch on, or a screen colour shown). */
  predicate Lights(a: Action) {
    match a
    case Torch(on) => on
    case Screen(c) => c.Some?
  }

  /** What a pending timeout does when it fires. A strobe stop names the interval it
      clears and whether the `toggle` it captured had permission. */
  datatype Job = TorchOff | ScreenClear | StopStrobe(intervalId: nat, permitted: bool)

  datatype Timeout = Timeout(due: int, job: Job)

  /** A live strobe interval: first armed at `start`, ticking every `every` ms, with
      `ticks` ticks done and the closure's `state` flag. `permitted` and `color` are the
      values the closure captured. */
  datatype Strobe = Strobe(
    id: nat,
    start: int,
    every: nat,
    ticks: nat,
    state: bool,
    permitted: bool,
    color: string)

  // ------------------------------------------------------------ timings

  /** The interval delay `(1000 / frequency) * 0.5` as the timer receives it; a zero
      frequency gives Infinity, which the timer reads as 0. */
  function TickEvery(frequency: real): (every: nat)
    ensures frequency > 0.0 && 500.0 / frequency < TwoTo31 as real ==> every == (500.0 / frequency).Floor
    ensures frequency == 0.0 ==> every == 0
  {
    if frequency == 0.0 then 0 else TimerDelay(Scale(Finite(1000.0 / frequency), 0.5))
  }

  /** The default frequency of 5 Hz ticks every 100 ms. */
  lemma DefaultTickEvery()
    ensures TickEvery(DefaultFrequency) == 100
  {
    assert 500.0 / DefaultFrequency == 100.0;
  }

  /** Whether the `k`-th tick (counting from 1) lights the device: the flag starts false
      and flips on every tick. */
  predicate TickLit(k: nat) {
    k % 2 == 1
  }

  /** The output of the `k`-th tick of strobe `s`. */
  function TickOutput(s: Strobe, k: nat): (o: Output)
    ensures o.at == s.start + k * s.every
    ensures Lights(o.action) <==> TickLit(k)
    ensures s.permitted <==> o.action.Torch?
  {
    var on := TickLit(k);
    Output(s.start + k * s.every, if s.permitted then Torch(on) else Screen(if on then Some(s.color) else None))
  }

  /** Consecutive ticks alternate between lit and dark, the first one lit. */
  lemma TicksAlternate(k: nat)
    ensures TickLit(1) && !TickLit(2)
    ensures TickLit(k) != TickLit(k + 1)
  {
  }

  /** How many of the first `n` ticks light the device. */
  function LitTicks(n: nat): nat {
    if n == 0 then 0 else LitTicks(n - 1) + (if TickLit(n) then 1 else 0)
  }

  /** Of the first `n` ticks, `ceil(n / 2)` are lit. */
  lemma {:induction false} LitTicksCount(n: nat)
    ensures LitTicks(n) == (n + 1) / 2
  {
    if n > 0 {
      LitTicksCount(n - 1);
    }
  }

  // ------------------------------------------------------------ runEffect

  function ColorOf(effect: EffectPayload): string {
    effect.color.GetOr(DefaultColor)
  }

  /** The outputs `runEffect` makes at once. */
  function RunOutputs(effect: EffectPayload, permitted: bool, now: int): seq<Output> {
    match effect.kind
    case TORCH_OFF => [Output(now, Torch(false)), Output(now, Screen(None))]
    case TORCH_ON => [Output(now, if permitted then Torch(true) else Screen(Some(ColorOf(effect))))]
    case PULSE => [Output(now, if permitted then Torch(true) else Screen(Some(ColorOf(effect))))]
    case STROBE => []
    case COLOR_WAVE => []
  }

  /** The timeouts `runEffect` arms; `id` is the id its interval would get. */
  function RunTimeouts(effect: EffectPayload, permitted: bool, now: int, id: nat): seq<Timeout> {
    match effect.kind
    case PULSE => [Timeout(now + PulseMs, if permitted then TorchOff else ScreenClear)]
    case STROBE => [Timeout(now + TimerDelay(Finite(effect.duration.GetOr(DefaultDuration))), StopStrobe(id, permitted))]
    case _ => []
  }

  /** The interval `runEffect` leaves running. */
  function RunStrobe(effect: EffectPayload, permitted: bool, now: int, id: nat): Option<Strobe> {
    if effect.kind == STROBE then
      Some(Strobe(id, now, TickEvery(effect.frequency.GetOr(DefaultFrequency)), 0, false, permitted, ColorOf(effect)))
    else None
  }

  /** The outputs of a timeout's callback when it fires at `at`. */
  function JobOutputs(job: Job, at: int): seq<Output> {
    match job
    case TorchOff => [Output(at, Torch(false))]
    case ScreenClear => [Output(at, Screen(None))]
    case StopStrobe(_, _) => [Output(at, Torch(false)), Output(at, Screen(None))]
  }

  /** The torch's `isOn` after a run of outputs made through a `toggle` that had
      permission `permitted`: without permission `toggle` returns at once. */
  function IsOnAfter(isOn: bool, outs: seq<Output>, permitted: bool): bool
    decreases |outs|
  {
    if outs == [] then isOn
    else IsOnAfter(if permitted && outs[0].action.Torch? then outs[0].action.on else isOn, outs[1..], permitted)
  }

  /** The identities the effect hook depends on: the delivery that produced the
      `lastEffect` object (SocketClient.SocketHook.deliveries, 0 for the initial null),
      `hasPermission`, and the torch state that `toggle`'s identity follows. */
  datatype Deps = Deps(delivery: nat, permitted: bool, isOn: bool)

  /** TORCH_OFF switches the torch off and clears the screen, arming nothing. */
  lemma TorchOffEffect(effect: EffectPayload, permitted: bool, now: int, id: nat)
    requires effect.kind == TORCH_OFF
    ensures forall o :: o in RunOutputs(effect, permitted, now) ==> !Lights(o.action)
    ensures Output(now, Torch(false)) in RunOutputs(effect, permitted, now)
    ensures Output(now, Screen(None)) in RunOutputs(effect, permitted, now)
    ensures RunTimeouts(effect, permitted, now, id) == [] && RunStrobe(effect, permitted, now, id) == None
  {
  }

  /** TORCH_ON lights the torch with permission and the screen in `color` without,
      and arms no switch-off. */
  lemma TorchOnEffect(effect: EffectPayload, permitted: bool, now: int, id: nat)
    requires effect.kind == TORCH_ON
    ensures |RunOutputs(effect, permitted, now)| == 1
    ensures var a := RunOutputs(effect, permitted, now)[0].action;
      Lights(a) && (permitted <==> a.Torch?) && (!permitted ==> a.color == Some(ColorOf(effect)))
    ensures RunTimeouts(effect, permitted, now, id) == [] && RunStrobe(effect, permitted, now, id) == None
  {
  }

  /** A pulse is exactly one switch-on now and, when its timeout fires, one switch-off
      on the same channel 200 ms later. */
  lemma PulseEffect(effect: EffectPayload, permitted: bool, now: int, id: nat)
    requires effect.kind == PULSE
    ensures var ts := RunTimeouts(effect, permitted, now, id);
      |ts| == 1 &&
      var timeline := RunOutputs(effect, permitted, now) + JobOutputs(ts[0].job, ts[0].due);
      |timeline| == 2 &&
      timeline[0].at == now && Lights(timeline[0].action) &&
      timeline[1].at == now + PulseMs && !Lights(timeline[1].action) &&
      (timeline[0].action.Torch? <==> permitted) && (timeline[1].action.Torch? <==> permitted)
    ensures RunStrobe(effect, permitted, now, id) == None
  {
  }

  /** A strobe starts dark, ticks every half period, and arms its own stop after
      `duration`; nothing is shown at once. */
  lemma StrobeEffect(effect: EffectPayload, permitted: bool, now: int, id: nat)
    requires effect.kind == STROBE
    ensures RunOutputs(effect, permitted, now) == []
    ensures var s := RunStrobe(effect, permitted, now, id);
      s.Some? && s.value.id == id && s.value.ticks == 0 && !s.value.state &&
      s.value.every == TickEvery(effect.frequency.GetOr(DefaultFrequency))
    ensures var ts := RunTimeouts(effect, permitted, now, id);
      |ts| == 1 && ts[0].job == StopStrobe(id, permitted) && ts[0].due >= now
  {
  }

  /** COLOR_WAVE changes no output and arms nothing. */
  lemma ColorWaveEffect(effect: EffectPayload, permitted: bool, now: int, id: nat)
    requires effect.kind == COLOR_WAVE
    ensures RunOutputs(effect, permitted, now) == []
    ensures RunTimeouts(effect, permitted, now, id) == [] && RunStrobe(effect, permitted, now, id) == None
  {
  }

  // ------------------------------------------------------------ the player

  class AttendeePlayer {
    var outputs: seq<Output>
    var timeouts: seq<Timeout>
    /** The interval of the latest run, while it has not been cleared. */
    var strobe: Option<Strobe>
    /** The id the next interval gets. */
    var nextId: nat
    /** The torch hook's `isOn`. */
    var isOn: bool
    /** The dependencies the effect hook last ran with; `None` before the first run. */
    var deps: Option<Deps>

    /** The strobe's flag records the parity of its tick count, and its id was issued. */
    ghost predicate Valid()
      reads this
    {
      strobe.Some? ==> strobe.value.state == TickLit(strobe.value.ticks) && strobe.value.id < nextId
    }

    constructor ()
      ensures Valid()
      ensures outputs == [] && timeouts == [] && strobe == None && nextId == 0
      ensures !isOn && deps == None
    {
      outputs := [];
      timeouts := [];
      strobe := None;
      nextId := 0;
      isOn := false;
      deps := None;
    }

    /** A render in which the hook sees `lastEffect`, stored by delivery number
        `delivery`, and `hasPermission == permitted`, at time `now`. When every
        dependency is the same as at the last run, nothing happens; an equal payload
        delivered again is a new object and so a new dependency. Otherwise the previous
        run's cleanup clears its interval, and `runEffect` runs when `lastEffect` is not
        null. */
    method Render(lastEffect: Option<EffectPayload>, delivery: nat, permitted: bool, now: int)
      requires Valid()
      modifies this
      ensures Valid()
      ensures var d := Deps(delivery, permitted, old(isOn));
        if old(deps) == Some(d) then
          outputs == old(outputs) && timeouts == old(timeouts) && strobe == old(strobe)
          && nextId == old(nextId) && isOn == old(isOn) && deps == old(deps)
        else
          && deps == Some(d)
          && (lastEffect.None? ==>
                outputs == old(outputs) && timeouts == old(timeouts) && strobe == None
                && nextId == old(nextId) && isOn == old(isOn))
          && (lastEffect.Some? ==>
                var e := lastEffect.value;
                && outputs == old(outputs) + RunOutputs(e, permitted, now)
                && timeouts == old(timeouts) + RunTimeouts(e, permitted, now, old(nextId))
                && strobe == RunStrobe(e, permitted, now, old(nextId))
                && nextId == old(nextId) + (if e.kind == STROBE then 1 else 0)
                && isOn == IsOnAfter(old(isOn), RunOutputs(e, permitted, now), permitted))
    {
      var d := Deps(delivery, permitted, isOn);
      if deps == Some(d) {
        return;
      }
      deps := Some(d);
      if lastEffect.None? {
        strobe := None;
      } else {
        Run(lastEffect.value, permitted, now);
      }
    }

    /** One run of the effect hook for `effect` at time `now`: the previous run's cleanup
        clears its interval, then `runEffect` runs. Earlier timeouts stay armed. */
    method Run(effect: EffectPayload, permitted: bool, now: int)
      requires Valid()
      modifies this`outputs, this`timeouts, this`strobe, this`nextId, this`isOn
      ensures Valid()
      ensures outputs == old(outputs) + RunOutputs(effect, permitted, now)
      ensures timeouts == old(timeouts) + RunTimeouts(effect, permitted, now, old(nextId))
      ensures strobe == RunStrobe(effect, permitted, now, old(nextId))
      ensures nextId == old(nextId) + (if effect.kind == STROBE then 1 else 0)
      ensures isOn == IsOnAfter(old(isOn), RunOutputs(effect, permitted, now), permitted)
    {
      strobe := None;
      var duration := effect.duration.GetOr(DefaultDuration);
      var frequency := effect.frequency.GetOr(DefaultFrequency);
      var color := effect.color.GetOr(DefaultColor);
      match effect.kind {
        case TORCH_OFF =>
          outputs := outputs + [Output(now, Torch(false))];
          if permitted {
            isOn := false;
          }
          outputs := outputs + [Output(now, Screen(None))];
          ghost var outs := [Output(now, Torch(false)), Output(now, Screen(None))];
          assert outs[1..] == [Output(now, Screen(None))];
          assert IsOnAfter(isOn, outs[1..], permitted) == isOn;
        case TORCH_ON =>
          if permitted {
            outputs := outputs + [Output(now, Torch(true))];
            isOn := true;
          } else {
            outputs := outputs + [Output(now, Screen(Some(color)))];
          }
        case PULSE =>
          if permitted {
            outputs := outputs + [Output(now, Torch(true))];
            isOn := true;
            timeouts := timeouts + [Timeout(now + PulseMs, TorchOff)];
          } else {
            outputs := outputs + [Output(now, Screen(Some(color)))];
            timeouts := timeouts + [Timeout(now + PulseMs, ScreenClear)];
          }
        case STROBE =>
          var id := nextId;
          nextId := nextId + 1;
          strobe := Some(Strobe(id, now, TickEvery(frequency), 0, false, permitted, color));
          timeouts := timeouts + [Timeout(now + TimerDelay(Finite(duration)), StopStrobe(id, permitted))];
        case COLOR_WAVE =>
      }
    }

    /** The live interval's callback runs: the flag flips and the torch or the screen
        follows it. Without a live interval nothing happens. */
    method Tick()
      requires Valid()
      modifies this`strobe, this`outputs, this`isOn
      ensures Valid()
      ensures old(strobe).None? ==> strobe == None && outputs == old(outputs) && isOn == old(isOn)
      ensures old(strobe).Some? ==>
        var s := old(strobe).value;
        strobe == Some(s.(ticks := s.ticks + 1, state := !s.state)) &&
        outputs == old(outputs) + [TickOutput(s, s.ticks + 1)] &&
        isOn == if s.permitted then !s.state else old(isOn)
    {
      if strobe.Some? {
        var s := strobe.value;
        var state := !s.state;
        var at := s.start + (s.ticks + 1) * s.every;
        if s.permitted {
          outputs := outputs + [Output(at, Torch(state))];
          isOn := state;
        } else {
          outputs := outputs + [Output(at, Screen(if state then Some(s.color) else None))];
        }
        strobe := Some(s.(ticks := s.ticks + 1, state := state));
      }
    }

    /** The `i`-th pending timeout fires at its due time. A strobe stop clears its own
        interval (if that is still the live one) and switches everything off. */
    method FireTimeout(i: nat)
      requires Valid()
      requires i < |timeouts|
      modifies this`timeouts, this`strobe, this`outputs, this`isOn
      ensures Valid()
      ensures timeouts == old(timeouts)[..i] + old(timeouts)[i + 1..]
      ensures outputs == old(outputs) + JobOutputs(old(timeouts)[i].job, old(timeouts)[i].due)
      ensures strobe == (match old(timeouts)[i].job
                         case StopStrobe(id, _) => if old(strobe).Some? && old(strobe).value.id == id then None else old(strobe)
                         case _ => old(strobe))
      ensures isOn == (match old(timeouts)[i].job
                       case TorchOff => false
                       case StopStrobe(_, p) => if p then false else old(isOn)
                       case ScreenClear => old(isOn))
    {
      var t := timeouts[i];
      timeouts := timeouts[..i] + timeouts[i + 1..];
      match t.job {
        case TorchOff =>
          outputs := outputs + [Output(t.due, Torch(false))];
          isOn := false;
        case ScreenClear =>
          outputs := outputs + [Output(t.due, Screen(None))];
        case StopStrobe(id, p) =>
          if strobe.Some? && strobe.value.id == id {
            strobe := None;
          }
          outputs := outputs + [Output(t.due, Torch(false))];
          if p {
            isOn := false;
          }
          outputs := outputs + [Output(t.due, Screen(None))];
      }
    }
  }

  /** A permitted PULSE does not settle: its `toggle(true)` changes the torch state, which
      re-runs the hook and lights the torch again; when the 200 ms timeout switches the
      torch off, the next render re-runs the hook once more and the torch comes back on. */
  method PulseRelights(effect: EffectPayload, now: int) returns (outs: seq<Output>)
    requires effect.kind == PULSE
    ensures outs == [Output(now, Torch(true)), Output(now, Torch(true)),
                     Output(now + PulseMs, Torch(false)), Output(now + PulseMs, Torch(true))]
  {
    var player := new AttendeePlayer();
    player.Render(Some(effect), 1, true, now);
    player.Render(Some(effect), 1, true, now);
    player.Render(Some(effect), 1, true, now);
    player.FireTimeout(0);
    player.Render(Some(effect), 1, true, now + PulseMs);
    outs := player.outputs;
  }

  /** A permitted STROBE restarts at its first tick: the tick changes the torch state, the
      re-run clears interval 0 and starts interval 1 with its own auto-stop, and when the
      first auto-stop fires it clears interval 0, which is already gone, so interval 1
      keeps ticking. */
  method StrobeOutlivesFirstStop(effect: EffectPayload, now: int) returns (live: Option<Strobe>, pending: seq<Timeout>)
    requires effect.kind == STROBE
    ensures live.Some? && live.value.id == 1 && live.value.ticks == 0
    ensures |pending| == 1 && pending[0].job == StopStrobe(1, true)
  {
    var player := new AttendeePlayer();
    player.Render(Some(effect), 1, true, now);
    player.Tick();
    var at := now + TickEvery(effect.frequency.GetOr(DefaultFrequency));
    player.Render(Some(effect), 1, true, at);
    player.FireTimeout(0);
    live, pending := player.strobe, player.timeouts;
  }

  /** The same payload delivered twice by the socket hook runs twice: without
      permission, the screen flashes at each delivery. */
  method RepeatedPayloadRunsTwice(effect: EffectPayload, t1: int, t2: int) returns (outs: seq<Output>)
    requires effect.kind == PULSE
    ensures var due1 := SocketClient.EffectDue(effect, t1, Finite(0.0));
            var due2 := SocketClient.EffectDue(effect, t2, Finite(0.0));
      outs == [Output(due1, Screen(Some(ColorOf(effect)))), Output(due2, Screen(Some(ColorOf(effect))))]
  {
    var hook := new SocketClient.SocketHook(1, "attendee");
    var player := new AttendeePlayer();
    hook.OnEffect(effect, t1);
    var due1 := hook.pending[0].due;
    hook.FirePending(0);
    player.Render(hook.lastEffect, hook.deliveries, false, due1);
    hook.OnEffect(effect, t2);
    var due2 := hook.pending[0].due;
    hook.FirePending(0);
    player.Render(hook.lastEffect, hook.deliveries, false, due2);
    outs := player.outputs;
  }
}
