/** The web host's control state (client/src/pages/HostDashboard.tsx): the active
    effect, the strobe frequency, and the handlers that update them and call the
    socket hook's `emitEffect`. */
module HostDashboard {
  import opened Wrappers
  import opened Schema
  import opened SocketClient

  /** Bounds and step of the frequency slider. */
  const SliderMin: int := 1
  const SliderMax: int := 20
  const InitialStrobeHz: int := 5
  /** The duration sent with every strobe. */
  const StrobeDurationMs: real := 10000.0

  /** The options `handleEffect` passes for effect `t` with the slider at `hz`. */
  function EffectOptions(t: EffectType, hz: int): (o: PartialPayload)
    ensures t == STROBE ==> o.frequency == Some(hz as real) && o.duration == Some(StrobeDurationMs)
    ensures t == STROBE ==> o.kind == None && o.startAt == None && o.color == None
    ensures t != STROBE ==> o == NoOptions
  {
    if t == STROBE then PartialPayload(None, None, Some(StrobeDurationMs), Some(hz as real), None)
    else NoOptions
  }

  /** `activeEffect` after `handleEffect(t)`. */
  function ActiveAfter(t: EffectType): (a: Option<EffectType>)
    ensures a.None? <==> t == TORCH_OFF
    ensures a.Some? ==> a.value == t
  {
    if t == TORCH_OFF then None else Some(t)
  }

  /** The effect the flash button sends. */
  function FlashChoice(active: Option<EffectType>): (t: EffectType)
    ensures t == TORCH_OFF <==> active == Some(TORCH_ON)
    ensures t == TORCH_ON <==> active != Some(TORCH_ON)
  {
    if active == Some(TORCH_ON) then TORCH_OFF else TORCH_ON
  }

  /** The flash button alternates: it leaves the torch state on exactly when it was not
      on, so two presses come back to the TORCH_ON state they left. */
  lemma FlashAlternates(active: Option<EffectType>)
    ensures ActiveAfter(FlashChoice(active)) == Some(TORCH_ON) <==> active != Some(TORCH_ON)
    ensures ActiveAfter(FlashChoice(active)) == None <==> active == Some(TORCH_ON)
    ensures var twice := ActiveAfter(FlashChoice(ActiveAfter(FlashChoice(active))));
      (twice == Some(TORCH_ON)) == (active == Some(TORCH_ON))
  {
  }

  /** The value an `<input type="range" min="1" max="20" step="1">` reports for a
      requested whole position: clamped to the range. */
  function SliderValue(requested: int): (v: int)
    ensures SliderMin <= v <= SliderMax
    ensures SliderMin <= requested <= SliderMax ==> v == requested
  {
    if requested < SliderMin then SliderMin else if requested > SliderMax then SliderMax else requested
  }

  class Dashboard {
    var activeEffect: Option<EffectType>
    var strobeHz: int
    const hook: SocketHook

    ghost predicate Valid()
      reads this, hook
    {
      SliderMin <= strobeHz <= SliderMax && hook.role == "host"
    }

    /** The first render: nothing active, 5 Hz, and the hook in the host role. */
    constructor (eventId: int)
      ensures Valid()
      ensures activeEffect == None && strobeHz == InitialStrobeHz
      ensures fresh(hook) && hook.hasSocket == (eventId != 0) && hook.outbox == [] && hook.lastEffect == None
    {
      activeEffect := None;
      strobeHz := InitialStrobeHz;
      hook := new SocketHook(eventId, "host");
    }

    /** `handleEffect(t)` at local time `now`. */
    method HandleEffect(t: EffectType, now: int)
      requires Valid()
      modifies this`activeEffect, hook`lastEffect, hook`deliveries, hook`outbox
      ensures Valid()
      ensures activeEffect == ActiveAfter(t) && strobeHz == old(strobeHz)
      ensures hook.hasSocket ==>
        var payload := BuildPayload(t, DefaultStartAt(now, hook.timeOffset), EffectOptions(t, strobeHz));
        && hook.lastEffect == Some(payload) && hook.deliveries == old(hook.deliveries) + 1
        && hook.outbox == old(hook.outbox) + [ClientEmit("effect", EffectBody(payload))]
      ensures !hook.hasSocket ==>
        hook.lastEffect == old(hook.lastEffect) && hook.deliveries == old(hook.deliveries) && hook.outbox == old(hook.outbox)
    {
      activeEffect := Some(t);
      if t == STROBE {
        hook.EmitEffect(STROBE, EffectOptions(STROBE, strobeHz), now);
      } else {
        hook.EmitEffect(t, NoOptions, now);
      }
      if t == TORCH_OFF {
        activeEffect := None;
      }
    }

    /** The slider's `onChange` with the input moved to `requested` at local time `now`:
        the frequency changes, and a running strobe is re-sent at the new rate. */
    method SliderChange(requested: int, now: int)
      requires Valid()
      modifies this`strobeHz, hook`lastEffect, hook`deliveries, hook`outbox
      ensures Valid()
      ensures strobeHz == SliderValue(requested) && activeEffect == old(activeEffect)
      ensures activeEffect == Some(STROBE) && hook.hasSocket ==>
        var payload := BuildPayload(STROBE, DefaultStartAt(now, hook.timeOffset), EffectOptions(STROBE, strobeHz));
        && hook.lastEffect == Some(payload) && hook.deliveries == old(hook.deliveries) + 1
        && hook.outbox == old(hook.outbox) + [ClientEmit("effect", EffectBody(payload))]
      ensures activeEffect != Some(STROBE) || !hook.hasSocket ==>
        hook.lastEffect == old(hook.lastEffect) && hook.deliveries == old(hook.deliveries) && hook.outbox == old(hook.outbox)
    {
      var val := SliderValue(requested);
      strobeHz := val;
      if activeEffect == Some(STROBE) {
        hook.EmitEffect(STROBE, PartialPayload(None, None, Some(StrobeDurationMs), Some(val as real), None), now);
      }
    }
  }
}
