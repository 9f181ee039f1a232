/** The web client's socket hook (client/src/hooks/use-socket.ts): clock-offset
    estimation from `time:sync` probes, delayed application of received effects, and
    the host's `emitEffect`. Times are integer milliseconds from `Date.now()`; the
    derived quantities are JavaScript numbers. */
module SocketClient {
  import opened Wrappers
  import opened JsNumber
  import opened Schema

  const SyncIntervalMs: nat := 2000
  /** Lead time the host adds to its own corrected clock. */
  const StartMarginMs: real := 150.0
  /** Weight of the previous estimate in the smoothing step. */
  const Keep: real := 0.8
  /** Weight of the new sample in the smoothing step. */
  const Gain: real := 0.2

  // ------------------------------------------------------------ time sync formulas

  /** `rtt / 2` for a probe sent at `start` and answered at `end`. */
  function Latency(start: int, end: int): (l: real)
    ensures 2.0 * l == (end - start) as real
    ensures end >= start ==> l >= 0.0
  {
    (end - start) as real / 2.0
  }

  /** A reply as JavaScript sees it: named numeric fields. */
  type Reply = map<string, real>

  /** Reading `reply[name]` and using it in arithmetic: a missing field is `undefined`,
      which arithmetic turns into NaN. */
  function Field(reply: Reply, name: string): (n: Num)
    ensures n.Finite? <==> name in reply
    ensures n.Finite? ==> n.value == reply[name]
  {
    if name in reply then Finite(reply[name]) else NaN
  }

  /** `serverTimeAtReceive - (start + currentLatency)`. */
  function RawOffset(serverTime: Num, start: int, latency: real): (o: Num)
    ensures o.Finite? <==> serverTime.Finite?
    ensures o.Finite? ==> start as real + latency + o.value == serverTime.value
  {
    Sub(serverTime, Finite(start as real + latency))
  }

  predicate Between(x: real, a: real, b: real) {
    (a <= x <= b) || (b <= x <= a)
  }

  /** `prev * 0.8 + computedOffset * 0.2`. */
  function Smooth(prev: Num, raw: Num): (s: Num)
    ensures s.Finite? <==> prev.Finite? && raw.Finite?
    ensures s.Finite? ==> Between(s.value, prev.value, raw.value)
    ensures s.Finite? ==> s.value - raw.value == Keep * (prev.value - raw.value)
  {
    Add(Scale(prev, Keep), Scale(raw, Gain))
  }

  /** The smoothed offset after a run of finite samples, starting from `init`. */
  function SmoothAll(init: Num, samples: seq<real>): Num {
    if samples == [] then init
    else Smooth(SmoothAll(init, samples[..|samples| - 1]), Finite(samples[|samples| - 1]))
  }

  /** `a * 0.8^n`: what is left of a distance `a` after `n` smoothing steps. */
  function Decay(a: real, n: nat): real {
    if n == 0 then a else Keep * Decay(a, n - 1)
  }

  function Abs(x: real): real { if x < 0.0 then -x else x }

  /** The first sample does not seed the estimate: from 0, one sample `r` gives `0.2 * r`. */
  lemma FirstSampleNotSeeded(r: real)
    ensures SmoothAll(Finite(0.0), [r]) == Finite(Gain * r)
  {
    assert [r][..0] == [];
  }

  /** With a steady true offset `r`, the estimate after `n` rounds from 0 is
      `r - r * 0.8^n`. */
  lemma {:induction false} SteadySamples(r: real, n: nat)
    ensures SmoothAll(Finite(0.0), seq(n, _ => r)) == Finite(r - Decay(r, n))
  {
    if n > 0 {
      var s := seq(n, _ => r);
      assert s[..n - 1] == seq(n - 1, _ => r);
      SteadySamples(r, n - 1);
    }
  }

  /** One smoothing step with a sample within `jitter` of `r` shrinks the distance to
      `r` by the factor 0.8, up to the sample's share of the jitter. */
  lemma StepBound(prev: real, x: real, r: real, bound: real, jitter: real)
    requires Abs(prev - r) <= bound && Abs(x - r) <= jitter
    ensures Abs(Keep * prev + Gain * x - r) <= Keep * bound + Gain * jitter
  {
    assert Keep * prev + Gain * x - r == Keep * (prev - r) + Gain * (x - r);
  }

  /** With samples within `jitter` of a true offset `r`, the estimate after `n` rounds
      from 0 is within `|r| * 0.8^n + jitter` of `r`. */
  lemma {:induction false} JitterBound(r: real, jitter: real, samples: seq<real>)
    requires jitter >= 0.0
    requires forall i :: 0 <= i < |samples| ==> Abs(samples[i] - r) <= jitter
    ensures SmoothAll(Finite(0.0), samples).Finite?
    ensures Abs(SmoothAll(Finite(0.0), samples).value - r) <= Decay(Abs(r), |samples|) + jitter
  {
    if samples != [] {
      var n := |samples|;
      var front := samples[..n - 1];
      assert forall i :: 0 <= i < |front| ==> front[i] == samples[i];
      JitterBound(r, jitter, front);
      var prev := SmoothAll(Finite(0.0), front).value;
      var x := samples[n - 1];
      assert Abs(x - r) <= jitter;
      assert SmoothAll(Finite(0.0), samples) == Finite(Keep * prev + Gain * x);
      StepBound(prev, x, r, Decay(Abs(r), n - 1) + jitter, jitter);
    }
  }

  // ------------------------------------------------------------ effect scheduling

  /** `Math.max(0, payload.startAt - (Date.now() + timeOffset))`. */
  function FireDelay(startAt: Num, now: int, offset: Num): (d: Num)
    ensures d.NaN? <==> startAt.NaN? || offset.NaN?
    ensures d.Finite? ==> d.value >= 0.0
    ensures d.Finite? && startAt.value <= now as real + offset.value ==> d.value == 0.0
    ensures d.Finite? && startAt.value > now as real + offset.value ==>
      d.value == startAt.value - (now as real + offset.value)
  {
    MaxZero(Sub(startAt, Add(Finite(now as real), offset)))
  }

  /** When the `setTimeout` armed for a received effect fires. The effect's type plays
      no part: stop commands wait like every other effect. */
  function EffectDue(effect: EffectPayload, now: int, offset: Num): (due: int)
    ensures due >= now
  {
    now + TimerDelay(FireDelay(effect.startAt, now, offset))
  }

  /** Stop commands are not exempt: the due time is the same whatever the type. */
  lemma EffectDueIgnoresKind(effect: EffectPayload, now: int, offset: Num, k: EffectType)
    ensures EffectDue(effect.(kind := k), now, offset) == EffectDue(effect, now, offset)
  {
  }

  /** An effect whose start has passed, or whose delay is NaN, fires at once; one in
      the future fires after the whole milliseconds remaining. */
  lemma EffectDueCases(effect: EffectPayload, now: int, offset: Num)
    ensures FireDelay(effect.startAt, now, offset).NaN? ==> EffectDue(effect, now, offset) == now
    ensures effect.startAt.Finite? && offset.Finite? && effect.startAt.value <= now as real + offset.value ==>
      EffectDue(effect, now, offset) == now
    ensures effect.startAt.Finite? && offset.Finite? &&
            now as real + offset.value <= effect.startAt.value < now as real + offset.value + TwoTo31 as real ==>
      EffectDue(effect, now, offset) == now + (effect.startAt.value - (now as real + offset.value)).Floor
  {
  }

  // ------------------------------------------------------------ emitEffect payload

  /** `Partial<EffectPayload>`: a field is `None` when the options object lacks it. */
  datatype PartialPayload = PartialPayload(
    kind: Option<EffectType>,
    startAt: Option<Num>,
    duration: Option<real>,
    frequency: Option<real>,
    color: Option<string>)

  const NoOptions: PartialPayload := PartialPayload(None, None, None, None, None)

  /** The host's default start: `Date.now() + timeOffset + 150`. */
  function DefaultStartAt(now: int, offset: Num): (s: Num)
    ensures s.Finite? <==> offset.Finite?
    ensures s.Finite? ==> s.value == now as real + offset.value + StartMarginMs
  {
    Add(Add(Finite(now as real), offset), Finite(StartMarginMs))
  }

  /** `{type, startAt, ...options}`: every field the options carry wins over the default. */
  function BuildPayload(kind: EffectType, startAt: Num, options: PartialPayload): (p: EffectPayload)
    ensures p.kind == (if options.kind.Some? then options.kind.value else kind)
    ensures p.startAt == (if options.startAt.Some? then options.startAt.value else startAt)
    ensures p.duration == options.duration && p.frequency == options.frequency && p.color == options.color
  {
    EffectPayload(options.kind.GetOr(kind), options.startAt.GetOr(startAt),
                  options.duration, options.frequency, options.color)
  }

  // ------------------------------------------------------------ the hook's state

  datatype ClientBody = SyncProbe(clientSendTime: int) | EffectBody(effect: EffectPayload)

  /** One `socket.emit(event, body)` made by the hook. */
  datatype ClientEmit = ClientEmit(event: string, body: ClientBody)

  /** A `setTimeout(() => setLastEffect(effect), delay)` that has not fired yet. */
  datatype PendingEffect = PendingEffect(due: int, effect: EffectPayload)

  /** The names of the values `useSocket` returns. */
  const HookResultFields: set<string> := {"isConnected", "latency", "timeOffset", "lastEffect", "emitEffect"}

  class SocketHook {
    const role: string
    /** `socketRef.current !== null`. */
    var hasSocket: bool
    var isConnected: bool
    var latency: real
    var timeOffset: Num
    var lastEffect: Option<EffectPayload>
    /** How many times `setLastEffect` has run. Every call stores a new payload object, so
        this count names the object `lastEffect` holds, and a React dependency on
        `lastEffect` changes exactly when the count does. */
    var deliveries: nat
    var pending: seq<PendingEffect>
    var outbox: seq<ClientEmit>

    /** The first render and the connecting effect: no socket is opened for a falsy
        (zero) event id. */
    constructor (eventId: int, role: string)
      ensures this.role == role && hasSocket == (eventId != 0)
      ensures !isConnected && latency == 0.0 && timeOffset == Finite(0.0)
      ensures lastEffect == None && deliveries == 0 && pending == [] && outbox == []
    {
      this.role := role;
      hasSocket := eventId != 0;
      isConnected := false;
      latency := 0.0;
      timeOffset := Finite(0.0);
      lastEffect := None;
      deliveries := 0;
      pending := [];
      outbox := [];
    }

    /** The `connect` and `disconnect` listeners. */
    method OnConnectionChange(up: bool)
      modifies this`isConnected
      ensures isConnected == up
    {
      isConnected := up;
    }

    /** One tick of the 2-second sync interval, sent at local time `start`. */
    method SendProbe(start: int)
      modifies this`outbox
      ensures outbox == old(outbox) + if hasSocket then [ClientEmit("time:sync", SyncProbe(start))] else []
    {
      if hasSocket {
        outbox := outbox + [ClientEmit("time:sync", SyncProbe(start))];
      }
    }

    /** The ack of the probe sent at `start`, received at `end`. The offset is
        smoothed from `reply.serverReceiveTime`. */
    method OnSyncReply(start: int, end: int, reply: Reply)
      modifies this`latency, this`timeOffset
      ensures latency == Latency(start, end)
      ensures timeOffset == Smooth(old(timeOffset), RawOffset(Field(reply, "serverReceiveTime"), start, latency))
    {
      var currentLatency := Latency(start, end);
      var computedOffset := RawOffset(Field(reply, "serverReceiveTime"), start, currentLatency);
      latency := currentLatency;
      timeOffset := Smooth(timeOffset, computedOffset);
    }

    /** The `effect` listener at local time `now`: arms the delayed `setLastEffect`. */
    method OnEffect(effect: EffectPayload, now: int)
      modifies this`pending
      ensures pending == old(pending) + [PendingEffect(EffectDue(effect, now, timeOffset), effect)]
    {
      var delay := FireDelay(effect.startAt, now, timeOffset);
      pending := pending + [PendingEffect(now + TimerDelay(delay), effect)];
    }

    /** The `i`-th armed timeout fires. */
    method FirePending(i: nat)
      requires i < |pending|
      modifies this`pending, this`lastEffect, this`deliveries
      ensures lastEffect == Some(old(pending)[i].effect) && deliveries == old(deliveries) + 1
      ensures pending == old(pending)[..i] + old(pending)[i + 1..]
    {
      lastEffect := Some(pending[i].effect);
      deliveries := deliveries + 1;
      pending := pending[..i] + pending[i + 1..];
    }

    /** `emitEffect(type, options)` at local time `now`: a no-op without a socket or
        outside the host role; otherwise the payload is applied locally first and then
        emitted on `'effect'`. */
    method EmitEffect(kind: EffectType, options: PartialPayload, now: int)
      modifies this`lastEffect, this`deliveries, this`outbox
      ensures !hasSocket || role != "host" ==>
        lastEffect == old(lastEffect) && deliveries == old(deliveries) && outbox == old(outbox)
      ensures hasSocket && role == "host" ==>
        var payload := BuildPayload(kind, DefaultStartAt(now, timeOffset), options);
        && lastEffect == Some(payload) && deliveries == old(deliveries) + 1
        && outbox == old(outbox) + [ClientEmit("effect", EffectBody(payload))]
    {
      if !hasSocket || role != "host" {
        return;
      }
      var startAt := DefaultStartAt(now, timeOffset);
      var payload := BuildPayload(kind, startAt, options);
      lastEffect := Some(payload);
      deliveries := deliveries + 1;
      outbox := outbox + [ClientEmit("effect", EffectBody(payload))];
    }
  }
}
