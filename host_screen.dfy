/** The mobile host screen's flash handler (mobile/screens/HostScreen.tsx): a sequence
    of awaited torch toggles and sleeps, bracketed by the `isLoading` flag. The model lets
    a toggle reject: `okToggles` says how many toggles succeed before one throws, after
    which the `catch` and `finally` run and nothing more is issued. The mobile torch
    hook's own `toggle` catches every error and resolves to `false`
    (mobile/hooks/useMobileTorch.ts:44-88), so with that hook no toggle rejects, the
    `catch` is not reached, and HostScreen.PerformComplete describes what happens. */
module HostScreen {
  import opened Schema

  /** One awaited step: `toggle(on)` or a sleep of `ms` milliseconds. */
  datatype Step = Toggle(on: bool) | Wait(ms: nat)

  const StrobeToggles: nat := 10
  const StrobeGapMs: nat := 100
  const PulseMs: nat := 200

  /** The first `n` rounds of the strobe `for` loop: round `k` is `toggle(k % 2 === 0)`
      and a 100 ms sleep. */
  function StrobeRounds(n: nat): (p: seq<Step>)
    ensures |p| == 2 * n
  {
    seq(2 * n, j => if j % 2 == 0 then Toggle((j / 2) % 2 == 0) else Wait(StrobeGapMs))
  }

  /** The rounds grow one round at a time. */
  lemma StrobeRoundsSnoc(n: nat)
    requires n > 0
    ensures StrobeRounds(n) == StrobeRounds(n - 1) + [Toggle((n - 1) % 2 == 0), Wait(StrobeGapMs)]
  {
    var p, q := StrobeRounds(n), StrobeRounds(n - 1) + [Toggle((n - 1) % 2 == 0), Wait(StrobeGapMs)];
    forall j | 0 <= j < 2 * n ensures p[j] == q[j] {
      if j == 2 * n - 2 {
        assert j / 2 == n - 1;
      }
    }
  }

  /** The first `i` rounds are a prefix of the first `n`. */
  lemma StrobeRoundsPrefix(i: nat, n: nat)
    requires i <= n
    ensures StrobeRounds(i) == StrobeRounds(n)[..2 * i]
  {
  }

  /** The steps of `handleFlash(effect)` when no toggle throws. */
  function FlashPlan(effect: EffectType): seq<Step> {
    match effect
    case TORCH_ON => [Toggle(true)]
    case TORCH_OFF => [Toggle(false)]
    case STROBE => StrobeRounds(StrobeToggles) + [Toggle(false)]
    case PULSE => [Toggle(true), Wait(PulseMs), Toggle(false)]
    case COLOR_WAVE => []
  }

  /** The toggle values of a plan, in order. */
  function Toggles(plan: seq<Step>): (t: seq<bool>)
    ensures |t| <= |plan|
  {
    if plan == [] then []
    else (if plan[0].Toggle? then [plan[0].on] else []) + Toggles(plan[1..])
  }

  lemma {:induction false} TogglesAppend(a: seq<Step>, b: seq<Step>)
    ensures Toggles(a + b) == Toggles(a) + Toggles(b)
  {
    if a == [] {
      assert a + b == b;
    } else {
      assert (a + b)[0] == a[0] && (a + b)[1..] == a[1..] + b;
      TogglesAppend(a[1..], b);
    }
  }

  /** The loop's toggles are `i % 2 == 0` for each round `i`. */
  lemma {:induction false} StrobeRoundToggles(n: nat)
    ensures |Toggles(StrobeRounds(n))| == n
    ensures forall i :: 0 <= i < n ==> Toggles(StrobeRounds(n))[i] == (i % 2 == 0)
  {
    if n > 0 {
      StrobeRoundToggles(n - 1);
      StrobeRoundsSnoc(n);
      TogglesAppend(StrobeRounds(n - 1), [Toggle((n - 1) % 2 == 0), Wait(StrobeGapMs)]);
      assert Toggles([Toggle((n - 1) % 2 == 0), Wait(StrobeGapMs)]) == [(n - 1) % 2 == 0];
    }
  }

  /** TORCH_ON and TORCH_OFF issue one toggle each; STROBE issues eleven (the ten loop
      toggles `i % 2 == 0`, then off); PULSE issues on then off 200 ms later. */
  lemma FlashToggles()
    ensures Toggles(FlashPlan(TORCH_ON)) == [true]
    ensures Toggles(FlashPlan(TORCH_OFF)) == [false]
    ensures var t := Toggles(FlashPlan(STROBE));
      |t| == 11 && t[10] == false && forall i :: 0 <= i < 10 ==> t[i] == (i % 2 == 0)
    ensures FlashPlan(PULSE) == [Toggle(true), Wait(PulseMs), Toggle(false)]
    ensures Toggles(FlashPlan(PULSE)) == [true, false]
  {
    StrobeRoundToggles(StrobeToggles);
    TogglesAppend(StrobeRounds(StrobeToggles), [Toggle(false)]);
    assert Toggles([Toggle(false)]) == [false];
    assert Toggles([Toggle(true)]) == [true];
    assert Toggles([Toggle(true), Wait(PulseMs), Toggle(false)]) == [true, false];
  }

  /** Every effect but TORCH_ON that toggles at all ends with the torch off. */
  lemma FlashEndsOff(effect: EffectType)
    requires effect != TORCH_ON && effect != COLOR_WAVE
    ensures var t := Toggles(FlashPlan(effect)); |t| > 0 && t[|t| - 1] == false
  {
    FlashToggles();
    var t := Toggles(FlashPlan(effect));
    match effect
    case TORCH_OFF => assert t == [false];
    case PULSE => assert t == [true, false];
    case STROBE => assert |t| == 11 && t[10] == false;
  }

  // ------------------------------------------------------------ running a plan

  /** What running `plan` issues when `ok` more toggles succeed: the toggle that throws
      is issued and ends the run. */
  datatype Outcome = Outcome(issued: seq<Step>, failed: bool, left: nat)

  function Perform(plan: seq<Step>, ok: nat): (o: Outcome)
    ensures |o.issued| <= |plan|
    ensures !o.failed ==> o.issued == plan
  {
    if plan == [] then Outcome([], false, ok)
    else if plan[0].Toggle? && ok == 0 then Outcome([plan[0]], true, 0)
    else
      var rest := Perform(plan[1..], if plan[0].Toggle? then ok - 1 else ok);
      Outcome([plan[0]] + rest.issued, rest.failed, rest.left)
  }

  /** What is issued is always a prefix of the plan, ending at the toggle that threw. */
  lemma {:induction false} PerformIssuesPrefix(plan: seq<Step>, ok: nat)
    ensures var o := Perform(plan, ok);
      o.issued == plan[..|o.issued|] &&
      (o.failed ==> |o.issued| > 0 && o.issued[|o.issued| - 1].Toggle?)
  {
    if plan != [] && !(plan[0].Toggle? && ok == 0) {
      PerformIssuesPrefix(plan[1..], if plan[0].Toggle? then ok - 1 else ok);
    }
  }

  /** Running `a + b` is running `a`, then, unless a toggle threw, running `b`. */
  lemma {:induction false} PerformAppend(a: seq<Step>, b: seq<Step>, ok: nat)
    ensures var ra := Perform(a, ok);
      Perform(a + b, ok) ==
        if ra.failed then ra
        else var rb := Perform(b, ra.left); Outcome(ra.issued + rb.issued, rb.failed, rb.left)
  {
    if a == [] {
      assert a + b == b;
    } else {
      assert (a + b)[0] == a[0] && (a + b)[1..] == a[1..] + b;
      if !(a[0].Toggle? && ok == 0) {
        var ok' := if a[0].Toggle? then ok - 1 else ok;
        PerformAppend(a[1..], b, ok');
        var ra' := Perform(a[1..], ok');
        assert Perform(a, ok) == Outcome([a[0]] + ra'.issued, ra'.failed, ra'.left);
        assert Perform(a + b, ok) == Outcome([a[0]] + Perform(a[1..] + b, ok').issued,
          Perform(a[1..] + b, ok').failed, Perform(a[1..] + b, ok').left);
        if !ra'.failed {
          var rb := Perform(b, ra'.left);
          assert [a[0]] + (ra'.issued + rb.issued) == ([a[0]] + ra'.issued) + rb.issued;
        }
      }
    }
  }

  /** The outcome of the strobe loop's first `n` rounds, round by round: a round runs
      only when no earlier toggle threw. */
  function RoundsOutcome(n: nat, ok: nat): Outcome {
    if n == 0 then Outcome([], false, ok)
    else
      var o := RoundsOutcome(n - 1, ok);
      if o.failed then o
      else
        var r := Perform([Toggle((n - 1) % 2 == 0), Wait(StrobeGapMs)], o.left);
        Outcome(o.issued + r.issued, r.failed, r.left)
  }

  /** Running the rounds one by one is running the loop's whole plan. */
  lemma {:induction false} RoundsOutcomeIsPerform(n: nat, ok: nat)
    ensures RoundsOutcome(n, ok) == Perform(StrobeRounds(n), ok)
  {
    if n > 0 {
      RoundsOutcomeIsPerform(n - 1, ok);
      StrobeRoundsSnoc(n);
      PerformAppend(StrobeRounds(n - 1), [Toggle((n - 1) % 2 == 0), Wait(StrobeGapMs)], ok);
    }
  }

  /** Once a toggle has thrown, the remaining rounds issue nothing more. */
  lemma {:induction false} StopsEarly(i: nat, n: nat, ok: nat)
    requires i <= n
    requires RoundsOutcome(i, ok).failed
    ensures RoundsOutcome(n, ok) == RoundsOutcome(i, ok)
    decreases n - i
  {
    if i < n {
      StopsEarly(i, n - 1, ok);
    }
  }

  /** With enough successful toggles, the whole plan is issued. */
  lemma {:induction false} PerformComplete(plan: seq<Step>, ok: nat)
    requires |Toggles(plan)| <= ok
    ensures Perform(plan, ok).issued == plan && !Perform(plan, ok).failed
  {
    if plan != [] {
      PerformComplete(plan[1..], if plan[0].Toggle? then ok - 1 else ok);
    }
  }

  class HostScreenState {
    var isLoading: bool
    /** Every value `setIsLoading` was called with. */
    var loadingLog: seq<bool>
    var steps: seq<Step>

    constructor ()
      ensures !isLoading && loadingLog == [] && steps == []
    {
      isLoading := false;
      loadingLog := [];
      steps := [];
    }

    /** Issues one step of the plan; `left` toggles may still succeed. */
    method Issue(s: Step, left: nat) returns (failed: bool, left': nat)
      modifies this`steps
      ensures var o := Perform([s], left);
        steps == old(steps) + o.issued && failed == o.failed && left' == o.left
    {
      assert [s][1..] == [];
      steps := steps + [s];
      if s.Toggle? && left == 0 {
        failed, left' := true, 0;
      } else {
        failed, left' := false, if s.Toggle? then left - 1 else left;
      }
    }

    /** One round of the strobe loop: `toggle(i % 2 === 0)`, then a 100 ms sleep
        unless the toggle threw. */
    method Round(i: nat, left: nat) returns (failed: bool, left': nat)
      modifies this`steps
      ensures var o := Perform([Toggle(i % 2 == 0), Wait(StrobeGapMs)], left);
        steps == old(steps) + o.issued && failed == o.failed && left' == o.left
    {
      PerformAppend([Toggle(i % 2 == 0)], [Wait(StrobeGapMs)], left);
      failed, left' := Issue(Toggle(i % 2 == 0), left);
      if !failed {
        failed, left' := Issue(Wait(StrobeGapMs), left');
      }
    }

    /** The strobe `for` loop over `n` rounds, left early when a toggle throws. */
    method StrobeLoop(n: nat, ok: nat) returns (failed: bool, left: nat)
      modifies this`steps
      ensures var o := RoundsOutcome(n, ok);
        steps == old(steps) + o.issued && failed == o.failed && left == o.left
    {
      failed, left := false, ok;
      var i := 0;
      while i < n && !failed
        invariant 0 <= i <= n
        invariant var o := RoundsOutcome(i, ok);
          steps == old(steps) + o.issued && failed == o.failed && left == o.left
      {
        failed, left := Round(i, left);
        i := i + 1;
      }
      if i < n {
        StopsEarly(i, n, ok);
      }
    }

    /** The `try` block: the plan's steps up to and including a toggle that throws. */
    method Play(effect: EffectType, ok: nat)
      modifies this`steps
      ensures steps == old(steps) + Perform(FlashPlan(effect), ok).issued
    {
      var failed, left;
      if effect == TORCH_ON {
        failed, left := Issue(Toggle(true), ok);
      } else if effect == TORCH_OFF {
        failed, left := Issue(Toggle(false), ok);
      } else if effect == STROBE {
        PlayStrobe(ok);
      } else if effect == PULSE {
        PlayPulse(ok);
      }
    }

    /** The STROBE branch: the ten rounds, then `toggle(false)` unless a toggle threw. */
    method PlayStrobe(ok: nat)
      modifies this`steps
      ensures steps == old(steps) + Perform(FlashPlan(STROBE), ok).issued
    {
      PerformAppend(StrobeRounds(StrobeToggles), [Toggle(false)], ok);
      RoundsOutcomeIsPerform(StrobeToggles, ok);
      var failed, left := StrobeLoop(StrobeToggles, ok);
      if !failed {
        failed, left := Issue(Toggle(false), left);
      }
    }

    /** The PULSE branch: on, a 200 ms sleep, off, stopping at a toggle that throws. */
    method PlayPulse(ok: nat)
      modifies this`steps
      ensures steps == old(steps) + Perform(FlashPlan(PULSE), ok).issued
    {
      PerformAppend([Toggle(true)], [Wait(PulseMs), Toggle(false)], ok);
      var failed, left := Issue(Toggle(true), ok);
      if !failed {
        PerformAppend([Wait(PulseMs)], [Toggle(false)], left);
        failed, left := Issue(Wait(PulseMs), left);
        if !failed {
          failed, left := Issue(Toggle(false), left);
        }
      }
    }

    /** `handleFlash(effect)`: the steps issued are the plan up to and including the
        toggle that throws, and `isLoading` is set on entry and cleared on exit either
        way. */
    method HandleFlash(effect: EffectType, okToggles: nat)
      modifies this
      ensures steps == old(steps) + Perform(FlashPlan(effect), okToggles).issued
      ensures loadingLog == old(loadingLog) + [true, false] && !isLoading
    {
      isLoading := true;
      loadingLog := loadingLog + [true];
      Play(effect, okToggles);
      isLoading := false;
      loadingLog := loadingLog + [false];
    }
  }
}
