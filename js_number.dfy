/** JavaScript numbers as the model sees them: a real value or NaN (rounding and the
    infinities are not modelled), and how a number becomes a timer delay in
    `setTimeout`/`setInterval` (the Web IDL `long` conversion followed by the HTML
    rule that a negative timeout is 0). */
module JsNumber {

  datatype Num = Finite(value: real) | NaN

  function Add(a: Num, b: Num): (r: Num)
    ensures r.Finite? <==> a.Finite? && b.Finite?
    ensures r.Finite? ==> r.value == a.value + b.value
  {
    if a.Finite? && b.Finite? then Finite(a.value + b.value) else NaN
  }

  function Sub(a: Num, b: Num): (r: Num)
    ensures r.Finite? <==> a.Finite? && b.Finite?
    ensures r.Finite? ==> r.value == a.value - b.value
  {
    if a.Finite? && b.Finite? then Finite(a.value - b.value) else NaN
  }

  /** `a * k` for a constant factor `k`. */
  function Scale(a: Num, k: real): (r: Num)
    ensures r.Finite? <==> a.Finite?
    ensures r.Finite? ==> r.value == a.value * k
  {
    if a.Finite? then Finite(a.value * k) else NaN
  }

  /** `Math.max(0, x)`: NaN stays NaN, otherwise the larger of 0 and x. */
  function MaxZero(x: Num): (r: Num)
    ensures r.NaN? <==> x.NaN?
    ensures r.Finite? ==> r.value >= 0.0 && r.value >= x.value
    ensures r.Finite? ==> r.value == 0.0 || r.value == x.value
  {
    match x
    case NaN => NaN
    case Finite(v) => if v > 0.0 then x else Finite(0.0)
  }

  /** Truncation toward zero, the first step of the Web IDL integer conversions. */
  function Trunc(x: real): (t: int)
    ensures x >= 0.0 ==> t == x.Floor
    ensures x < 0.0 ==> t == -((-x).Floor)
  {
    if x >= 0.0 then x.Floor else -((-x).Floor)
  }

  const TwoTo31: int := 0x8000_0000
  const TwoTo32: int := 0x1_0000_0000

  /** Wrap an integer into the signed 32-bit range, as Web IDL `long` does. */
  function ToInt32(i: int): (w: int)
    ensures -TwoTo31 <= w < TwoTo31
    ensures (w - i) % TwoTo32 == 0
    ensures -TwoTo31 <= i < TwoTo31 ==> w == i
  {
    var m := i % TwoTo32;
    if m >= TwoTo31 then m - TwoTo32 else m
  }

  /** The delay in whole milliseconds that a timer armed with `x` waits. */
  function TimerDelay(x: Num): (d: nat)
    ensures x.NaN? ==> d == 0
    ensures x.Finite? && -(TwoTo31 as real) <= x.value < 1.0 ==> d == 0
    ensures x.Finite? && 0.0 <= x.value < TwoTo31 as real ==> d == x.value.Floor
  {
    match x
    case NaN => 0
    case Finite(v) =>
      var t := ToInt32(Trunc(v));
      if t < 0 then 0 else t
  }

  /** A whole, non-negative delay below 2^31 milliseconds is used as it is. */
  lemma TimerDelayWhole(n: nat)
    requires n < TwoTo31
    ensures TimerDelay(Finite(n as real)) == n
  {
  }
}
