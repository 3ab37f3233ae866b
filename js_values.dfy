/**
 * The JavaScript values the cart code computes with: numbers that may be NaN,
 * optional fields, and the `Math.round(x * 100) / 100` rounding to cents.
 * Numbers are exact reals here; IEEE-754 rounding error is not modelled.
 */
module JsValues {

  datatype Option<+T> = None | Some(value: T)

  /** A JavaScript number: NaN, or a finite value. An `undefined` operand
      behaves as NaN in every operation the cart code applies to it. */
  datatype JsNumber = NaN | Finite(v: real)

  /** `Number.isInteger(n)` */
  predicate IsInteger(n: JsNumber) {
    n.Finite? && n.v == n.v.Floor as real
  }

  /** `a > b`: false as soon as either side is NaN. */
  predicate Greater(a: JsNumber, b: JsNumber) {
    a.Finite? && b.Finite? && a.v > b.v
  }

  /** `a + b` */
  function Plus(a: JsNumber, b: JsNumber): (r: JsNumber)
    ensures r.Finite? <==> a.Finite? && b.Finite?
    ensures r.Finite? ==> r.v == a.v + b.v
  {
    if a.Finite? && b.Finite? then Finite(a.v + b.v) else NaN
  }

  /** `parseFloat(n) || 0`: NaN counts as zero. */
  function OrZero(n: JsNumber): real {
    if n.Finite? then n.v else 0.0
  }

  /** `parseInt(n) || 0` on a number: truncation toward zero, NaN counts as zero. */
  function TruncOrZero(n: JsNumber): (r: int)
    ensures n.NaN? ==> r == 0
    ensures n.Finite? && n.v >= 0.0 ==> r as real <= n.v < r as real + 1.0
    ensures n.Finite? && n.v < 0.0 ==> r as real - 1.0 < n.v <= r as real
    ensures IsInteger(n) ==> r as real == n.v
  {
    if n.NaN? then 0
    else if n.v >= 0.0 then n.v.Floor
    else -((-n.v).Floor)
  }

  /** A whole number of cents. */
  predicate IsCents(x: real) {
    (x * 100.0).Floor as real == x * 100.0
  }

  /** `Math.round(x * 100) / 100`, where Math.round rounds halves up, toward
      +infinity: the result is a whole number of cents at most half a cent
      away from `x`. */
  function RoundCents(x: real): (r: real)
    ensures IsCents(r)
    ensures x - 0.005 < r <= x + 0.005
  {
    var n := (x * 100.0 + 0.5).Floor;
    assert n as real <= x * 100.0 + 0.5 < n as real + 1.0;
    assert (n as real / 100.0) * 100.0 == n as real;
    n as real / 100.0
  }

  /** A whole number of cents is left as it is, so rounding twice is rounding once. */
  lemma RoundCentsOfCents(x: real)
    requires IsCents(x)
    ensures RoundCents(x) == x
  {
    var n := (x * 100.0).Floor;
    assert (x * 100.0 + 0.5).Floor == n;
  }

  /** Rounding a non-negative amount never gives a negative one. */
  lemma RoundCentsNonNegative(x: real)
    requires x >= 0.0
    ensures RoundCents(x) >= 0.0
  {
    assert (x * 100.0 + 0.5).Floor >= 0;
  }

  lemma RoundCentsIdempotent(x: real)
    ensures RoundCents(RoundCents(x)) == RoundCents(x)
  {
    RoundCentsOfCents(RoundCents(x));
  }

  /** Decimal rendering of a natural number, as template literals print it. */
  function NatToString(n: nat): (s: string)
    ensures |s| > 0
    ensures forall i :: 0 <= i < |s| ==> '0' <= s[i] <= '9'
  {
    var digit := ['0' + (n % 10) as char];
    if n < 10 then digit else NatToString(n / 10) + digit
  }
}
