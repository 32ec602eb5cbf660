/**
 * The parts of JavaScript's value semantics that the dashboard code relies on:
 * numbers with NaN and the two infinities, truthiness, loose equality with
 * `null`, the `Number(...)` conversion, and the arithmetic and `Math.min` /
 * `Math.max` operations used by the gauges and charts. Numbers are exact reals:
 * floating-point rounding and the sign of zero are not modelled.
 */
module JsValues {
  import opened Wrappers
  import Decimal

  /** A JavaScript number: a finite value, one of the two infinities, or NaN. */
  datatype JsNumber = Fin(x: real) | PosInf | NegInf | NaN {
    predicate IsInfinite() { PosInf? || NegInf? }
  }

  /** The JSON-like values that travel through the dashboard. */
  datatype JsValue = Undefined | Null | Bool(b: bool) | Num(n: JsNumber) | Str(s: string)

  /** `!!n` for a number: everything except 0 and NaN is truthy. */
  predicate NumberTruthy(n: JsNumber) {
    match n
    case Fin(x) => x != 0.0
    case NaN => false
    case _ => true
  }

  /** `!!v`: JavaScript truthiness. */
  predicate Truthy(v: JsValue) {
    match v
    case Undefined => false
    case Null => false
    case Bool(b) => b
    case Num(n) => NumberTruthy(n)
    case Str(s) => s != ""
  }

  /** `v == null` (loose equality): true for `undefined` and `null` only. */
  predicate LooselyNull(v: JsValue) {
    v.Undefined? || v.Null?
  }

  /** `v || fallback`. */
  function Or(v: JsValue, fallback: JsValue): (r: JsValue)
    ensures Truthy(v) ==> r == v
    ensures !Truthy(v) ==> r == fallback
  {
    if Truthy(v) then v else fallback
  }

  /**
   * `Number(v)`. Strings are read as numbers only when empty (0) or made of
   * decimal digits alone; every other string reads as NaN.
   */
  function ToNumber(v: JsValue): (r: JsNumber)
    ensures v.Num? ==> r == v.n
    ensures !v.Num? ==> !r.IsInfinite()
    ensures v.Str? ==> (r.NaN? <==> !Decimal.AllDigits(v.s))
    ensures v.Null? || v.Bool? ==> r.Fin?
  {
    match v
    case Undefined => NaN
    case Null => Fin(0.0)
    case Bool(b) => Fin(if b then 1.0 else 0.0)
    case Num(n) => n
    case Str(s) =>
      match Decimal.ParseDigits(s)
      case Some(k) => Fin(k as real)
      case None => NaN
  }

  /** `Number(...)` reads the decimal digits of a non-negative integer back as that integer. */
  lemma ToNumberReadsDecimal(n: nat)
    ensures ToNumber(Str(Decimal.NatToDecimal(n))) == Fin(n as real)
  {
    Decimal.DecimalRoundTrip(n);
  }

  /** The global `isNaN(v)`, which converts its argument first. */
  predicate IsNaN(v: JsValue) {
    ToNumber(v).NaN?
  }

  /** The global `isFinite(v)`, which converts its argument first. */
  predicate IsFinite(v: JsValue) {
    ToNumber(v).Fin?
  }

  /** `a < b`; every comparison with NaN is false. */
  predicate Less(a: JsNumber, b: JsNumber) {
    match (a, b)
    case (Fin(x), Fin(y)) => x < y
    case (NegInf, Fin(_)) => true
    case (NegInf, PosInf) => true
    case (Fin(_), PosInf) => true
    case _ => false
  }

  /** `Math.min(a, b)`: NaN if either argument is NaN. */
  function Min(a: JsNumber, b: JsNumber): (r: JsNumber)
    ensures r.NaN? <==> a.NaN? || b.NaN?
    ensures !r.NaN? ==> (r == a || r == b) && !Less(a, r) && !Less(b, r)
  {
    if a.NaN? || b.NaN? then NaN else if Less(b, a) then b else a
  }

  /** `Math.max(a, b)`: NaN if either argument is NaN. */
  function Max(a: JsNumber, b: JsNumber): (r: JsNumber)
    ensures r.NaN? <==> a.NaN? || b.NaN?
    ensures !r.NaN? ==> (r == a || r == b) && !Less(r, a) && !Less(r, b)
  {
    if a.NaN? || b.NaN? then NaN else if Less(a, b) then b else a
  }

  /** The sign of a non-NaN number (0 for zero). */
  function Sign(n: JsNumber): int {
    match n
    case Fin(x) => if x > 0.0 then 1 else if x < 0.0 then -1 else 0
    case PosInf => 1
    case NegInf => -1
    case NaN => 0
  }

  function InfinityOfSign(s: int): JsNumber {
    if s > 0 then PosInf else if s < 0 then NegInf else NaN
  }

  /** `a + b`. */
  function Add(a: JsNumber, b: JsNumber): JsNumber {
    match (a, b)
    case (Fin(x), Fin(y)) => Fin(x + y)
    case (NaN, _) => NaN
    case (_, NaN) => NaN
    case (PosInf, NegInf) => NaN
    case (NegInf, PosInf) => NaN
    case (PosInf, _) => PosInf
    case (NegInf, _) => NegInf
    case (_, PosInf) => PosInf
    case (_, NegInf) => NegInf
  }

  function Neg(a: JsNumber): JsNumber {
    match a
    case Fin(x) => Fin(-x)
    case PosInf => NegInf
    case NegInf => PosInf
    case NaN => NaN
  }

  /** `a - b`. */
  function Sub(a: JsNumber, b: JsNumber): JsNumber {
    Add(a, Neg(b))
  }

  /** `a * b`; an infinity times zero is NaN. */
  function Mul(a: JsNumber, b: JsNumber): JsNumber {
    if a.NaN? || b.NaN? then NaN
    else if a.Fin? && b.Fin? then Fin(a.x * b.x)
    else InfinityOfSign(Sign(a) * Sign(b))
  }

  /** `a / b`; zero is taken as positive zero when it is the divisor of an infinity. */
  function Div(a: JsNumber, b: JsNumber): JsNumber {
    if a.NaN? || b.NaN? then NaN
    else if a.IsInfinite() && b.IsInfinite() then NaN
    else if a.IsInfinite() then InfinityOfSign(Sign(a) * (if Sign(b) < 0 then -1 else 1))
    else if b.IsInfinite() then Fin(0.0)
    else if b.x == 0.0 then InfinityOfSign(Sign(a))
    else Fin(a.x / b.x)
  }

  /**
   * `Math.max(lo, Math.min(hi, n))`: the clamp the gauges apply. NaN passes
   * through; every other number lands in [lo, hi], and a number already in
   * range is returned unchanged.
   */
  function Clamp(lo: real, hi: real, n: JsNumber): (r: JsNumber)
    requires lo <= hi
    ensures r.NaN? <==> n.NaN?
    ensures !n.NaN? ==> r.Fin? && lo <= r.x <= hi
    ensures n.Fin? && lo <= n.x <= hi ==> r == n
    ensures n.PosInf? ==> r == Fin(hi)
    ensures n.NegInf? ==> r == Fin(lo)
  {
    Max(Fin(lo), Min(Fin(hi), n))
  }

  /** Subtracting a non-NaN number from a finite one never gives NaN. */
  lemma SubFiniteNotNaN(a: JsNumber, b: JsNumber)
    requires a.Fin? && !b.NaN?
    ensures !Sub(a, b).NaN?
  {
  }

  /** Dividing a non-NaN number by a positive finite one never gives NaN. */
  lemma DivPositiveNotNaN(a: JsNumber, b: JsNumber)
    requires !a.NaN? && b.Fin? && b.x > 0.0
    ensures !Div(a, b).NaN?
    ensures a.Fin? ==> Div(a, b) == Fin(a.x / b.x)
  {
  }

  /** Multiplying a non-NaN number by a positive finite one never gives NaN. */
  lemma MulPositiveNotNaN(a: JsNumber, b: JsNumber)
    requires !a.NaN? && b.Fin? && b.x > 0.0
    ensures !Mul(a, b).NaN?
    ensures a.Fin? ==> Mul(a, b) == Fin(a.x * b.x)
  {
    if !a.Fin? {
      assert Sign(b) == 1;
    }
  }
}
