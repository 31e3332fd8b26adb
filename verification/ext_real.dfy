/** Extended reals for the dashboard's `float("inf")` sentinels, and the two
    guarded divisions (`a / b if b else 0` and `a / b if b else inf`) that
    every ratio in the financial and unit-economics engines is built from. */
module ExtReal {

  /** A finite real, or positive infinity. No computation in the engines
      produces negative infinity or NaN, so neither is represented. */
  datatype Ext = Fin(value: real) | PosInf

  /** The order of the extended reals: `PosInf` is above every finite value. */
  predicate Le(a: Ext, b: Ext) {
    match b
    case PosInf => true
    case Fin(y) => a.Fin? && a.value <= y
  }

  /** `x >= c`, as Python evaluates it when `x` may be `inf`. */
  predicate AtLeast(x: Ext, c: real) { Le(Fin(c), x) }

  /** `x <= c`, as Python evaluates it when `x` may be `inf`. */
  predicate AtMost(x: Ext, c: real) { Le(x, Fin(c)) }

  /** `x < c`, as Python evaluates it when `x` may be `inf`. */
  predicate Below(x: Ext, c: real) { !AtLeast(x, c) }

  /** `x > c`, as Python evaluates it when `x` may be `inf`. */
  predicate Above(x: Ext, c: real) { !AtMost(x, c) }

  /** `Le` is a total order with `PosInf` as its top element. */
  lemma LeIsTotalOrder(a: Ext, b: Ext, c: Ext)
    ensures Le(a, a)
    ensures Le(a, b) && Le(b, a) ==> a == b
    ensures Le(a, b) && Le(b, c) ==> Le(a, c)
    ensures Le(a, b) || Le(b, a)
    ensures Le(a, PosInf)
    ensures Le(PosInf, a) ==> a == PosInf
  {
  }

  /** The comparisons agree with plain real comparison on finite values and
      treat `PosInf` as larger than every bound. */
  lemma ComparisonsAgreeWithReals(x: Ext, c: real)
    ensures x.Fin? ==> (AtLeast(x, c) <==> x.value >= c) && (AtMost(x, c) <==> x.value <= c)
    ensures x.Fin? ==> (Below(x, c) <==> x.value < c) && (Above(x, c) <==> x.value > c)
    ensures x == PosInf ==> AtLeast(x, c) && !AtMost(x, c) && !Below(x, c) && Above(x, c)
  {
  }

  /** `num / den if den else 0`: a zero denominator reports zero. */
  function DivOrZero(num: real, den: real): (q: real)
    ensures den == 0.0 ==> q == 0.0
    ensures den != 0.0 ==> q * den == num
  {
    if den != 0.0 then num / den else 0.0
  }

  /** `num / den if den else float("inf")`: a zero denominator reports
      positive infinity, and only a zero denominator does. */
  function DivOrInf(num: real, den: real): (q: Ext)
    ensures q == PosInf <==> den == 0.0
    ensures den != 0.0 ==> q.Fin? && q.value * den == num
  {
    if den != 0.0 then Fin(num / den) else PosInf
  }
}
