/** The progress value of the screen's bar, kept exact. The source divides
    two non-negative integers converted to `float` and clamps the quotient
    at 1.0; the IEEE 754 outcomes of a zero divisor are kept as values of
    their own so that the clamp's treatment of them can be stated. */
module Progress {

  type pos = n: nat | n > 0 witness 1

  /** The float quotient of two non-negative integers. */
  datatype Quotient =
    | Ratio(num: nat, den: pos)  // num / den, exactly
    | PosInfinity                // a positive number divided by zero
    | NotANumber                 // zero divided by zero

  const Zero: Quotient := Ratio(0, 1)
  const One: Quotient := Ratio(1, 1)

  /** `(float)num / (float)den` for non-negative integers. */
  function Divide(num: nat, den: nat): (q: Quotient)
    ensures q.Ratio? <==> den > 0
    ensures q.Ratio? ==> q.num == num && q.den == den
    ensures q.NotANumber? <==> num == 0 && den == 0
  {
    if den > 0 then Ratio(num, den)
    else if num > 0 then PosInfinity
    else NotANumber
  }

  /** The comparison `q > 1.0f`: false for NaN, true for +inf. */
  predicate AboveOne(q: Quotient)
  {
    match q
    case Ratio(n, d) => n > d
    case PosInfinity => true
    case NotANumber => false
  }

  /** A value the bar can draw as a fraction of its width. */
  predicate InUnitRange(q: Quotient)
  {
    q.Ratio? && q.num <= q.den
  }

  /** The value is 0, whatever its denominator. */
  predicate IsZero(q: Quotient)
  {
    q.Ratio? && q.num == 0
  }

  /** `if (q > 1.0f) q = 1.0f;` */
  function Clamp(q: Quotient): (r: Quotient)
    ensures !r.PosInfinity?
    ensures r.NotANumber? <==> q.NotANumber?
    ensures !q.NotANumber? ==> InUnitRange(r)
    ensures AboveOne(q) ==> r == One
    ensures InUnitRange(q) ==> r == q
  {
    if AboveOne(q) then One else q
  }

  /** a <= b as rational numbers. */
  predicate AtMost(a: Quotient, b: Quotient)
    requires a.Ratio? && b.Ratio?
  {
    a.num * b.den <= b.num * a.den
  }

  /** Over a fixed denominator, the clamped quotient grows with the
      numerator. */
  lemma ClampMonotone(a: nat, b: nat, d: pos)
    requires a <= b
    ensures AtMost(Clamp(Ratio(a, d)), Clamp(Ratio(b, d)))
  {
  }
}
