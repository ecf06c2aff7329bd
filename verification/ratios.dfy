/** The small pieces of arithmetic the screener uses, over exact reals, and
    the value of the unguarded percentage expressions `(now / prev - 1) * 100`,
    whose division by zero yields an infinity or NaN in floating point
    instead of raising. */
module Ratios {

  function Max(a: real, b: real): (m: real)
    ensures m >= a && m >= b
    ensures m == a || m == b
  {
    if a >= b then a else b
  }

  function Min(a: real, b: real): (m: real)
    ensures m <= a && m <= b
    ensures m == a || m == b
  {
    if a <= b then a else b
  }

  function Abs(x: real): (y: real)
    ensures y >= 0.0
    ensures y == x || y == -x
  {
    if x < 0.0 then -x else x
  }

  /** The float value of a percentage change: finite, a signed infinity
      (a non-zero numerator over zero), or NaN (zero over zero). */
  datatype Pct = Finite(value: real) | PosInf | NegInf | NaN

  /** `(now / prev - 1) * 100` evaluated the way floating point does. */
  function PctChange(now: real, prev: real): (p: Pct)
    ensures prev != 0.0 ==> p.Finite? && p.value * prev == (now - prev) * 100.0
    ensures prev == 0.0 ==> (p == PosInf <==> now > 0.0)
    ensures prev == 0.0 ==> (p == NegInf <==> now < 0.0)
    ensures prev == 0.0 ==> (p == NaN <==> now == 0.0)
  {
    if prev != 0.0 then Finite((now / prev - 1.0) * 100.0)
    else if now > 0.0 then PosInf
    else if now < 0.0 then NegInf
    else NaN
  }

  /** The negated value: `-p` in floating point. */
  function Negate(p: Pct): Pct
  {
    match p
    case Finite(v) => Finite(-v)
    case PosInf => NegInf
    case NegInf => PosInf
    case NaN => NaN
  }

  /** `p > c` in floating point: on finite values the real comparison, +inf
      is above every bound, and -inf and NaN are above none. */
  predicate Above(p: Pct, c: real)
    ensures p.Finite? ==> (Above(p, c) <==> p.value > c)
    ensures p.PosInf? ==> Above(p, c)
    ensures p.NegInf? || p.NaN? ==> !Above(p, c)
  {
    match p
    case Finite(v) => v > c
    case PosInf => true
    case NegInf => false
    case NaN => false
  }

  /** `p < c` in floating point: the mirror image of `p > c`. */
  predicate Below(p: Pct, c: real)
    ensures Below(p, c) <==> Above(Negate(p), -c)
  {
    match p
    case Finite(v) => v < c
    case PosInf => false
    case NegInf => true
    case NaN => false
  }

  /** `p <= c` in floating point: the complement of `p > c`, except that
      NaN is on neither side. */
  predicate AtMost(p: Pct, c: real)
    ensures AtMost(p, c) <==> !p.NaN? && !Above(p, c)
  {
    match p
    case Finite(v) => v <= c
    case PosInf => false
    case NegInf => true
    case NaN => false
  }

  /** `p >= c` in floating point: the complement of `p < c`, except that
      NaN is on neither side. */
  predicate AtLeast(p: Pct, c: real)
    ensures AtLeast(p, c) <==> !p.NaN? && !Below(p, c)
  {
    match p
    case Finite(v) => v >= c
    case PosInf => true
    case NegInf => false
    case NaN => false
  }

  /** NaN is neither above nor below anything, and no value is both. */
  lemma ComparisonsExclusive(p: Pct, c: real)
    ensures !(Above(p, c) && AtMost(p, c))
    ensures !(Below(p, c) && AtLeast(p, c))
    ensures p != NaN ==> (Above(p, c) || AtMost(p, c)) && (Below(p, c) || AtLeast(p, c))
  {
  }

  /** With a positive base the percentage tests are division-free
      comparisons of the two amounts: a change above `c` percent means
      `now` exceeds `prev` scaled by `1 + c/100`. */
  lemma PctVersusScaled(now: real, prev: real, c: real)
    requires prev > 0.0
    ensures Above(PctChange(now, prev), c) <==> 100.0 * now > (100.0 + c) * prev
    ensures Below(PctChange(now, prev), c) <==> 100.0 * now < (100.0 + c) * prev
    ensures AtMost(PctChange(now, prev), c) <==> 100.0 * now <= (100.0 + c) * prev
    ensures AtLeast(PctChange(now, prev), c) <==> 100.0 * now >= (100.0 + c) * prev
  {
    var v := PctChange(now, prev).value;
    assert v * prev == 100.0 * now - 100.0 * prev;
    ScaleByPositive(v, c, prev);
  }

  /** Against a positive base, a smaller amount is a non-positive change and
      a larger one a non-negative change. */
  lemma PctSign(now: real, prev: real)
    requires prev > 0.0
    ensures now <= prev ==> AtMost(PctChange(now, prev), 0.0)
    ensures now >= prev ==> AtLeast(PctChange(now, prev), 0.0)
  {
    PctVersusScaled(now, prev, 0.0);
  }

  /** Multiplying both sides by a positive amount keeps the order. */
  lemma ScaleByPositive(x: real, y: real, k: real)
    requires k > 0.0
    ensures x > y <==> x * k > y * k
    ensures x < y <==> x * k < y * k
    ensures x == y <==> x * k == y * k
  {
    if x > y {
      assert (x - y) * k > 0.0;
    } else if x < y {
      assert (y - x) * k > 0.0;
    }
  }

}
