/**
 * Exact counterparts of JavaScript's `Math.floor`, `Math.ceil`, `Math.min` and
 * `Math.max`, and the facts about whole multiples, products and integer
 * division that the bay-count, bill-of-quantities and layout proofs rely on.
 */
module Arith {

  /** `Math.ceil`: the least integer not below `x`. */
  function Ceil(x: real): (c: int)
    ensures x <= c as real < x + 1.0
  {
    -((-x).Floor)
  }

  /** `Math.max` over integers. */
  function Max(a: int, b: int): (m: int)
    ensures m >= a && m >= b
    ensures m == a || m == b
  {
    if a >= b then a else b
  }

  /** `Math.min` over reals. */
  function Min(a: real, b: real): (m: real)
    ensures m <= a && m <= b
    ensures m == a || m == b
  {
    if a <= b then a else b
  }

  /** The ceiling of a whole number is that number. */
  lemma CeilOfInt(n: int)
    ensures Ceil(n as real) == n
  {
  }

  /** `Math.floor(x / d)` whole pieces of length `d` fit into `x`, and one more does not. */
  lemma FloorDivBounds(x: real, d: real)
    requires d > 0.0
    ensures (x / d).Floor as real * d <= x
    ensures x < ((x / d).Floor as real + 1.0) * d
  {
    var q := x / d;
    var f := q.Floor as real;
    assert q * d == x;
    assert f <= q < f + 1.0;
    MulLeq(f, q, d);
    assert f * d <= x;
    var g := f + 1.0;
    MulLt(q, g, d);
    assert x < g * d;
  }

  /** No count larger than `Math.floor(x / d)` of pieces of length `d` fits into `x`. */
  lemma FloorDivIsGreatest(x: real, d: real, k: int)
    requires d > 0.0
    requires k as real * d <= x
    ensures k <= (x / d).Floor
  {
    FloorDivBounds(x, d);
    var f := (x / d).Floor;
    if k > f {
      MulLeq((f + 1) as real, k as real, d);
      assert false;
    }
  }

  /** A non-negative length holds a non-negative number of pieces. */
  lemma FloorDivNonNegative(x: real, d: real)
    requires x >= 0.0 && d > 0.0
    ensures (x / d).Floor >= 0
  {
    FloorDivIsGreatest(x, d, 0);
  }

  /** Shorter pieces never fit fewer times into a non-negative length. */
  lemma FloorDivAntitone(x: real, d1: real, d2: real)
    requires x >= 0.0
    requires 0.0 < d1 <= d2
    ensures (x / d1).Floor >= (x / d2).Floor
  {
    var k := (x / d2).Floor;
    FloorDivBounds(x, d2);
    FloorDivNonNegative(x, d2);
    MulLeq(d1, d2, k as real);
    FloorDivIsGreatest(x, d1, k);
  }

  lemma MulLeq(a: real, b: real, c: real)
    requires a <= b && c >= 0.0
    ensures a * c <= b * c
  {
  }

  lemma MulLt(a: real, b: real, c: real)
    requires a < b && c > 0.0
    ensures a * c < b * c
  {
  }

  lemma QuotientPositive(a: real, b: real)
    requires a > 0.0 && b > 0.0
    ensures a / b > 0.0 && b * (a / b) == a
  {
  }

  /** An extent drawn at a scale no larger than `bound / extent` stays within `bound`. */
  lemma ScaledWithin(extent: real, scale: real, bound: real)
    requires extent > 0.0 && scale > 0.0 && scale <= bound / extent
    ensures 0.0 < extent * scale <= bound
  {
    MulPositive(extent, scale);
    MulLeq(scale, bound / extent, extent);
    assert (bound / extent) * extent == bound;
  }

  lemma MulPositive(a: real, b: real)
    requires a > 0.0 && b > 0.0
    ensures a * b > 0.0
  {
  }

  lemma MulNonNegativeReal(a: real, b: real)
    requires a >= 0.0 && b >= 0.0
    ensures a * b >= 0.0
  {
  }

  lemma MulAssoc(a: real, b: real, c: real)
    ensures (a * b) * c == a * (b * c)
  {
  }

  lemma MulNonNegative(a: int, b: int)
    requires a >= 0 && b >= 0
    ensures a * b >= 0
  {
  }

  /** A product of non-negative factors grows with each factor. */
  lemma MulMonotone(a: int, a': int, b: int, b': int)
    requires 0 <= a <= a' && 0 <= b <= b'
    ensures a * b <= a' * b'
  {
    assert a * b <= a' * b;
    assert a' * b <= a' * b';
  }

  /** When `count + 1` pieces do not fit into `total`, no larger count does. */
  lemma NoRoomForMore(count: int, larger: int, piece: real, total: real)
    requires piece > 0.0 && count < larger
    requires total < (count + 1) as real * piece
    ensures total < larger as real * piece
  {
    MulLeq((count + 1) as real, larger as real, piece);
  }
}
