/** Rounding of 64-bit durations (common/time.go), with Go's wrap-around
    arithmetic written out over the unbounded integers. */
module Time {

  const TWO_63: int := 0x8000_0000_0000_0000
  const TWO_64: int := 0x1_0000_0000_0000_0000
  const MIN_DURATION: int := -TWO_63
  const MAX_DURATION: int := TWO_63 - 1

  type Duration = x: int | -0x8000_0000_0000_0000 <= x < 0x8000_0000_0000_0000

  /** What an int64 operation leaves of the exact result `x`. */
  function Wrap(x: int): Duration {
    (x + TWO_63) % TWO_64 - TWO_63
  }

  /** The conversion uint64(x). */
  function Unsigned(x: Duration): nat {
    x % TWO_64
  }

  /** Go's `d % m`, whose sign follows the dividend. */
  function Remainder(d: Duration, m: Duration): Duration
    requires m > 0
  {
    if d >= 0 then d % m else -(Abs(d) % m)
  }

  predicate LessThanHalf(x: Duration, y: Duration) {
    (Unsigned(x) + Unsigned(x)) % TWO_64 < Unsigned(y)
  }

  function RoundDuration(d: Duration, m: Duration): Duration {
    if m <= 0 then
      d
    else if d < 0 then
      var r := Wrap(-Remainder(d, m));
      if LessThanHalf(r, m) then
        Wrap(d + r)
      else
        var d1 := Wrap(Wrap(d - m) + r);
        if d1 < d then d1 else MIN_DURATION
    else
      var r := Remainder(d, m);
      if LessThanHalf(r, m) then
        Wrap(d - r)
      else
        var d1 := Wrap(Wrap(d + m) - r);
        if d1 > d then d1 else MAX_DURATION
  }

  // ----- What rounding means, without reference to the code -----

  function Abs(x: int): nat {
    if x < 0 then -x else x
  }

  predicate IsMultiple(k: int, m: int)
    requires m > 0
  {
    k % m == 0
  }

  /** As a rounding of d, q is closer than k, or as close and no nearer to zero. */
  predicate AtLeastAsGood(d: int, q: int, k: int) {
    Abs(d - q) < Abs(d - k) || (Abs(d - q) == Abs(d - k) && Abs(k) <= Abs(q))
  }

  /** Among all multiples of m none is closer to d than q, and a multiple that
      is just as close lies no further from zero. */
  ghost predicate IsNearest(d: int, m: int, q: int)
    requires m > 0
  {
    && IsMultiple(q, m)
    && forall k: int :: IsMultiple(k, m) ==> AtLeastAsGood(d, q, k)
  }

  function Clamp(q: int): Duration {
    if q < MIN_DURATION then MIN_DURATION else if q > MAX_DURATION then MAX_DURATION else q
  }

  lemma MulSign(m: int, x: int)
    requires m > 0
    ensures x >= 0 ==> m * x >= 0
    ensures x <= 0 ==> m * x <= 0
    ensures m * (x + 1) == m * x + m
    ensures m * (x - 1) == m * x - m
  {
  }

  lemma MultipleOf(m: int, i: int)
    requires m > 0
    ensures IsMultiple(m * i, m)
  {
    var q, r := (m * i) / m, (m * i) % m;
    assert m * i == m * q + r;
    assert r == m * (i - q);
    MulSign(m, i - q - 1);
    MulSign(m, i - q + 1);
  }

  /** Two multiples of m that differ do so by at least m. */
  lemma MultiplesApart(m: int, a: int, b: int)
    requires m > 0 && IsMultiple(a, m) && IsMultiple(b, m) && a < b
    ensures a + m <= b
  {
    var i, j := a / m, b / m;
    assert a == m * i && b == m * j;
    assert b - a == m * (j - i);
    MulSign(m, j - i);
    MulSign(m, j - i - 1);
  }

  /** A multiple of m strictly within half of m, or at exactly half on the far
      side from zero, is the rounding. */
  lemma NearestFromBounds(d: int, m: int, q: int)
    requires m > 0 && IsMultiple(q, m)
    requires 2 * Abs(d - q) < m || (2 * Abs(d - q) == m && Abs(d) < Abs(q) && (d < 0 <==> q < 0))
    ensures IsNearest(d, m, q)
  {
    forall k: int | IsMultiple(k, m)
      ensures AtLeastAsGood(d, q, k)
    {
      if k < q {
        MultiplesApart(m, k, q);
      } else if q < k {
        MultiplesApart(m, q, k);
      }
    }
  }

  lemma NearestUnique(d: int, m: int, q1: int, q2: int)
    requires m > 0 && IsNearest(d, m, q1) && IsNearest(d, m, q2)
    ensures q1 == q2
  {
    assert AtLeastAsGood(d, q1, q2) && AtLeastAsGood(d, q2, q1);
    assert IsMultiple(0, m);
    assert AtLeastAsGood(d, q1, 0) && AtLeastAsGood(d, q2, 0);
  }

  /** The exact rounding of d, by cases on the remainder of |d|. */
  lemma NearestExists(d: int, m: int) returns (q: int)
    requires m > 0
    ensures IsNearest(d, m, q)
    ensures d >= 0 ==> q == if 2 * (d % m) < m then d - d % m else d - d % m + m
    ensures d < 0 ==> q == if 2 * (Abs(d) % m) < m then d + Abs(d) % m else d + Abs(d) % m - m
  {
    var a := Abs(d);
    var i, r := a / m, a % m;
    assert a == m * i + r;
    MulSign(m, i);
    var j := if 2 * r < m then i else i + 1;
    var p := if 2 * r < m then a - r else a - r + m;
    assert p == m * j;
    MultipleOf(m, j);
    MultipleOf(m, -j);
    assert m * (-j) == -(m * j);
    q := if d < 0 then -p else p;
    NearestFromBounds(d, m, q);
  }

  /** For every 64-bit d and positive m the code returns the nearest multiple of
      m, ties away from zero, replaced by the minimum or the maximum exactly when
      that multiple does not fit in 64 bits. */
  lemma RoundDurationIsSaturatedNearest(d: Duration, m: Duration)
    requires m > 0
    ensures exists q :: IsNearest(d, m, q)
    ensures forall q :: IsNearest(d, m, q) ==> RoundDuration(d, m) == Clamp(q)
  {
    var q := NearestExists(d, m);
    RoundDurationOfNearest(d, m, q);
    forall q' | IsNearest(d, m, q')
      ensures RoundDuration(d, m) == Clamp(q')
    {
      NearestUnique(d, m, q, q');
    }
  }

  lemma RoundDurationOfNearest(d: Duration, m: Duration, q: int)
    requires m > 0
    requires d >= 0 ==> q == if 2 * (d % m) < m then d - d % m else d - d % m + m
    requires d < 0 ==> q == if 2 * (Abs(d) % m) < m then d + Abs(d) % m else d + Abs(d) % m - m
    ensures RoundDuration(d, m) == Clamp(q)
  {
    RemainderBound(Abs(d), m);
    if d < 0 {
      RoundNegative(d, m, Abs(d) % m);
    } else {
      RoundPositive(d, m, d % m);
    }
  }

  lemma RoundNegative(d: Duration, m: Duration, r: Duration)
    requires d < 0 < m && r == Abs(d) % m && 0 <= r < m && r <= Abs(d)
    ensures RoundDuration(d, m) == Clamp(if 2 * r < m then d + r else d + r - m)
  {
    assert Remainder(d, m) == -r;
    WrapOnce(r);
    HalfIsExact(r, m);
    RoundDown(d, m, r);
  }

  lemma RoundPositive(d: Duration, m: Duration, r: Duration)
    requires 0 <= d && 0 < m && r == d % m && 0 <= r < m && r <= d
    ensures RoundDuration(d, m) == Clamp(if 2 * r < m then d - r else d - r + m)
  {
    HalfIsExact(r, m);
    RoundUp(d, m, r);
  }

  lemma RemainderBound(a: nat, m: int)
    requires m > 0
    ensures 0 <= a % m < m && a % m <= a
  {
    MulSign(m, a / m);
  }

  lemma RoundDown(d: Duration, m: Duration, r: Duration)
    requires d < 0 <= r < m && r <= -(d as int)
    ensures Wrap(d + r) == d + r
    ensures var d1 := Wrap(Wrap(d - m) + r);
            2 * r >= m ==> (if d1 < d then d1 else MIN_DURATION) == Clamp(d + r - m)
  {
    WrapOnce(d + r);
    WrapSum(d - m, r);
    WrapOnce(d - m + r);
  }

  lemma RoundUp(d: Duration, m: Duration, r: Duration)
    requires 0 <= r < m && r <= d
    ensures Wrap(d - r) == d - r
    ensures var d1 := Wrap(Wrap(d + m) - r);
            2 * r >= m ==> (if d1 > d then d1 else MAX_DURATION) == Clamp(d - r + m)
  {
    WrapOnce(d - r);
    WrapSum(d + m, -r);
    WrapOnce(d + m - r);
  }

  lemma HalfIsExact(r: Duration, m: Duration)
    requires 0 <= r < m
    ensures LessThanHalf(r, m) <==> 2 * r < m
  {
    assert Unsigned(r) == r && Unsigned(m) == m;
  }

  /** Wrapping an intermediate sum first changes nothing. */
  lemma WrapSum(x: int, y: int)
    ensures Wrap(Wrap(x) + y) == Wrap(x + y)
  {
    var k := (x + TWO_63) / TWO_64;
    assert Wrap(x) == x - TWO_64 * k;
    assert (x + y + TWO_63 - TWO_64 * k) % TWO_64 == (x + y + TWO_63) % TWO_64;
  }

  lemma WrapOnce(x: int)
    requires -TWO_64 <= x < TWO_64
    ensures Wrap(x) == if x < MIN_DURATION then x + TWO_64 else if x > MAX_DURATION then x - TWO_64 else x
  {
  }
}
