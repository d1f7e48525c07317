/**
 Rounding to the nearest binary64 value (section 4.3.1 of IEEE 754-2019), away from the ends of the
 exponent range: a double is an integer of at most 53 bits times a power of two.
 */
module Binary64 {

  const PRECISION: int := 9007199254740992 // 2^53
  const UNIT: real := 1.0 / 9007199254740992.0

  function Abs(x: real): real {
    if x < 0.0 then -x else x
  }

  function Pow2(e: int): real
    decreases if e < 0 then -e else e
  {
    if e == 0 then 1.0 else if e > 0 then 2.0 * Pow2(e - 1) else Pow2(e + 1) / 2.0
  }

  predicate Scaled(v: real, n: int, e: int) {
    -PRECISION < n < PRECISION && v == n as real * Pow2(e)
  }

  ghost predicate IsDouble(v: real) {
    exists n, e :: Scaled(v, n, e)
  }

  ghost predicate Nearest(x: real, v: real) {
    IsDouble(v) && forall w :: IsDouble(w) ==> Abs(x - v) <= Abs(x - w)
  }

  ghost predicate Odd(rnd: real -> real) {
    forall x, y {:trigger rnd(x), rnd(y)} :: x + y == 0.0 ==> rnd(x) + rnd(y) == 0.0
  }

  /** A rounding function: always a nearest double, ties in any direction that is symmetric about zero. */
  ghost predicate RoundsToNearest(rnd: real -> real) {
    (forall x {:trigger rnd(x)} :: Nearest(x, rnd(x))) && Odd(rnd)
  }

  lemma {:induction false} Pow2Positive(e: int)
    ensures Pow2(e) > 0.0
    decreases if e < 0 then -e else e
  {
    if e > 0 {
      Pow2Positive(e - 1);
    } else if e < 0 {
      Pow2Positive(e + 1);
    }
  }

  lemma Pow2Step(e: int)
    ensures Pow2(e + 1) == 2.0 * Pow2(e)
  {
    if e < 0 {
      assert Pow2(e) == Pow2(e + 1) / 2.0;
    }
  }

  lemma {:induction false} Pow2Add(e: int, k: nat)
    ensures Pow2(e + k) == Pow2(e) * Pow2(k)
  {
    if k > 0 {
      Pow2Add(e, k - 1);
      Pow2Step(e + k - 1);
    }
  }

  /** Every positive real lies in one binade. */
  lemma {:induction false} Binade(x: real) returns (e: int)
    requires x > 0.0
    ensures Pow2(e) <= x < Pow2(e + 1)
    decreases x < 1.0, if x < 1.0 then (1.0 / x).Floor else x.Floor
  {
    if x < 1.0 {
      assert (1.0 / (2.0 * x)) == (1.0 / x) / 2.0 && 1.0 / x > 1.0;
      e := Binade(2.0 * x);
      Pow2Step(e - 1);
      Pow2Step(e);
      e := e - 1;
    } else if x < 2.0 {
      e := 0;
      assert Pow2(1) == 2.0 * Pow2(0);
    } else {
      e := Binade(x / 2.0);
      Pow2Step(e);
      Pow2Step(e + 1);
      e := e + 1;
    }
  }

  lemma Pow2Of52()
    ensures Pow2(52) == 4503599627370496.0
  {
    assert Pow2(4) == 16.0;
    Pow2Add(4, 4);
    Pow2Add(8, 8);
    Pow2Add(16, 16);
    Pow2Add(32, 16);
    Pow2Add(48, 4);
  }

  // ---------------------------------------------------------------- the grid of one binade

  ghost predicate InBinade(x: real, e: int) {
    Pow2(e) <= x < Pow2(e + 1)
  }

  lemma Spacing(e: int)
    ensures Pow2(e - 52) > 0.0 && Pow2(e) == 4503599627370496.0 * Pow2(e - 52)
    ensures Pow2(e + 1) == 9007199254740992.0 * Pow2(e - 52)
  {
    Pow2Positive(e - 52);
    Pow2Of52();
    Pow2Add(e - 52, 52);
    Pow2Step(e);
  }

  lemma ProductDifference(a: real, b: real, c: real)
    ensures (a - b) * c == a * c - b * c
  {
  }

  lemma ProductSign(a: real, c: real)
    requires c > 0.0
    ensures a >= 0.0 <==> a * c >= 0.0
  {
  }

  lemma ProductGrows(a: real, b: real, c: real)
    requires c > 0.0
    ensures a <= b <==> a * c <= b * c
  {
    ProductDifference(b, a, c);
    ProductSign(b - a, c);
  }

  /** A number between two factors gives a product between the two products. */
  lemma HalfProduct(d: real, ulp: real, product: real)
    requires ulp > 0.0 && -0.5 <= d <= 0.5 && product == d * ulp
    ensures -(ulp / 2.0) <= product <= ulp / 2.0
  {
    ProductGrows(-0.5, d, ulp);
    ProductGrows(d, 0.5, ulp);
  }

  lemma FloorBounds(q: real, m: int)
    requires m == (q + 0.5).Floor && 4503599627370496.0 <= q < 9007199254740992.0
    ensures 4503599627370496 <= m <= PRECISION && q - 0.5 <= m as real <= q + 0.5
  {
    assert m as real <= q + 0.5 < m as real + 1.0;
    assert m as real < 9007199254740992.5;
  }

  /** `x` is between 2^52 and 2^53 spacings. */
  lemma SpacingsOf(x: real, q: real, ulp: real)
    requires ulp > 0.0 && x == q * ulp && 4503599627370496.0 * ulp <= x < 9007199254740992.0 * ulp
    ensures 4503599627370496.0 <= q < 9007199254740992.0
  {
    ProductGrows(4503599627370496.0, q, ulp);
    ProductGrows(9007199254740992.0, q, ulp);
  }

  /** Rounding `x`, which is `q` spacings, to `m` spacings moves it by at most half a spacing. */
  lemma GridArithmetic(x: real, q: real, ulp: real, m: real, r: real)
    requires ulp > 0.0 && x == q * ulp && r == m * ulp && q - 0.5 <= m <= q + 0.5
    ensures x - ulp / 2.0 <= r <= x + ulp / 2.0
  {
    ProductDifference(m, q, ulp);
    HalfProduct(m - q, ulp, r - x);
  }

  lemma HalfSpacing(x: real, ulp: real, r: real)
    requires ulp > 0.0 && 4503599627370496.0 * ulp <= x && x - ulp / 2.0 <= r <= x + ulp / 2.0
    ensures Abs(x - r) <= ulp / 2.0 && Abs(x - r) <= UNIT * x && x > 0.0
  {
  }

  lemma GridIsDouble(m: int, e: int, r: real)
    requires 0 <= m <= PRECISION && Times(r, m, Pow2(e))
    ensures IsDouble(r)
  {
    if m < PRECISION {
      assert Scaled(r, m, e);
    } else {
      Pow2Step(e);
      assert Scaled(r, 4503599627370496, e + 1);
    }
  }

  predicate Times(w: real, k: int, unit: real) {
    w == k as real * unit
  }

  /** `r` is `x` rounded to the grid of its binade. */
  ghost predicate OnGrid(x: real, e: int, r: real, m: int) {
    && Times(r, m, Pow2(e - 52)) && IsDouble(r)
    && Abs(x - r) <= Pow2(e - 52) / 2.0 && Abs(x - r) <= UNIT * x
  }

  lemma Quotient(x: real, u: real) returns (q: real)
    requires u > 0.0
    ensures x == q * u
  {
    q := x / u;
  }

  lemma GridPoint(x: real, ulp: real) returns (r: real, m: int)
    requires ulp > 0.0 && 4503599627370496.0 * ulp <= x < 9007199254740992.0 * ulp
    ensures 0 <= m <= PRECISION && Times(r, m, ulp)
    ensures Abs(x - r) <= ulp / 2.0 && Abs(x - r) <= UNIT * x
  {
    var q := Quotient(x, ulp);
    SpacingsOf(x, q, ulp);
    m := (q + 0.5).Floor;
    FloorBounds(q, m);
    r := m as real * ulp;
    GridArithmetic(x, q, ulp, m as real, r);
    HalfSpacing(x, ulp, r);
  }

  lemma RoundToGrid(x: real, e: int) returns (r: real, m: int)
    requires InBinade(x, e)
    ensures OnGrid(x, e, r, m)
  {
    Spacing(e);
    r, m := GridPoint(x, Pow2(e - 52));
    GridIsDouble(m, e - 52, r);
  }

  lemma RelativeErrorPositive(x: real, v: real)
    requires Nearest(x, v) && x > 0.0
    ensures Abs(x - v) <= UNIT * x
  {
    var e := Binade(x);
    var r, m := RoundToGrid(x, e);
    assert Abs(x - v) <= Abs(x - r);
  }

  /** The standard model: rounding to nearest has relative error at most 2^-53. */
  lemma RelativeError(x: real, v: real)
    requires Nearest(x, v)
    ensures Abs(x - v) <= UNIT * Abs(x)
  {
    if x > 0.0 {
      RelativeErrorPositive(x, v);
    } else if x < 0.0 {
      NegatedNearest(x, v);
      RelativeErrorPositive(-x, -v);
    } else {
      assert Scaled(0.0, 0, 0);
      RoundingKeepsDoubles(0.0, v);
    }
  }

  lemma NegatedDouble(v: real)
    requires IsDouble(v)
    ensures IsDouble(-v)
  {
    var n, e :| Scaled(v, n, e);
    assert Scaled(-v, -n, e);
  }

  lemma IntegersAreDoubles(n: int)
    requires -PRECISION < n < PRECISION
    ensures IsDouble(n as real)
  {
    assert Scaled(n as real, n, 0);
  }

  lemma RoundingKeepsDoubles(x: real, v: real)
    requires IsDouble(x) && Nearest(x, v)
    ensures v == x
  {
    assert Abs(x - v) <= Abs(x - x);
  }

  lemma RoundingIsMonotone(x: real, v: real, y: real, w: real)
    requires x < y && Nearest(x, v) && Nearest(y, w)
    ensures v <= w
  {
    assert Abs(x - v) <= Abs(x - w) && Abs(y - w) <= Abs(y - v);
  }

  // ---------------------------------------------------------------- a nearest double exists

  ghost predicate Multiple(w: real, unit: real) {
    exists k: int :: Times(w, k, unit)
  }

  lemma {:induction false} NaturalPower(k: nat) returns (n: int)
    ensures Pow2(k) == n as real && n >= 1
  {
    if k == 0 {
      n := 1;
    } else {
      n := NaturalPower(k - 1);
      n := 2 * n;
    }
  }

  lemma {:induction false} Pow2Monotone(e: int, f: int)
    requires e <= f
    ensures Pow2(e) <= Pow2(f)
    decreases f - e
  {
    if e < f {
      Pow2Monotone(e + 1, f);
      Pow2Step(e);
      Pow2Positive(e);
    }
  }

  lemma FarBelow(w: real, n: real, a: real, u: real, top: real)
    requires a > 0.0 && 2.0 * a <= u && top == 4503599627370496.0 * u
    requires w == n * a && n <= 9007199254740991.0
    ensures w < top
  {
    ProductGrows(n, 9007199254740991.0, a);
  }

  lemma TooSmall(w: real, n: int, f: int, e: int)
    requires Scaled(w, n, f) && f < e - 52
    ensures w < Pow2(e)
  {
    Pow2Positive(f);
    Pow2Monotone(f, e - 53);
    Pow2Step(e - 53);
    Spacing(e);
    FarBelow(w, n as real, Pow2(f), Pow2(e - 52), Pow2(e));
  }

  lemma Regroup(w: real, n: int, k: int, a: real, c: real)
    requires w == n as real * c && c == a * k as real
    ensures Times(w, n * k, a)
  {
    assert (n * k) as real == n as real * k as real;
  }

  lemma FineMultiple(w: real, n: int, f: int, e: int)
    requires Scaled(w, n, f) && f >= e
    ensures Multiple(w, Pow2(e))
  {
    var d: nat := f - e;
    assert f == e + d;
    var k := NaturalPower(d);
    Pow2Add(e, d);
    Regroup(w, n, k, Pow2(e), Pow2(f));
  }

  /** A double at or above the bottom of the binade is a multiple of the binade's spacing. */
  lemma DoublesAreMultiples(w: real, e: int)
    requires IsDouble(w) && w >= Pow2(e)
    ensures Multiple(w, Pow2(e - 52))
  {
    var n, f :| Scaled(w, n, f);
    if f < e - 52 {
      TooSmall(w, n, f, e);
    } else {
      FineMultiple(w, n, f, e - 52);
    }
  }

  /** Multiples that differ are at least one spacing apart. */
  lemma SpacingApart(a: real, b: real, ulp: real, r: real, w: real)
    requires ulp > 0.0 && r == a * ulp && w == b * ulp && a + 1.0 <= b
    ensures w - r >= ulp
  {
    ProductDifference(b, a, ulp);
    ProductGrows(1.0, b - a, ulp);
  }

  /** No whole number of spacings is closer than half a spacing away. */
  lemma ClosestMultiple(x: real, ulp: real, m: int, r: real, k: int, w: real)
    requires ulp > 0.0 && Times(r, m, ulp) && Times(w, k, ulp) && Abs(x - r) <= ulp / 2.0
    ensures Abs(x - r) <= Abs(x - w)
  {
    if k > m {
      SpacingApart(m as real, k as real, ulp, r, w);
    } else if k < m {
      SpacingApart(k as real, m as real, ulp, w, r);
    }
  }

  lemma RoundToNearest(x: real) returns (r: real)
    requires x > 0.0
    ensures Nearest(x, r)
  {
    var e := Binade(x);
    var m: int;
    r, m := RoundToGrid(x, e);
    forall w | IsDouble(w)
      ensures Abs(x - r) <= Abs(x - w)
    {
      BeatsDouble(x, e, r, m, w);
    }
  }

  lemma BeatsDouble(x: real, e: int, r: real, m: int, w: real)
    requires InBinade(x, e) && OnGrid(x, e, r, m) && IsDouble(w)
    ensures Abs(x - r) <= Abs(x - w)
  {
    Spacing(e);
    var ulp := Pow2(e - 52);
    if w >= Pow2(e) {
      DoublesAreMultiples(w, e);
      var k: int :| Times(w, k, ulp);
      ClosestMultiple(x, ulp, m, r, k, w);
    } else {
      ClosestMultiple(x, ulp, m, r, 4503599627370496, Pow2(e));
    }
  }

  lemma NearestExists(x: real)
    requires x > 0.0
    ensures exists v :: Nearest(x, v)
  {
    var v := RoundToNearest(x);
  }

  /** One rounding function. */
  ghost function Round(x: real): real
    decreases x < 0.0
  {
    if x == 0.0 then 0.0
    else if x < 0.0 then -Round(-x)
    else
      NearestExists(x);
      var v :| Nearest(x, v);
      v
  }

  lemma RoundIsOdd(x: real, y: real)
    requires x + y == 0.0
    ensures Round(x) + Round(y) == 0.0
  {
    if x > 0.0 {
      assert Round(y) == -Round(-y) && -y == x;
    } else if x < 0.0 {
      assert Round(x) == -Round(-x) && -x == y;
    }
  }

  lemma RoundIsNearest(x: real)
    ensures Nearest(x, Round(x))
  {
    if x < 0.0 {
      assert Nearest(-x, Round(-x)) && Round(x) == -Round(-x);
      NegatedNearest(-x, Round(-x));
    } else if x == 0.0 {
      assert Scaled(0.0, 0, 0);
    }
  }

  /** Rounding to nearest is possible for every real. */
  lemma RoundingExists()
    ensures RoundsToNearest(Round)
  {
    forall x: real
      ensures Nearest(x, Round(x))
    {
      RoundIsNearest(x);
    }
    forall x: real, y: real | x + y == 0.0
      ensures Round(x) + Round(y) == 0.0
    {
      RoundIsOdd(x, y);
    }
  }

  lemma NegatedNearest(x: real, v: real)
    requires Nearest(x, v)
    ensures Nearest(-x, -v)
  {
    NegatedDouble(v);
    forall w | IsDouble(w)
      ensures Abs(-x - -v) <= Abs(-x - w)
    {
      NegatedDouble(w);
      assert Abs(x - v) <= Abs(x - -w);
    }
  }
}
