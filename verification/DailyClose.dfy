/** Cash amounts of the daily close: decimal text to whole cents through binary64 arithmetic. */
module DailyClose {
  import opened Collections
  import opened Binary64
  import opened Decimals

  /** The largest accepted amount, 999 999 999 999.99, in cents. */
  const MAX_CENTS: int := 99_999_999_999_999

  // ---------------------------------------------------------------- decimal text

  /** `-?\d+(\.\d{1,2})?` */
  ghost predicate MatchesAmount(s: string) {
    exists minus: bool, whole: string, frac: string :: IsAmount(s, minus, whole, frac)
  }

  predicate IsAmount(s: string, minus: bool, whole: string, frac: string) {
    && s == (if minus then "-" else "") + whole + (if frac == "" then "" else "." + frac)
    && |whole| >= 1 && AllDigits(whole) && |frac| <= 2 && AllDigits(frac)
  }

  /** The cents an amount denotes, in exact decimal arithmetic. */
  function AmountCents(minus: bool, whole: string, frac: string): int
    requires AllDigits(whole) && AllDigits(frac) && |frac| <= 2
  {
    var cents := 100 * DigitsValue(whole) + (if |frac| == 1 then 10 * DigitsValue(frac) else DigitsValue(frac));
    if minus then -cents else cents
  }

  function ParseUnsigned(s: string): Option<nat> {
    var dot := FindIndex(s, (c: char) => c == '.');
    match dot
    case None => if |s| >= 1 && AllDigits(s) then Some(100 * DigitsValue(s)) else None
    case Some(i) =>
      var whole, frac := s[..i], s[i + 1..];
      if |whole| >= 1 && AllDigits(whole) && 1 <= |frac| <= 2 && AllDigits(frac) then
        Some(100 * DigitsValue(whole) + (if |frac| == 1 then 10 * DigitsValue(frac) else DigitsValue(frac)))
      else None
  }

  function ParseCents(s: string): Option<int> {
    if s != "" && s[0] == '-' then
      match ParseUnsigned(s[1..])
      case None => None
      case Some(n) => Option<int>.Some(0 - n)
    else
      match ParseUnsigned(s)
      case None => None
      case Some(n) => Some(n)
  }

  lemma DotAt(body: string, whole: string, frac: string)
    requires AllDigits(whole) && body == whole + (if frac == "" then "" else "." + frac)
    ensures FindIndex(body, (c: char) => c == '.') == if frac == "" then None else Some(|whole|)
  {
    var dot := FindIndex(body, (c: char) => c == '.');
    assert forall i :: 0 <= i < |whole| ==> body[i] == whole[i] != '.';
    if frac == "" {
      assert body == whole && dot.None?;
    } else {
      assert body[|whole|] == '.' && body[|whole|] in body;
    }
  }

  lemma UnsignedAmount(body: string, whole: string, frac: string)
    requires IsAmount(body, false, whole, frac)
    ensures ParseUnsigned(body) == Some(AmountCents(false, whole, frac))
  {
    DotAt(body, whole, frac);
    BodyParts(body, whole, frac);
    hide FindIndex, DigitsValue, AllDigits;
  }

  lemma BodyParts(body: string, whole: string, frac: string)
    requires body == whole + (if frac == "" then "" else "." + frac)
    ensures if frac == "" then body == whole
            else |body| > |whole| && body[..|whole|] == whole && body[|whole| + 1..] == frac
  {
  }

  lemma AfterSign(s: string, whole: string, frac: string)
    requires IsAmount(s, true, whole, frac)
    ensures s != "" && s[0] == '-' && IsAmount(s[1..], false, whole, frac)
  {
    assert s[1..] == whole + (if frac == "" then "" else "." + frac);
  }

  lemma NoSign(s: string, whole: string, frac: string)
    requires IsAmount(s, false, whole, frac)
    ensures s != "" && s[0] != '-'
  {
    assert s[0] == whole[0] && IsDigit(s[0]);
  }

  /** The parser gives every matching text its value... */
  lemma MatchingTextParses(s: string, minus: bool, whole: string, frac: string)
    requires IsAmount(s, minus, whole, frac)
    ensures ParseCents(s) == Some(AmountCents(minus, whole, frac))
  {
    hide IsAmount, ParseUnsigned, DigitsValue, AllDigits;
    if minus {
      AfterSign(s, whole, frac);
      UnsignedAmount(s[1..], whole, frac);
    } else {
      NoSign(s, whole, frac);
      UnsignedAmount(s, whole, frac);
    }
  }

  lemma UnsignedMatches(s: string) returns (whole: string, frac: string)
    requires ParseUnsigned(s).Some?
    ensures IsAmount(s, false, whole, frac)
  {
    match FindIndex(s, (c: char) => c == '.')
    case None =>
      whole, frac := s, "";
    case Some(i) =>
      whole, frac := s[..i], s[i + 1..];
      assert s == whole + ("." + frac);
  }

  /** ...and accepts nothing else. */
  lemma ParsesIffMatches(s: string)
    ensures ParseCents(s).Some? <==> MatchesAmount(s)
  {
    hide ParseUnsigned, DigitsValue;
    if ParseCents(s).Some? {
      if s != "" && s[0] == '-' {
        var whole, frac := UnsignedMatches(s[1..]);
        assert s == "-" + s[1..];
        assert IsAmount(s, true, whole, frac);
      } else {
        var whole, frac := UnsignedMatches(s);
        assert IsAmount(s, false, whole, frac);
      }
    } else if MatchesAmount(s) {
      var minus, whole, frac :| IsAmount(s, minus, whole, frac);
      MatchingTextParses(s, minus, whole, frac);
    }
  }

  // ---------------------------------------------------------------- cents

  /** `Math.round`: the closest integer, halves upwards. */
  function MathRound(x: real): int {
    (x + 0.5).Floor
  }

  /** `Number(s)` of an accepted text is its value, rounded. */
  function NumberOf(rnd: real -> real, cents: int): real {
    rnd(cents as real / 100.0)
  }

  /** `cents(value)` of the form, for a text: pattern, range guard, then `Math.round(amount * 100)`. */
  function Cents(rnd: real -> real, s: string): Option<int> {
    match ParseCents(s)
    case None => None
    case Some(k) =>
      var amount := NumberOf(rnd, k);
      if Abs(amount) <= NumberOf(rnd, MAX_CENTS) then Some(MathRound(rnd(amount * 100.0))) else None
  }

  lemma TwoErrors(k: real, v: real, y: real)
    requires Abs(k) <= 100000000000000.0
    requires Abs(k / 100.0 - v) <= UNIT * Abs(k / 100.0) && Abs(v * 100.0 - y) <= UNIT * Abs(v * 100.0)
    ensures Abs(v * 100.0 - k) < 0.025 && Abs(y - k) < 0.025
  {
    assert Abs(k / 100.0) <= 1000000000000.0;
    assert Abs(v * 100.0 - k) <= 0.012;
    assert Abs(v * 100.0) <= 100000000000001.0;
  }

  ghost predicate SmallError(rnd: real -> real) {
    forall x {:trigger rnd(x)} :: Abs(x - rnd(x)) <= UNIT * Abs(x)
  }

  /** All that the amounts need to know of rounding: small error, oddness, monotonicity and an exact 10^12. */
  ghost predicate GoodRounding(rnd: real -> real) {
    && SmallError(rnd)
    && Odd(rnd)
    && (forall x, y {:trigger rnd(x), rnd(y)} :: x <= y ==> rnd(x) <= rnd(y))
    && rnd(1000000000000.0) == 1000000000000.0
  }

  lemma NearestIsGood(rnd: real -> real)
    requires RoundsToNearest(rnd)
    ensures GoodRounding(rnd)
  {
    hide Nearest, IsDouble;
    forall x: real
      ensures Abs(x - rnd(x)) <= UNIT * Abs(x)
    {
      RelativeError(x, rnd(x));
    }
    forall x: real, y: real | x <= y
      ensures rnd(x) <= rnd(y)
    {
      if x < y {
        RoundingIsMonotone(x, rnd(x), y, rnd(y));
      }
    }
    IntegersAreDoubles(1000000000000);
    RoundingKeepsDoubles(1000000000000.0, rnd(1000000000000.0));
  }

  lemma AmountBound(k: int)
    requires -MAX_CENTS <= k <= MAX_CENTS
    ensures Abs(k as real) <= 100000000000000.0
  {
  }

  lemma BothErrors(rnd: real -> real, x: real)
    requires SmallError(rnd)
    ensures Abs(x / 100.0 - rnd(x / 100.0)) <= UNIT * Abs(x / 100.0)
    ensures Abs(rnd(x / 100.0) * 100.0 - rnd(rnd(x / 100.0) * 100.0)) <= UNIT * Abs(rnd(x / 100.0) * 100.0)
  {
  }

  /** Two roundings cost at most a fortieth of a cent. */
  lemma TwoRoundings(rnd: real -> real, k: int, amount: real, product: real)
    requires SmallError(rnd) && -MAX_CENTS <= k <= MAX_CENTS
    requires amount == NumberOf(rnd, k) && product == rnd(amount * 100.0)
    ensures Abs(amount * 100.0 - k as real) < 0.025 && Abs(product - k as real) < 0.025
  {
    AmountBound(k);
    BothErrors(rnd, k as real);
    TwoErrors(k as real, amount, product);
  }

  lemma RoundsToSelf(x: real, k: int)
    requires Abs(x - k as real) < 0.5
    ensures MathRound(x) == k
  {
  }

  lemma NegatedNumber(rnd: real -> real, k: int)
    requires Odd(rnd)
    ensures NumberOf(rnd, 0 - k) == -NumberOf(rnd, k)
  {
    assert rnd((0 - k) as real / 100.0) + rnd(k as real / 100.0) == 0.0;
  }

  lemma BoundBelow(bound: real)
    requires Abs(999999999999.99 - bound) <= UNIT * 999999999999.99
    ensures 0.0 < bound < 1000000000000.0
  {
  }

  lemma NumberInRange(rnd: real -> real, k: nat)
    requires GoodRounding(rnd)
    ensures NumberOf(rnd, k) >= 0.0
    ensures NumberOf(rnd, k) <= NumberOf(rnd, MAX_CENTS) <==> k <= MAX_CENTS
  {
    var x, top := k as real / 100.0, MAX_CENTS as real / 100.0;
    assert top == 999999999999.99;
    BoundBelow(rnd(top));
    assert Abs(0.0 - rnd(0.0)) <= UNIT * Abs(0.0);
    assert rnd(0.0) == 0.0 && rnd(0.0) <= rnd(x);
    if k <= MAX_CENTS {
      assert x <= top;
    } else {
      assert 1000000000000.0 <= x;
      assert rnd(1000000000000.0) <= rnd(x);
    }
  }

  lemma InRangeIsExact(rnd: real -> real, k: int)
    requires SmallError(rnd) && -MAX_CENTS <= k <= MAX_CENTS
    ensures MathRound(rnd(NumberOf(rnd, k) * 100.0)) == k && MathRound(NumberOf(rnd, k) * 100.0) == k
  {
    var amount := NumberOf(rnd, k);
    var product := rnd(amount * 100.0);
    TwoRoundings(rnd, k, amount, product);
    RoundsToSelf(product, k);
    RoundsToSelf(amount * 100.0, k);
  }

  /**
   Exactness: whatever the rounding of ties, a text is accepted exactly when it matches the pattern and is at
   most 999 999 999 999.99 in magnitude, and the result is then its exact number of cents.
   */
  lemma CentsIsExact(rnd: real -> real, s: string)
    requires RoundsToNearest(rnd)
    ensures Cents(rnd, s) == match ParseCents(s)
                             case None => None
                             case Some(k) => if -MAX_CENTS <= k <= MAX_CENTS then Some(k) else None
  {
    NearestIsGood(rnd);
    var parsed := ParseCents(s);
    if parsed.Some? {
      var k := parsed.value;
      GuardIsRange(rnd, k);
      if -MAX_CENTS <= k <= MAX_CENTS {
        InRangeIsExact(rnd, k);
      }
    }
  }

  lemma GuardIsRange(rnd: real -> real, k: int)
    requires GoodRounding(rnd)
    ensures Abs(NumberOf(rnd, k)) <= NumberOf(rnd, MAX_CENTS) <==> -MAX_CENTS <= k <= MAX_CENTS
  {
    var size: nat := if k < 0 then -k else k;
    NumberInRange(rnd, size);
    NegatedNumber(rnd, size);
  }

  /** The number that an amount is written for. */
  function AmountValue(minus: bool, whole: string, frac: string): real
    requires AllDigits(whole) && AllDigits(frac) && |frac| <= 2
  {
    var units := DigitsValue(whole) as real;
    var parts := DigitsValue(frac) as real / (if |frac| == 0 then 1.0 else if |frac| == 1 then 10.0 else 100.0);
    if minus then -(units + parts) else units + parts
  }

  lemma CentsOfValue(minus: bool, whole: string, frac: string)
    requires AllDigits(whole) && AllDigits(frac) && |frac| <= 2
    ensures AmountCents(minus, whole, frac) as real == 100.0 * AmountValue(minus, whole, frac)
    ensures -MAX_CENTS <= AmountCents(minus, whole, frac) <= MAX_CENTS <==> Abs(AmountValue(minus, whole, frac)) <= 999999999999.99
  {
    assert frac == "" ==> DigitsValue(frac) == 0;
    hide DigitsValue;
  }

  /** `cents` gives k exactly for the texts that write k hundredths in the accepted pattern, within the accepted range. */
  lemma CentsIffWritten(rnd: real -> real, s: string, k: int)
    requires RoundsToNearest(rnd)
    ensures Cents(rnd, s) == Some(k)
       <==> exists minus: bool, whole: string, frac: string ::
              && IsAmount(s, minus, whole, frac) && 100.0 * AmountValue(minus, whole, frac) == k as real
              && Abs(AmountValue(minus, whole, frac)) <= 999999999999.99
  {
    CentsIsExact(rnd, s);
    ParsesIffMatches(s);
    hide RoundsToNearest, ParseCents, DigitsValue, AmountCents, AmountValue, AllDigits, Cents;
    forall minus: bool, whole: string, frac: string | IsAmount(s, minus, whole, frac)
      ensures ParseCents(s) == Some(AmountCents(minus, whole, frac))
      ensures AmountCents(minus, whole, frac) as real == 100.0 * AmountValue(minus, whole, frac)
      ensures -MAX_CENTS <= AmountCents(minus, whole, frac) <= MAX_CENTS <==> Abs(AmountValue(minus, whole, frac)) <= 999999999999.99
    {
      MatchingTextParses(s, minus, whole, frac);
      CentsOfValue(minus, whole, frac);
    }
  }

  // ---------------------------------------------------------------- toFixed(2)

  /** `Number.prototype.toFixed(2)` (section 21.1.3.3 of ECMA-262) below 10^21: the larger n with n/100 closest. */
  function ToFixed2(x: real): string {
    if x < 0.0 then "-" + FixedDigits(-x) else FixedDigits(x)
  }

  function FixedDigits(x: real): string
    requires x >= 0.0
  {
    FixedCents(MathRound(x * 100.0))
  }

  function FixedCents(n: nat): string {
    Decimal(n / 100) + "." + [DigitOf(n / 10 % 10), DigitOf(n % 10)]
  }

  lemma TwoDigits(a: char, b: char)
    requires IsDigit(a) && IsDigit(b)
    ensures DigitsValue([a, b]) == 10 * (a - '0') as nat + (b - '0') as nat
  {
    assert [a, b][..1] == [a] && [a][..0] == "";
    assert DigitsValue([a]) == (a - '0') as nat;
  }

  lemma FixedCentsAmount(n: nat, whole: string, frac: string)
    requires whole == Decimal(n / 100) && frac == [DigitOf(n / 10 % 10), DigitOf(n % 10)]
    ensures AmountCents(false, whole, frac) == n && AmountCents(true, whole, frac) == 0 - n
  {
    DecimalValue(n / 100);
    TwoDigits(frac[0], frac[1]);
    assert n == 100 * (n / 100) + 10 * (n / 10 % 10) + n % 10;
  }

  lemma FixedCentsParses(n: nat)
    ensures ParseCents(FixedCents(n)) == Some(n) && ParseCents("-" + FixedCents(n)) == Option<int>.Some(0 - n)
  {
    hide ParseUnsigned, ParseCents, Decimal;
    var whole, frac := Decimal(n / 100), [DigitOf(n / 10 % 10), DigitOf(n % 10)];
    FixedCentsAmount(n, whole, frac);
    assert FixedCents(n) == "" + whole + ("." + frac);
    assert "-" + FixedCents(n) == "-" + whole + ("." + frac);
    assert IsAmount(FixedCents(n), false, whole, frac) && IsAmount("-" + FixedCents(n), true, whole, frac);
    MatchingTextParses(FixedCents(n), false, whole, frac);
    MatchingTextParses("-" + FixedCents(n), true, whole, frac);
  }

  lemma PositiveNumber(amount: real, size: nat)
    requires Abs(amount * 100.0 - size as real) < 0.025 && size > 0
    ensures amount > 0.0
  {
  }

  lemma FixedOfNumber(rnd: real -> real, size: nat)
    requires SmallError(rnd) && size <= MAX_CENTS && NumberOf(rnd, size) >= 0.0
    ensures FixedDigits(NumberOf(rnd, size)) == FixedCents(size) && (size > 0 ==> NumberOf(rnd, size) > 0.0)
  {
    InRangeIsExact(rnd, size);
    if size > 0 {
      var amount := NumberOf(rnd, size);
      TwoRoundings(rnd, size, amount, rnd(amount * 100.0));
      PositiveNumber(amount, size);
    }
  }

  lemma FixedText(amount: real, k: int, size: nat)
    requires size == (if k < 0 then 0 - k else k)
    requires (size > 0 ==> amount > 0.0) && amount >= 0.0 && FixedDigits(amount) == FixedCents(size)
    ensures ToFixed2(if k < 0 then -amount else amount) == if k < 0 then "-" + FixedCents(size) else FixedCents(size)
  {
  }

  lemma FixedParses(rnd: real -> real, k: int)
    requires GoodRounding(rnd) && -MAX_CENTS <= k <= MAX_CENTS
    ensures ParseCents(ToFixed2(NumberOf(rnd, k))) == Some(k)
  {
    var size: nat := if k < 0 then 0 - k else k;
    NumberInRange(rnd, size);
    NegatedNumber(rnd, size);
    FixedOfNumber(rnd, size);
    FixedText(NumberOf(rnd, size), k, size);
    FixedCentsParses(size);
  }

  /** Round trip: `cents((k / 100).toFixed(2))` is `k`. */
  lemma FixedRoundTrip(rnd: real -> real, k: int)
    requires RoundsToNearest(rnd) && -MAX_CENTS <= k <= MAX_CENTS
    ensures Cents(rnd, ToFixed2(NumberOf(rnd, k))) == Some(k)
  {
    NearestIsGood(rnd);
    FixedParses(rnd, k);
    CentsIsExact(rnd, ToFixed2(NumberOf(rnd, k)));
  }

  /**
   The saved-record check: if the service stores the two amounts sent and their difference, printed with two
   decimals, then all three comparisons of `save` hold for every pair of accepted non-negative entries.
   */
  lemma FaithfulRecordIsConfirmed(rnd: real -> real, expected: string, counted: string, e: int, c: int)
    requires RoundsToNearest(rnd) && Cents(rnd, expected) == Some(e) && Cents(rnd, counted) == Some(c) && e >= 0 && c >= 0
    ensures Cents(rnd, ToFixed2(NumberOf(rnd, e))) == Some(e)
    ensures Cents(rnd, ToFixed2(NumberOf(rnd, c))) == Some(c)
    ensures Cents(rnd, ToFixed2(NumberOf(rnd, c - e))) == Some(c - e)
  {
    CentsIsExact(rnd, expected);
    CentsIsExact(rnd, counted);
    FixedRoundTrip(rnd, e);
    FixedRoundTrip(rnd, c);
    FixedRoundTrip(rnd, c - e);
  }

  /** The other direction: a comparison of `save` holds only for a text that denotes exactly those cents. */
  lemma ConfirmedIffExact(rnd: real -> real, text: string, k: int)
    requires RoundsToNearest(rnd)
    ensures Cents(rnd, text) == Some(k) <==> ParseCents(text) == Some(k) && -MAX_CENTS <= k <= MAX_CENTS
  {
    CentsIsExact(rnd, text);
  }
}
