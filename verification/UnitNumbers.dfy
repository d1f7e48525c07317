/** Unit numbers: the suggestion of the placement dialog, and the numbers of the draft over whole runs. */
module UnitNumbers {
  import opened Collections
  import opened Decimals
  import opened Binary64
  import opened FacilityMap
  import opened FacilityEditor
  import opened FacilityPlacement
  import opened FacilitySave

  // ---------------------------------------------------------------- the suggested number

  /** The host's text functions; `show` is `String` of a number. */
  datatype Text = Text(lower: string -> string, trim: string -> string, show: real -> string)

  predicate Digits(s: string) {
    s != "" && AllDigits(s)
  }

  /** From here on `String` of a number may use an exponent. */
  const LONGEST: real := 1000000000000000000000.0

  /**
   All that is used of them: digits are trimmed to themselves and are the lower case of nothing else, and a whole
   double is shown as digits that read back as it; up to 2^53 these are its exact digits.
   */
  ghost predicate Lawful(t: Text, rnd: real -> real) {
    && (forall d: string :: Digits(d) ==> t.trim(d) == d)
    && (forall d: string, s: string :: Digits(d) ==> (t.lower(s) == t.lower(d) <==> s == d))
    && (forall v: real :: IsDouble(v) && Whole(v) && 0.0 <= v < LONGEST ==>
          Digits(t.show(v)) && rnd(DigitsValue(t.show(v)) as real) == v)
    && (forall n: nat :: n <= PRECISION ==> t.show(n as real) == Decimal(n))
  }

  predicate Whole(v: real) {
    v == v.Floor as real
  }

  predicate Numeric(t: Text, s: string) {
    Digits(t.trim(s))
  }

  /** `Number` of a numeric text: its value, rounded. */
  function Value(t: Text, rnd: real -> real, s: string): real
    requires Numeric(t, s)
  {
    rnd(DigitsValue(t.trim(s)) as real)
  }

  /** `Math.max` of the numeric ones, if there are any. */
  function Largest(t: Text, rnd: real -> real, numbers: seq<string>): (m: Option<real>)
    ensures m.None? <==> forall s :: s in numbers ==> !Numeric(t, s)
    ensures forall s :: s in numbers && Numeric(t, s) ==> Value(t, rnd, s) <= m.value
    ensures m.Some? ==> exists s :: s in numbers && Numeric(t, s) && Value(t, rnd, s) == m.value
  {
    if numbers == [] then None
    else
      var rest := Largest(t, rnd, numbers[1..]);
      assert forall s :: s in numbers[1..] ==> s in numbers;
      assert numbers[0] in numbers;
      if Numeric(t, numbers[0]) && (rest.None? || rest.value < Value(t, rnd, numbers[0])) then Some(Value(t, rnd, numbers[0]))
      else rest
  }

  predicate Used(t: Text, numbers: seq<string>, candidate: real) {
    exists s :: s in numbers && t.lower(s) == t.lower(t.show(candidate))
  }

  ghost predicate AllBelow(t: Text, rnd: real -> real, numbers: seq<string>, bound: real) {
    forall s :: s in numbers && Numeric(t, s) ==> Value(t, rnd, s) < bound
  }

  /** The first candidate: one more than the largest number, in doubles, or 1. */
  function Start(t: Text, rnd: real -> real, numbers: seq<string>): real {
    match Largest(t, rnd, numbers)
    case None => 1.0
    case Some(m) => rnd(m + 1.0)
  }

  // ---------------------------------------------------------------- adding one in doubles

  const TOP: real := PRECISION as real

  /** Halfway cases go to the even significand; between 2^53 and 2^54 those are the odd integers. */
  ghost predicate TiesToEven(rnd: real -> real) {
    forall k: int {:trigger rnd((2 * k + 1) as real)} :: 4503599627370496 <= k < PRECISION ==>
      rnd((2 * k + 1) as real) == (if k % 2 == 0 then 2 * k else 2 * k + 2) as real
  }

  lemma PowersAround53()
    ensures Pow2(1) == 2.0 && Pow2(2) == 4.0 && Pow2(53) == TOP && Pow2(54) == 2.0 * TOP
  {
    assert Pow2(1) == 2.0 * Pow2(0) && Pow2(0) == 1.0;
    assert Pow2(2) == 2.0 * Pow2(1);
    Spacing(53);
    Pow2Step(53);
  }

  /** Both neighbours of such an integer are nearest doubles, so the tie rule is one of the ways to round. */
  lemma TiesAreTies(k: int, even: int)
    requires 4503599627370496 <= k < PRECISION && (even == k || even == k + 1)
    ensures Nearest((2 * k + 1) as real, (2 * even) as real)
  {
    var x, r := (2 * k + 1) as real, (2 * even) as real;
    PowersAround53();
    assert Times(r, even, Pow2(1));
    GridIsDouble(even, 1, r);
    assert OnGrid(x, 53, r, even) && InBinade(x, 53);
    forall w | IsDouble(w)
      ensures Abs(x - r) <= Abs(x - w)
    {
      BeatsDouble(x, 53, r, even, w);
    }
  }

  /** An odd integer between 2^53 and 2^54 is halfway between two doubles. */
  predicate Tied(x: real) {
    Whole(x) && x.Floor % 2 == 1 && TOP < x < 2.0 * TOP
  }

  function EvenNeighbour(x: real): real {
    var k := x.Floor / 2;
    (if k % 2 == 0 then 2 * k else 2 * k + 2) as real
  }

  /** A rounding function with the tie rule. */
  ghost function RoundEven(x: real): real {
    if Tied(x) then EvenNeighbour(x) else if Tied(-x) then -EvenNeighbour(-x) else Round(x)
  }

  lemma TiedIsNearest(x: real)
    requires Tied(x)
    ensures Nearest(x, EvenNeighbour(x))
  {
    var k := x.Floor / 2;
    assert x == (2 * k + 1) as real;
    TiesAreTies(k, if k % 2 == 0 then k else k + 1);
  }

  lemma RoundEvenIsNearest(x: real)
    ensures Nearest(x, RoundEven(x))
  {
    hide Tied, EvenNeighbour, Nearest;
    if Tied(x) {
      TiedIsNearest(x);
    } else if Tied(-x) {
      TiedIsNearest(-x);
      NegatedNearest(-x, EvenNeighbour(-x));
    } else {
      RoundIsNearest(x);
    }
  }

  lemma TieRule(k: int)
    requires 4503599627370496 <= k < PRECISION
    ensures RoundEven((2 * k + 1) as real) == (if k % 2 == 0 then 2 * k else 2 * k + 2) as real
  {
    var x := (2 * k + 1) as real;
    assert x.Floor == 2 * k + 1 && x.Floor / 2 == k;
  }

  lemma TiesAreRounded()
    ensures RoundsToNearest(RoundEven) && TiesToEven(RoundEven)
  {
    forall x: real
      ensures Nearest(x, RoundEven(x))
    {
      RoundEvenIsNearest(x);
    }
    forall x: real, y: real | x + y == 0.0
      ensures RoundEven(x) + RoundEven(y) == 0.0
    {
      RoundIsOdd(x, y);
      assert x == -y && !(Tied(x) && Tied(y));
    }
    forall k: int | 4503599627370496 <= k < PRECISION
      ensures RoundEven((2 * k + 1) as real) == (if k % 2 == 0 then 2 * k else 2 * k + 2) as real
    {
      TieRule(k);
    }
  }

  /** Text functions for which a whole number is its decimal digits. */
  function PlainText(): Text {
    Text((s: string) => s, (s: string) => s, (v: real) => if v < 0.0 then "" else Decimal(v.Floor))
  }

  /** What is used of the host's numbers and texts holds together for some rounding and some text functions. */
  lemma AssumptionsHoldTogether()
    ensures exists t, rnd :: Lawful(t, rnd) && RoundsToNearest(rnd) && TiesToEven(rnd)
  {
    TiesAreRounded();
    hide Round, RoundEven, RoundsToNearest, TiesToEven;
    var t := PlainText();
    forall v: real | IsDouble(v) && Whole(v) && 0.0 <= v < LONGEST
      ensures Digits(t.show(v)) && RoundEven(DigitsValue(t.show(v)) as real) == v
    {
      DecimalValue(v.Floor);
      RoundEvenIsNearest(v);
      RoundingKeepsDoubles(v, RoundEven(v));
    }
    forall n: nat | n <= PRECISION
      ensures t.show(n as real) == Decimal(n)
    {
      assert (n as real).Floor == n;
    }
    assert Lawful(t, RoundEven);
  }

  lemma SmallIsDouble(n: nat)
    requires n <= PRECISION
    ensures IsDouble(n as real)
  {
    if n < PRECISION {
      IntegersAreDoubles(n);
    } else {
      assert Pow2(1) == 2.0 * Pow2(0) && Pow2(0) == 1.0;
      assert Scaled(TOP, 4503599627370496, 1);
    }
  }

  lemma SmallIsExact(rnd: real -> real, n: nat)
    requires RoundsToNearest(rnd) && n <= PRECISION
    ensures rnd(n as real) == n as real
  {
    SmallIsDouble(n);
    RoundingKeepsDoubles(n as real, rnd(n as real));
  }

  lemma LargeIsEven(v: real) returns (k: int)
    requires IsDouble(v) && v >= TOP
    ensures v == (2 * k) as real
  {
    PowersAround53();
    DoublesAreMultiples(v, 53);
    k :| Times(v, k, Pow2(1));
  }

  lemma LargerIsMultipleOfFour(v: real) returns (k: int)
    requires IsDouble(v) && v >= 2.0 * TOP
    ensures v == (4 * k) as real
  {
    PowersAround53();
    DoublesAreMultiples(v, 54);
    k :| Times(v, k, Pow2(2));
  }

  /** A numeric text is read as a whole double. */
  lemma ReadsWhole(rnd: real -> real, n: nat)
    requires RoundsToNearest(rnd)
    ensures IsDouble(rnd(n as real)) && Whole(rnd(n as real)) && rnd(n as real) >= 0.0
  {
    if n <= PRECISION {
      SmallIsExact(rnd, n);
    } else {
      SmallIsExact(rnd, PRECISION);
      RoundingIsMonotone(TOP, rnd(TOP), n as real, rnd(n as real));
      var k := LargeIsEven(rnd(n as real));
    }
  }

  /** Where one more is more: below 2^53, and up to 2^54 at every other double. */
  predicate Grows(m: real) {
    m < TOP || (m < 2.0 * TOP && m.Floor % 4 == 2)
  }

  lemma SmallIncrement(rnd: real -> real, m: real)
    requires RoundsToNearest(rnd) && Whole(m) && 0.0 <= m < TOP
    ensures rnd(m + 1.0) == m + 1.0
  {
    SmallIsExact(rnd, m.Floor + 1);
  }

  lemma TiedIncrement(rnd: real -> real, m: real)
    requires TiesToEven(rnd) && IsDouble(m) && TOP <= m < 2.0 * TOP
    ensures rnd(m + 1.0) == if m.Floor % 4 == 2 then m + 2.0 else m
  {
    var k := LargeIsEven(m);
    assert m + 1.0 == (2 * k + 1) as real && m.Floor == 2 * k;
    assert 4503599627370496 <= k < PRECISION;
    assert rnd((2 * k + 1) as real) == (if k % 2 == 0 then 2 * k else 2 * k + 2) as real;
  }

  lemma LostIncrement(rnd: real -> real, m: real)
    requires RoundsToNearest(rnd) && IsDouble(m) && m >= 2.0 * TOP
    ensures rnd(m + 1.0) == m
  {
    var v := rnd(m + 1.0);
    assert Nearest(m + 1.0, v);
    assert Abs(m + 1.0 - v) <= Abs(m + 1.0 - m);
    var k := LargerIsMultipleOfFour(m);
    var j := LargerIsMultipleOfFour(v);
    assert 4 * k <= 4 * j <= 4 * k + 2;
  }

  /** Adding one to a whole double gives a larger one exactly where it grows, and the same one elsewhere. */
  lemma IncrementIff(rnd: real -> real, m: real)
    requires RoundsToNearest(rnd) && TiesToEven(rnd) && IsDouble(m) && Whole(m) && m >= 0.0
    ensures if Grows(m) then m < rnd(m + 1.0) <= 2.0 * TOP else rnd(m + 1.0) == m
  {
    if m < TOP {
      SmallIncrement(rnd, m);
    } else if m < 2.0 * TOP {
      TiedIncrement(rnd, m);
      var k := LargeIsEven(m);
    } else {
      LostIncrement(rnd, m);
    }
  }

  // ---------------------------------------------------------------- the suggestion

  lemma LargestIsWhole(t: Text, rnd: real -> real, numbers: seq<string>)
    requires RoundsToNearest(rnd) && Largest(t, rnd, numbers).Some?
    ensures var m := Largest(t, rnd, numbers).value; IsDouble(m) && Whole(m) && m >= 0.0
  {
    var m := Largest(t, rnd, numbers).value;
    var s :| s in numbers && Numeric(t, s) && Value(t, rnd, s) == m;
    ReadsWhole(rnd, DigitsValue(t.trim(s)));
  }

  /** A whole candidate in use is the plain text of a numeric number, which has its value. */
  lemma UsedIsNumeric(t: Text, rnd: real -> real, numbers: seq<string>, c: real)
    requires Lawful(t, rnd) && IsDouble(c) && Whole(c) && 0.0 <= c < LONGEST
    ensures Numeric(t, t.show(c)) && Value(t, rnd, t.show(c)) == c
    ensures Used(t, numbers, c) ==> t.show(c) in numbers
  {
    assert Digits(t.show(c));
  }

  /** A whole double above all numeric numbers is free. */
  lemma AboveIsFree(t: Text, rnd: real -> real, numbers: seq<string>, c: real)
    requires Lawful(t, rnd) && IsDouble(c) && Whole(c) && 0.0 <= c < LONGEST && AllBelow(t, rnd, numbers, c)
    ensures !Used(t, numbers, c)
  {
    UsedIsNumeric(t, rnd, numbers, c);
  }

  lemma StartGrows(t: Text, rnd: real -> real, numbers: seq<string>)
    requires Lawful(t, rnd) && RoundsToNearest(rnd) && TiesToEven(rnd)
    requires var m := Largest(t, rnd, numbers); m.Some? ==> Grows(m.value)
    ensures var c := Start(t, rnd, numbers);
            AllBelow(t, rnd, numbers, c) && !Used(t, numbers, c) && Numeric(t, t.show(c)) && Value(t, rnd, t.show(c)) == c
  {
    hide RoundsToNearest, TiesToEven, Lawful, IsDouble, Used;
    var m, c := Largest(t, rnd, numbers), Start(t, rnd, numbers);
    if m.Some? {
      LargestIsWhole(t, rnd, numbers);
      IncrementIff(rnd, m.value);
      IncrementIsWhole(rnd, m.value);
    } else {
      SmallIsDouble(1);
      assert Whole(1.0);
    }
    AboveIsFree(t, rnd, numbers, c);
    UsedIsNumeric(t, rnd, numbers, c);
  }

  lemma IncrementIsWhole(rnd: real -> real, m: real)
    requires RoundsToNearest(rnd) && Whole(m) && m >= 0.0
    ensures IsDouble(rnd(m + 1.0)) && Whole(rnd(m + 1.0)) && rnd(m + 1.0) >= 0.0
  {
    ReadsWhole(rnd, m.Floor + 1);
    assert (m.Floor + 1) as real == m + 1.0;
  }

  /** `nextUnitNumber`: as long as every numeric number is below 2^53, a free number larger than all of them. */
  method NextUnitNumber(t: Text, rnd: real -> real, numbers: seq<string>) returns (number: string)
    requires Lawful(t, rnd) && RoundsToNearest(rnd) && TiesToEven(rnd) && AllBelow(t, rnd, numbers, TOP)
    ensures forall s :: s in numbers ==> t.lower(s) != t.lower(number)
    ensures Numeric(t, number) && AllBelow(t, rnd, numbers, Value(t, rnd, number))
    ensures exists n: nat :: n <= PRECISION && number == Decimal(n)
    ensures Numeric(t, number) && IsNext(t, rnd, numbers, Value(t, rnd, number))
  {
    hide RoundsToNearest, TiesToEven, Used, IsDouble, IsNext;
    StartInRange(t, rnd, numbers);
    var candidate := Start(t, rnd, numbers);
    while Used(t, numbers, candidate)
      invariant Whole(candidate) && 1.0 <= candidate <= TOP
      invariant candidate == Start(t, rnd, numbers) || Used(t, numbers, Start(t, rnd, numbers))
      decreases PRECISION - candidate.Floor
    {
      UsedIsBelow(t, rnd, numbers, candidate);
      SmallIncrement(rnd, candidate);
      candidate := rnd(candidate + 1.0);
    }
    StartGrows(t, rnd, numbers);
    number := t.show(candidate);
    assert number == Decimal(candidate.Floor);
    StartIsNext(t, rnd, numbers);
  }

  /** One more than some numeric number, or 1 if there is none. */
  ghost predicate IsNext(t: Text, rnd: real -> real, numbers: seq<string>, v: real) {
    if exists s :: s in numbers && Numeric(t, s) then exists s :: s in numbers && Numeric(t, s) && v == Value(t, rnd, s) + 1.0
    else v == 1.0
  }

  lemma StartIsNext(t: Text, rnd: real -> real, numbers: seq<string>)
    requires RoundsToNearest(rnd) && AllBelow(t, rnd, numbers, TOP)
    ensures IsNext(t, rnd, numbers, Start(t, rnd, numbers))
  {
    var m := Largest(t, rnd, numbers);
    if m.Some? {
      LargestIsWhole(t, rnd, numbers);
      SmallIncrement(rnd, m.value);
    }
  }

  lemma LargestBelow(t: Text, rnd: real -> real, numbers: seq<string>)
    requires Largest(t, rnd, numbers).Some? && AllBelow(t, rnd, numbers, TOP)
    ensures Largest(t, rnd, numbers).value < TOP
  {
  }

  lemma NextIsWhole(m: real)
    requires Whole(m) && m < TOP
    ensures Whole(m + 1.0) && m + 1.0 <= TOP
  {
  }

  lemma StartInRange(t: Text, rnd: real -> real, numbers: seq<string>)
    requires RoundsToNearest(rnd) && AllBelow(t, rnd, numbers, TOP)
    ensures Whole(Start(t, rnd, numbers)) && 1.0 <= Start(t, rnd, numbers) <= TOP
  {
    hide RoundsToNearest, IsDouble, AllBelow, Largest;
    var m := Largest(t, rnd, numbers);
    if m.Some? {
      LargestIsWhole(t, rnd, numbers);
      LargestBelow(t, rnd, numbers);
      NextIsWhole(m.value);
      SmallIncrement(rnd, m.value);
    } else {
      assert Whole(1.0);
    }
  }

  lemma UsedIsBelow(t: Text, rnd: real -> real, numbers: seq<string>, c: real)
    requires Lawful(t, rnd) && Whole(c) && 0.0 <= c <= TOP && Used(t, numbers, c) && AllBelow(t, rnd, numbers, TOP)
    ensures c < TOP
  {
    SmallIsDouble(c.Floor);
    UsedIsNumeric(t, rnd, numbers, c);
  }

  // ---------------------------------------------------------------- the limit of the suggestion

  /** The candidate after `n` more turns of the loop. */
  function Candidate(t: Text, rnd: real -> real, numbers: seq<string>, n: nat): real {
    if n == 0 then Start(t, rnd, numbers) else rnd(Candidate(t, rnd, numbers, n - 1) + 1.0)
  }

  /** The loop stops at its n-th candidate, which is larger than every numeric number. */
  ghost predicate StopsAbove(t: Text, rnd: real -> real, numbers: seq<string>, n: nat) {
    !Used(t, numbers, Candidate(t, rnd, numbers, n)) && AllBelow(t, rnd, numbers, Candidate(t, rnd, numbers, n))
  }

  /** The largest number there is, if any, is one to which one can be added. */
  predicate RoomAbove(t: Text, rnd: real -> real, numbers: seq<string>) {
    var m := Largest(t, rnd, numbers);
    m.None? || Grows(m.value)
  }

  lemma {:induction false} StuckAtLargest(t: Text, rnd: real -> real, numbers: seq<string>, n: nat)
    requires RoundsToNearest(rnd) && TiesToEven(rnd) && !RoomAbove(t, rnd, numbers)
    ensures Some(Candidate(t, rnd, numbers, n)) == Largest(t, rnd, numbers)
  {
    hide RoundsToNearest, TiesToEven;
    LargestIsWhole(t, rnd, numbers);
    IncrementIff(rnd, Largest(t, rnd, numbers).value);
    if n > 0 {
      StuckAtLargest(t, rnd, numbers, n - 1);
    }
  }

  /**
   The dialog finds a free number larger than all numeric ones exactly when one can be added to the largest of them:
   when it is below 2^53, or below 2^54 and twice an odd number.
   */
  lemma SuggestsIff(t: Text, rnd: real -> real, numbers: seq<string>)
    requires Lawful(t, rnd) && RoundsToNearest(rnd) && TiesToEven(rnd)
    ensures (exists n: nat :: StopsAbove(t, rnd, numbers, n)) <==> RoomAbove(t, rnd, numbers)
  {
    if RoomAbove(t, rnd, numbers) {
      StartGrows(t, rnd, numbers);
      assert StopsAbove(t, rnd, numbers, 0);
    } else {
      var m := Largest(t, rnd, numbers).value;
      var s :| s in numbers && Numeric(t, s) && Value(t, rnd, s) == m;
      forall n: nat
        ensures !StopsAbove(t, rnd, numbers, n)
      {
        StuckAtLargest(t, rnd, numbers, n);
      }
    }
  }

  /** Without that room the loop turns for ever exactly when the largest number is there as it would be shown. */
  lemma NeverStopsIff(t: Text, rnd: real -> real, numbers: seq<string>)
    requires Lawful(t, rnd) && RoundsToNearest(rnd) && TiesToEven(rnd)
    ensures (forall n: nat :: Used(t, numbers, Candidate(t, rnd, numbers, n)))
       <==> !RoomAbove(t, rnd, numbers) && Used(t, numbers, Largest(t, rnd, numbers).value)
  {
    if RoomAbove(t, rnd, numbers) {
      StartGrows(t, rnd, numbers);
      assert !Used(t, numbers, Candidate(t, rnd, numbers, 0));
    } else {
      StuckAtLargest(t, rnd, numbers, 0);
      forall n: nat
        ensures Some(Candidate(t, rnd, numbers, n)) == Largest(t, rnd, numbers)
      {
        StuckAtLargest(t, rnd, numbers, n);
      }
    }
  }

  /** One unit numbered "9007199254740992" is enough: every candidate is in use. */
  lemma NeverStops(t: Text, rnd: real -> real, n: nat)
    requires Lawful(t, rnd) && RoundsToNearest(rnd) && TiesToEven(rnd)
    ensures var numbers := [Decimal(PRECISION)]; Used(t, numbers, Candidate(t, rnd, numbers, n))
  {
    hide RoundsToNearest, TiesToEven, Lawful, Candidate, Decimal, Used, Largest;
    PrecisionIsRead(t, rnd);
    assert !Grows(TOP);
    NeverStopsIff(t, rnd, [Decimal(PRECISION)]);
  }

  lemma PrecisionIsRead(t: Text, rnd: real -> real)
    requires Lawful(t, rnd) && RoundsToNearest(rnd)
    ensures var numbers := [Decimal(PRECISION)]; Largest(t, rnd, numbers) == Some(TOP) && Used(t, numbers, TOP)
  {
    var s := Decimal(PRECISION);
    DecimalValue(PRECISION);
    SmallIsExact(rnd, PRECISION);
    assert Digits(s) && t.trim(s) == s && t.show(TOP) == s && s in [s];
    hide RoundsToNearest, Lawful, IsDouble;
    assert Numeric(t, s) && Value(t, rnd, s) == TOP;
  }

  // ---------------------------------------------------------------- the numbers of the draft

  /** How many new units of the canvas have this number, ignoring case. */
  function Numbered(es: seq<Element>, lower: string -> string, key: string): nat {
    if es == [] then 0
    else (if es[0].draft.Some? && lower(es[0].draft.value.number) == key then 1 else 0) + Numbered(es[1..], lower, key)
  }

  predicate InStore(units: seq<Unit>, lower: string -> string, key: string) {
    exists u :: u in units && lower(u.number) == key
  }

  /** New units have different numbers, none of which the store has. */
  ghost predicate NumbersFresh(s: Editor, lower: string -> string) {
    forall key ::
      && Numbered(s.elements, lower, key) <= 1
      && (InStore(UnitsAt(s.facilities, s.facilityId), lower, key) ==> Numbered(s.elements, lower, key) == 0)
  }

  lemma {:induction false} NumberedSplit(es: seq<Element>, more: seq<Element>, lower: string -> string, key: string)
    ensures Numbered(es + more, lower, key) == Numbered(es, lower, key) + Numbered(more, lower, key)
  {
    if es == [] {
      assert es + more == more;
    } else {
      assert (es + more)[1..] == es[1..] + more;
      NumberedSplit(es[1..], more, lower, key);
    }
  }

  lemma {:induction false} NumberedFiltered(es: seq<Element>, keep: Element -> bool, lower: string -> string, key: string)
    ensures Numbered(Filter(es, keep), lower, key) <= Numbered(es, lower, key)
  {
    if es != [] {
      NumberedFiltered(es[1..], keep, lower, key);
    }
  }

  lemma {:induction false} NumberedAgrees(es: seq<Element>, after: seq<Element>, lower: string -> string, key: string)
    requires |after| == |es| && forall i :: 0 <= i < |es| ==> after[i].draft == es[i].draft
    ensures Numbered(after, lower, key) == Numbered(es, lower, key)
  {
    if es != [] {
      NumberedAgrees(es[1..], after[1..], lower, key);
    }
  }

  lemma {:induction false} NoDrafts(es: seq<Element>, lower: string -> string, key: string)
    requires forall e :: e in es ==> e.draft.None?
    ensures Numbered(es, lower, key) == 0
  {
    if es != [] {
      assert es[0] in es;
      NoDrafts(es[1..], lower, key);
    }
  }

  lemma {:induction false} NumberedMeans(es: seq<Element>, lower: string -> string, key: string)
    ensures Numbered(es, lower, key) > 0 <==> exists d :: d in DraftNumbers(es) && lower(d) == key
  {
    if es != [] {
      NumberedMeans(es[1..], lower, key);
    }
  }

  lemma MovedNumbers(es: seq<Element>, index: nat, next: nat, lower: string -> string, key: string)
    requires index < |es| && next < |es|
    ensures Numbered(Moved(es, index, next), lower, key) == Numbered(es, lower, key)
  {
    var e, rest := es[index], es[..index] + es[index + 1..];
    assert es == es[..index] + [e] + es[index + 1..];
    assert rest == rest[..next] + rest[next..];
    NumberedSplit(es[..index] + [e], es[index + 1..], lower, key);
    NumberedSplit(es[..index], [e], lower, key);
    NumberedSplit(es[..index], es[index + 1..], lower, key);
    NumberedSplit(rest[..next], rest[next..], lower, key);
    NumberedSplit(rest[..next] + [e], rest[next..], lower, key);
    NumberedSplit(rest[..next], [e], lower, key);
  }

  lemma EmptyKeeps(after: Editor, lower: string -> string)
    requires forall e :: e in after.elements ==> e.draft.None?
    ensures NumbersFresh(after, lower)
  {
    forall key
      ensures Numbered(after.elements, lower, key) == 0
    {
      NoDrafts(after.elements, lower, key);
    }
  }

  predicate SameStore(s: Editor, after: Editor) {
    after.facilities == s.facilities && after.facilityId == s.facilityId
  }

  /** A step within one store that adds at most a free number keeps the numbers fresh. */
  lemma NumbersKept(s: Editor, after: Editor, lower: string -> string)
    requires NumbersFresh(s, lower) && SameStore(s, after)
    requires forall key :: Numbered(after.elements, lower, key) <= Numbered(s.elements, lower, key)
    ensures NumbersFresh(after, lower)
  {
  }

  lemma AppendNumbers(s: Editor, e: Element, lower: string -> string)
    requires NumbersFresh(s, lower)
    requires e.draft.Some? ==>
               !NumberTaken(UnitsAt(s.facilities, s.facilityId), DraftNumbers(s.elements), lower, e.draft.value.number)
    ensures NumbersFresh(Appended(s, e), lower)
  {
    forall key
      ensures var n := Numbered(Appended(s, e).elements, lower, key);
              n <= 1 && (InStore(UnitsAt(s.facilities, s.facilityId), lower, key) ==> n == 0)
    {
      NumberedSplit(s.elements, [e], lower, key);
      assert Numbered([e], lower, key) == if e.draft.Some? && lower(e.draft.value.number) == key then 1 else 0;
      NumberedMeans(s.elements, lower, key);
    }
  }

  // ---------------------------------------------------------------- drafts over whole runs

  /** Only units are drafts, and a draft has no unit yet. */
  predicate DraftSound(e: Element) {
    (e.kind != UnitKind ==> e.draft.None?) && (e.draft.Some? ==> e.unitId.None?)
  }

  ghost predicate DraftsSound(s: Editor) {
    && (forall e :: e in s.elements ==> DraftSound(e))
    && (s.pending.Some? ==> forall e :: e in s.pending.value.elements ==> DraftSound(e))
  }

  /** The service creates every unit that the layout sent still needs. */
  ghost predicate Creates(s: Editor, e: Event) {
    e.SaveAnswered? && s.pending.Some? ==>
      forall x :: x in s.pending.value.elements && NeedsUnit(x) ==> FindCreated(e.reply.created, x.id).Some?
  }

  lemma RedrawnDrafts(s: Editor, after: Editor, lower: string -> string)
    requires DraftsSound(s) && NumbersFresh(s, lower) && SameStore(s, after) && after.pending == s.pending
    requires |after.elements| == |s.elements|
    requires forall i :: 0 <= i < |s.elements| ==>
               && after.elements[i].draft == s.elements[i].draft && after.elements[i].kind == s.elements[i].kind
               && after.elements[i].unitId == s.elements[i].unitId
    ensures NumbersFresh(after, lower) && DraftsSound(after)
  {
    forall key
      ensures Numbered(after.elements, lower, key) <= Numbered(s.elements, lower, key)
    {
      NumberedAgrees(s.elements, after.elements, lower, key);
    }
    NumbersKept(s, after, lower);
    forall i | 0 <= i < |after.elements|
      ensures DraftSound(after.elements[i])
    {
      assert s.elements[i] in s.elements;
    }
  }

  lemma MovedDrafts(s: Editor, after: Editor, index: nat, next: nat, lower: string -> string)
    requires DraftsSound(s) && NumbersFresh(s, lower) && SameStore(s, after) && after.pending == s.pending
    requires index < |s.elements| && next < |s.elements| && after.elements == Moved(s.elements, index, next)
    ensures NumbersFresh(after, lower) && DraftsSound(after)
  {
    forall key
      ensures Numbered(after.elements, lower, key) <= Numbered(s.elements, lower, key)
    {
      MovedNumbers(s.elements, index, next, lower, key);
    }
    NumbersKept(s, after, lower);
    MovedIsPermutation(s.elements, index, next);
    assert forall e :: e in after.elements ==> e in multiset(after.elements);
  }

  lemma FilteredDrafts(s: Editor, after: Editor, keep: Element -> bool, lower: string -> string)
    requires DraftsSound(s) && NumbersFresh(s, lower) && SameStore(s, after) && after.pending == s.pending
    requires after.elements == Filter(s.elements, keep)
    ensures NumbersFresh(after, lower) && DraftsSound(after)
  {
    forall key
      ensures Numbered(after.elements, lower, key) <= Numbered(s.elements, lower, key)
    {
      NumberedFiltered(s.elements, keep, lower, key);
    }
    NumbersKept(s, after, lower);
  }

  lemma CanvasNumbers(s: Editor, lower: string -> string, e: Event)
    requires DraftsSound(s) && NumbersFresh(s, lower)
    requires e.Reshape? || e.Rotate? || e.MoveLayer? || e.RemoveSelected?
    ensures NumbersFresh(Step(s, lower, e), lower) && DraftsSound(Step(s, lower, e))
  {
    hide NumbersFresh, DraftsSound, Moved;
    var after := Step(s, lower, e);
    if after != s {
      match e
      case MoveLayer(move) =>
        var found := FindIndex(s.elements, (x: Element) => x.id == s.selectedId);
        MovedDrafts(s, after, found.value, NextLayer(found.value, |s.elements| - 1, move), lower);
      case RemoveSelected => FilteredDrafts(s, after, (x: Element) => x.id != s.selectedId, lower);
      case _ => RedrawnDrafts(s, after, lower);
    }
  }

  lemma AnsweredNumbers(s: Editor, lower: string -> string, reply: Reply)
    requires DraftsSound(s) && s.pending.Some? && Creates(s, SaveAnswered(reply))
    ensures NumbersFresh(Answered(s, reply), lower) && DraftsSound(Answered(s, reply))
  {
    var c, after := s.pending.value, Answered(s, reply);
    forall e | e in after.elements
      ensures e.draft.None?
    {
      var i :| 0 <= i < |after.elements| && after.elements[i] == e;
      assert c.elements[i] in c.elements;
    }
    EmptyKeeps(after, lower);
  }

  lemma {:induction false} FindElementDraft(es: seq<Element>, id: string)
    requires forall e :: e in es ==> DraftSound(e)
    ensures FindElement(es, id).Some? ==> DraftSound(FindElement(es, id).value)
  {
  }

  lemma DuplicateNumbers(s: Editor, lower: string -> string, id: string)
    requires DraftsSound(s) && NumbersFresh(s, lower)
    ensures NumbersFresh(Duplicated(s, id), lower) && DraftsSound(Duplicated(s, id))
  {
    var found := FindElement(s.elements, s.selectedId);
    if found.Some? && found.value.kind != UnitKind {
      FindElementDraft(s.elements, s.selectedId);
      var e := found.value;
      AppendNumbers(s, e.(id := id, frame := e.frame.(x := Min(s.width - e.frame.width, e.frame.x + 20),
                                                      y := Min(s.height - e.frame.height, e.frame.y + 20))), lower);
    }
  }

  lemma PlaceNumbers(s: Editor, lower: string -> string, e: Event)
    requires DraftsSound(s) && NumbersFresh(s, lower) && (e.PlaceExisting? || e.PlaceNew? || e.AddShape?)
    ensures NumbersFresh(Step(s, lower, e), lower) && DraftsSound(Step(s, lower, e))
  {
    var after := Step(s, lower, e);
    if after != s {
      var added := after.elements[|after.elements| - 1];
      AppendNumbers(s, added, lower);
      assert after == Appended(s, added);
    }
  }

  lemma FloorNumbers(s: Editor, lower: string -> string, e: Event)
    requires DraftsSound(s) && NumbersFresh(s, lower)
    requires e.SelectFacility? || e.SelectFloor? || e.AddFloor? || e.Load?
    ensures NumbersFresh(Step(s, lower, e), lower) && DraftsSound(Step(s, lower, e))
  {
    var after := Step(s, lower, e);
    if after != s {
      HydratedHasNoDrafts(s, lower, e);
      EmptyKeeps(after, lower);
    }
  }

  lemma HydratedHasNoDrafts(s: Editor, lower: string -> string, e: Event)
    requires (e.SelectFacility? || e.SelectFloor? || e.AddFloor? || e.Load?) && Step(s, lower, e) != s
    ensures forall x :: x in Step(s, lower, e).elements ==> x.draft.None?
    ensures Step(s, lower, e).pending == s.pending
  {
  }

  /** No step makes two waiting numbers equal or lets one meet the store, whatever floor is shown and whatever is out. */
  lemma StepKeepsNumbers(s: Editor, lower: string -> string, e: Event)
    requires DraftsSound(s) && NumbersFresh(s, lower) && Creates(s, e)
    ensures NumbersFresh(Step(s, lower, e), lower) && DraftsSound(Step(s, lower, e))
  {
    match e
    case Reshape(_, _, _, _, _) => CanvasNumbers(s, lower, e);
    case Rotate(_) => CanvasNumbers(s, lower, e);
    case MoveLayer(_) => CanvasNumbers(s, lower, e);
    case RemoveSelected => CanvasNumbers(s, lower, e);
    case DuplicateSelected(id) => DuplicateNumbers(s, lower, id);
    case PlaceExisting(_, _, _) => PlaceNumbers(s, lower, e);
    case PlaceNew(_, _, _) => PlaceNumbers(s, lower, e);
    case AddShape(_, _, _, _) => PlaceNumbers(s, lower, e);
    case SaveAnswered(reply) =>
      if s.pending.Some? {
        AnsweredNumbers(s, lower, reply);
      }
    case Select(_) =>
    case SaveSent =>
    case SaveFailed =>
    case _ => FloorNumbers(s, lower, e);
  }

  ghost predicate CreatesIn(s: Editor, lower: string -> string, es: seq<Event>)
    decreases |es|
  {
    es == [] || (Creates(s, es[0]) && CreatesIn(Step(s, lower, es[0]), lower, es[1..]))
  }

  /**
   Over every run in which answers create what was sent, the numbers waiting on the canvas stay different from each
   other and from the store's: floors may be left, layouts loaded and further saves sent while a save is out.
   */
  lemma {:induction false} RunKeepsNumbers(s: Editor, lower: string -> string, es: seq<Event>)
    requires DraftsSound(s) && NumbersFresh(s, lower) && CreatesIn(s, lower, es)
    ensures NumbersFresh(Run(s, lower, es), lower)
    decreases |es|
  {
    if es != [] {
      StepKeepsNumbers(s, lower, es[0]);
      RunKeepsNumbers(Step(s, lower, es[0]), lower, es[1..]);
    }
  }
}
