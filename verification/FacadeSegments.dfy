/**
 The visible portions of a unit's bottom edge: an interval complement computed by one sweep. `rnd` is the rounding of
 every sum and difference.
 */
module FacadeSegments {
  import opened Binary64

  datatype Footprint = Footprint(id: string, x: real, y: real, width: real, height: real)
  datatype Segment = Segment(start: real, end: real)

  const MAX_GAP := 26.0

  function Max(a: real, b: real): real {
    if a >= b then a else b
  }

  function Min(a: real, b: real): real {
    if a <= b then a else b
  }

  // ---------------------------------------------------------------- specification

  /** Exact arithmetic, for comparison. */
  function Exact(x: real): real {
    x
  }

  /** Another footprint starts less than 26 below the unit's bottom edge, as far as the rounded sums tell. */
  predicate InFront(rnd: real -> real, unit: Footprint, other: Footprint) {
    other.id != unit.id && 0.0 <= rnd(other.y - rnd(unit.y + unit.height)) < MAX_GAP
  }

  /** Where the footprint begins and ends along the edge. */
  function From(rnd: real -> real, unit: Footprint, other: Footprint): real {
    rnd(other.x - unit.x)
  }

  function Until(rnd: real -> real, unit: Footprint, other: Footprint): real {
    rnd(rnd(other.x + other.width) - unit.x)
  }

  /** The footprint covers the point `p` of the edge. */
  predicate Hides(rnd: real -> real, unit: Footprint, other: Footprint, p: real) {
    InFront(rnd, unit, other) && From(rnd, unit, other) <= p < Until(rnd, unit, other)
  }

  ghost predicate Exposed(rnd: real -> real, unit: Footprint, units: seq<Footprint>, p: real) {
    0.0 <= p < unit.width && forall u :: u in units ==> !Hides(rnd, unit, u, p)
  }

  predicate Within(s: Segment, p: real) {
    s.start <= p < s.end
  }

  ghost predicate Covers(segments: seq<Segment>, p: real) {
    exists i :: 0 <= i < |segments| && Within(segments[i], p)
  }

  /** Non-empty, increasing, and separated by positive gaps. */
  ghost predicate Canonical(segments: seq<Segment>) {
    && (forall i :: 0 <= i < |segments| ==> segments[i].start < segments[i].end)
    && (forall i, j :: 0 <= i < j < |segments| ==> segments[i].end < segments[j].start)
  }

  ghost predicate Inside(segments: seq<Segment>, low: real, high: real) {
    forall i :: 0 <= i < |segments| ==> low <= segments[i].start && segments[i].end <= high
  }

  /** The segments are the canonical form of the exposed part of the edge. */
  ghost predicate Describes(rnd: real -> real, unit: Footprint, units: seq<Footprint>, visible: seq<Segment>) {
    Canonical(visible) && Inside(visible, 0.0, unit.width)
    && forall p :: Covers(visible, p) <==> Exposed(rnd, unit, units, p)
  }

  // ---------------------------------------------------------------- the blocked list

  function Clip(rnd: real -> real, unit: Footprint, other: Footprint): Segment {
    Segment(Max(0.0, From(rnd, unit, other)), Min(unit.width, Until(rnd, unit, other)))
  }

  function Blocked(rnd: real -> real, unit: Footprint, units: seq<Footprint>): (blocked: seq<Segment>)
    ensures forall i :: 0 <= i < |blocked| ==> blocked[i].start < blocked[i].end
  {
    if units == [] then []
    else
      var s := Clip(rnd, unit, units[0]);
      (if InFront(rnd, unit, units[0]) && s.end > s.start then [s] else []) + Blocked(rnd, unit, units[1..])
  }

  lemma CoversPrepend(s: Segment, segments: seq<Segment>, p: real)
    ensures Covers([s] + segments, p) <==> Within(s, p) || Covers(segments, p)
  {
    var all := [s] + segments;
    if Covers(segments, p) {
      var i :| 0 <= i < |segments| && Within(segments[i], p);
      assert Within(all[i + 1], p);
    }
    if Within(s, p) {
      assert Within(all[0], p);
    }
  }

  lemma ClipHides(rnd: real -> real, unit: Footprint, other: Footprint, p: real)
    requires 0.0 <= p < unit.width
    ensures var s := Clip(rnd, unit, other);
            Hides(rnd, unit, other, p) <==> InFront(rnd, unit, other) && s.end > s.start && Within(s, p)
  {
  }

  /** The clipped list hides exactly the points of the edge that some footprint hides. */
  lemma {:induction false} BlockedHides(rnd: real -> real, unit: Footprint, units: seq<Footprint>, p: real)
    requires 0.0 <= p < unit.width
    ensures Covers(Blocked(rnd, unit, units), p) <==> exists u :: u in units && Hides(rnd, unit, u, p)
  {
    if units != [] {
      var s, rest := Clip(rnd, unit, units[0]), Blocked(rnd, unit, units[1..]);
      BlockedHides(rnd, unit, units[1..], p);
      ClipHides(rnd, unit, units[0], p);
      CoversPrepend(s, rest, p);
      assert [] + rest == rest;
      hide Covers, Hides, InFront, Clip, Within;
      assert forall u :: u in units <==> u == units[0] || u in units[1..];
    }
  }

  ghost predicate SortedByStart(segments: seq<Segment>) {
    forall i, j :: 0 <= i < j < |segments| ==> segments[i].start <= segments[j].start
  }

  /** Stable insertion by start, as `sort((a, b) => a.start - b.start)` orders the list. */
  function Insert(s: Segment, sorted: seq<Segment>): (r: seq<Segment>)
    ensures multiset(r) == multiset{s} + multiset(sorted)
  {
    if sorted == [] || s.start <= sorted[0].start then [s] + sorted
    else
      assert sorted == [sorted[0]] + sorted[1..];
      [sorted[0]] + Insert(s, sorted[1..])
  }

  lemma PrependSorted(s: Segment, later: seq<Segment>)
    requires SortedByStart(later) && forall t :: t in later ==> s.start <= t.start
    ensures SortedByStart([s] + later)
  {
  }

  lemma {:induction false} InsertIsSorted(s: Segment, sorted: seq<Segment>)
    requires SortedByStart(sorted)
    ensures SortedByStart(Insert(s, sorted))
  {
    if sorted == [] || s.start <= sorted[0].start {
      PrependSorted(s, sorted);
    } else {
      var r := Insert(s, sorted[1..]);
      InsertIsSorted(s, sorted[1..]);
      forall t | t in r
        ensures sorted[0].start <= t.start
      {
        assert t in multiset(r);
        assert t == s || t in sorted[1..];
      }
      PrependSorted(sorted[0], r);
    }
  }

  function SortByStart(segments: seq<Segment>): (r: seq<Segment>)
    ensures multiset(r) == multiset(segments)
  {
    if segments == [] then []
    else
      assert segments == [segments[0]] + segments[1..];
      Insert(segments[0], SortByStart(segments[1..]))
  }

  lemma {:induction false} SortByStartIsSorted(segments: seq<Segment>)
    ensures SortedByStart(SortByStart(segments))
  {
    if segments != [] {
      SortByStartIsSorted(segments[1..]);
      InsertIsSorted(segments[0], SortByStart(segments[1..]));
    }
  }

  lemma SameMembersCover(a: seq<Segment>, b: seq<Segment>, p: real)
    requires multiset(a) == multiset(b)
    ensures Covers(a, p) <==> Covers(b, p)
  {
    if Covers(a, p) {
      var i :| 0 <= i < |a| && Within(a[i], p);
      assert a[i] in multiset(b);
    }
    if Covers(b, p) {
      var i :| 0 <= i < |b| && Within(b[i], p);
      assert b[i] in multiset(a);
    }
  }

  // ---------------------------------------------------------------- the sweep

  lemma CoversAppend(segments: seq<Segment>, s: Segment, p: real)
    ensures Covers(segments + [s], p) <==> Covers(segments, p) || Within(s, p)
  {
    var all := segments + [s];
    if Covers(segments, p) {
      var i :| 0 <= i < |segments| && Within(segments[i], p);
      assert Within(all[i], p);
    }
    if Within(s, p) {
      assert Within(all[|segments|], p);
    }
  }

  /** Below the cursor the list so far is exact; from the cursor on nothing swept so far hides a point. */
  ghost predicate Swept(blocked: seq<Segment>, visible: seq<Segment>, cursor: real) {
    && 0.0 <= cursor
    && (cursor == 0.0 || exists i :: 0 <= i < |blocked| && blocked[i].end == cursor)
    && Canonical(visible) && Inside(visible, 0.0, cursor)
    && (forall i :: 0 <= i < |visible| ==> visible[i].end < cursor)
    && (forall p | 0.0 <= p < cursor :: Covers(visible, p) <==> !Covers(blocked, p))
    && (forall p | cursor <= p :: !Covers(blocked, p) && !Covers(visible, p))
  }

  lemma SweptShape(blocked: seq<Segment>, visible: seq<Segment>, cursor: real, s: Segment)
    requires Swept(blocked, visible, cursor) && s.start < s.end && 0.0 <= s.start
    ensures var visible' := if s.start > cursor then visible + [Segment(cursor, s.start)] else visible;
            var cursor' := Max(cursor, s.end);
            && (exists i :: 0 <= i < |blocked + [s]| && (blocked + [s])[i].end == cursor')
            && Canonical(visible') && Inside(visible', 0.0, cursor')
            && (forall i :: 0 <= i < |visible'| ==> visible'[i].end < cursor')
  {
    hide Covers;
    if Max(cursor, s.end) == s.end {
      assert (blocked + [s])[|blocked|].end == s.end;
    } else {
      var i :| 0 <= i < |blocked| && blocked[i].end == cursor;
      assert (blocked + [s])[i].end == cursor;
    }
  }

  lemma SweepStep(blocked: seq<Segment>, visible: seq<Segment>, cursor: real, s: Segment)
    requires Swept(blocked, visible, cursor) && s.start < s.end && 0.0 <= s.start
    requires forall i :: 0 <= i < |blocked| ==> blocked[i].start <= s.start
    ensures Swept(blocked + [s], if s.start > cursor then visible + [Segment(cursor, s.start)] else visible, Max(cursor, s.end))
  {
    hide Canonical, Inside, Covers;
    SweptShape(blocked, visible, cursor, s);
    forall p: real
      ensures Covers(blocked + [s], p) <==> Covers(blocked, p) || Within(s, p)
      ensures Covers(visible + [Segment(cursor, s.start)], p) <==> Covers(visible, p) || (s.start > cursor && cursor <= p < s.start)
      ensures Within(s, p) && p < cursor ==> Covers(blocked, p)
    {
      SweptPoint(blocked, visible, cursor, s, p);
    }
  }

  lemma SweptPoint(blocked: seq<Segment>, visible: seq<Segment>, cursor: real, s: Segment, p: real)
    requires s.start < s.end && 0.0 <= s.start && 0.0 <= cursor
    requires cursor == 0.0 || exists i :: 0 <= i < |blocked| && blocked[i].end == cursor
    requires forall i :: 0 <= i < |blocked| ==> blocked[i].start <= s.start
    ensures Covers(blocked + [s], p) <==> Covers(blocked, p) || Within(s, p)
    ensures Covers(visible + [Segment(cursor, s.start)], p) <==> Covers(visible, p) || (s.start > cursor && cursor <= p < s.start)
    ensures Within(s, p) && p < cursor ==> Covers(blocked, p)
  {
    CoversAppend(blocked, s, p);
    CoversAppend(visible, Segment(cursor, s.start), p);
    if Within(s, p) && p < cursor {
      var i :| 0 <= i < |blocked| && blocked[i].end == cursor;
      assert Within(blocked[i], p);
    }
  }

  lemma FinishSweep(rnd: real -> real, unit: Footprint, units: seq<Footprint>, blocked: seq<Segment>, swept: seq<Segment>, cursor: real)
    requires multiset(blocked) == multiset(Blocked(rnd, unit, units))
    requires Swept(blocked, swept, cursor) && cursor <= Max(0.0, unit.width)
    ensures Describes(rnd, unit, units, if cursor < unit.width then swept + [Segment(cursor, unit.width)] else swept)
  {
    var visible := if cursor < unit.width then swept + [Segment(cursor, unit.width)] else swept;
    FinishedShape(unit, blocked, swept, cursor, visible);
    forall p: real
      ensures Covers(visible, p) <==> Exposed(rnd, unit, units, p)
    {
      FinishedPoint(unit, blocked, swept, cursor, visible, p);
      HiddenPoint(rnd, unit, units, blocked, p);
    }
  }

  lemma FinishedShape(unit: Footprint, blocked: seq<Segment>, swept: seq<Segment>, cursor: real, visible: seq<Segment>)
    requires Swept(blocked, swept, cursor) && cursor <= Max(0.0, unit.width)
    requires visible == if cursor < unit.width then swept + [Segment(cursor, unit.width)] else swept
    ensures Canonical(visible) && Inside(visible, 0.0, unit.width)
  {
    if swept != [] {
      assert swept[0].end < cursor;
    }
  }

  lemma FinishedPoint(unit: Footprint, blocked: seq<Segment>, swept: seq<Segment>, cursor: real, visible: seq<Segment>, p: real)
    requires Swept(blocked, swept, cursor) && cursor <= Max(0.0, unit.width)
    requires visible == if cursor < unit.width then swept + [Segment(cursor, unit.width)] else swept
    ensures Covers(visible, p) <==> 0.0 <= p < unit.width && !Covers(blocked, p)
  {
    CoversAppend(swept, Segment(cursor, unit.width), p);
    if Covers(swept, p) {
      var i :| 0 <= i < |swept| && Within(swept[i], p);
      assert 0.0 <= p < cursor;
    }
  }

  lemma HiddenPoint(rnd: real -> real, unit: Footprint, units: seq<Footprint>, blocked: seq<Segment>, p: real)
    requires multiset(blocked) == multiset(Blocked(rnd, unit, units))
    ensures 0.0 <= p < unit.width && !Covers(blocked, p) <==> Exposed(rnd, unit, units, p)
  {
    if 0.0 <= p < unit.width {
      BlockedHides(rnd, unit, units, p);
      SameMembersCover(blocked, Blocked(rnd, unit, units), p);
    }
  }

  /** Sorted, non-empty segments that start at or after 0 and end by `width`. */
  ghost predicate Sweepable(blocked: seq<Segment>, width: real) {
    && SortedByStart(blocked)
    && forall i :: 0 <= i < |blocked| ==> 0.0 <= blocked[i].start < blocked[i].end <= width
  }

  lemma {:induction false} ClippedInside(rnd: real -> real, unit: Footprint, units: seq<Footprint>)
    ensures Inside(Blocked(rnd, unit, units), 0.0, unit.width)
  {
    if units != [] {
      ClippedInside(rnd, unit, units[1..]);
    }
  }

  lemma SortedIsSweepable(rnd: real -> real, unit: Footprint, units: seq<Footprint>)
    ensures Sweepable(SortByStart(Blocked(rnd, unit, units)), unit.width)
  {
    ClippedInside(rnd, unit, units);
    SortByStartIsSorted(Blocked(rnd, unit, units));
    var blocked := SortByStart(Blocked(rnd, unit, units));
    forall i | 0 <= i < |blocked|
      ensures 0.0 <= blocked[i].start < blocked[i].end <= unit.width
    {
      assert blocked[i] in multiset(Blocked(rnd, unit, units));
    }
  }

  lemma SweepTurn(blocked: seq<Segment>, i: nat, width: real, visible: seq<Segment>, cursor: real)
    requires Sweepable(blocked, width) && i < |blocked|
    requires Swept(blocked[..i], visible, cursor) && cursor <= Max(0.0, width)
    ensures var s := blocked[i];
            && Swept(blocked[..i + 1], if s.start > cursor then visible + [Segment(cursor, s.start)] else visible, Max(cursor, s.end))
            && Max(cursor, s.end) <= Max(0.0, width)
  {
    assert blocked[..i + 1] == blocked[..i] + [blocked[i]];
    SweepStep(blocked[..i], visible, cursor, blocked[i]);
  }

  method ExposedFacadeSegments(rnd: real -> real, unit: Footprint, units: seq<Footprint>) returns (visible: seq<Segment>)
    ensures Describes(rnd, unit, units, visible)
  {
    var blocked := SortByStart(Blocked(rnd, unit, units));
    visible := [];
    var cursor := 0.0;
    SortedIsSweepable(rnd, unit, units);
    hide Describes, Blocked, SortByStart, Sweepable;
    for i := 0 to |blocked|
      invariant Swept(blocked[..i], visible, cursor)
      invariant cursor <= Max(0.0, unit.width)
    {
      var segment := blocked[i];
      SweepTurn(blocked, i, unit.width, visible, cursor);
      if segment.start > cursor {
        visible := visible + [Segment(cursor, segment.start)];
      }
      cursor := Max(cursor, segment.end);
    }
    assert blocked[..|blocked|] == blocked;
    FinishSweep(rnd, unit, units, blocked, visible, cursor);
    if cursor < unit.width {
      visible := visible + [Segment(cursor, unit.width)];
    }
  }

  // ---------------------------------------------------------------- where rounding does not matter

  /** On the plan, `other` starts less than a maximal gap in front of the unit's edge and covers the point at `p`. */
  predicate CoversOnPlan(unit: Footprint, other: Footprint, p: real) {
    && other.id != unit.id
    && unit.y + unit.height <= other.y < unit.y + unit.height + MAX_GAP
    && other.x <= unit.x + p < other.x + other.width
  }

  /** In exact arithmetic a footprint hides the points that it covers on the plan. */
  lemma ExactHides(unit: Footprint, other: Footprint, p: real)
    ensures Hides(Exact, unit, other, p) <==> CoversOnPlan(unit, other, p)
  {
  }

  const COORDINATE_LIMIT: int := 2251799813685248 // 2^51

  /** A whole number, as the editor snaps positions and sizes to, of at most 2^51. */
  predicate WholeCoordinate(x: real) {
    x == x.Floor as real && -COORDINATE_LIMIT <= x.Floor <= COORDINATE_LIMIT
  }

  predicate WholeFootprint(f: Footprint) {
    WholeCoordinate(f.x) && WholeCoordinate(f.y) && WholeCoordinate(f.width) && WholeCoordinate(f.height)
  }

  lemma WholeIsExact(rnd: real -> real, x: real)
    requires RoundsToNearest(rnd) && x == x.Floor as real && -PRECISION < x.Floor < PRECISION
    ensures rnd(x) == x
  {
    IntegersAreDoubles(x.Floor);
    RoundingKeepsDoubles(x, rnd(x));
  }

  lemma WholeSum(a: real, b: real)
    requires a == a.Floor as real && b == b.Floor as real
    ensures (a + b).Floor == a.Floor + b.Floor && (a - b).Floor == a.Floor - b.Floor
    ensures a + b == (a + b).Floor as real && a - b == (a - b).Floor as real
  {
    assert a + b == (a.Floor + b.Floor) as real && a - b == (a.Floor - b.Floor) as real;
  }

  lemma WholeHides(rnd: real -> real, unit: Footprint, other: Footprint, p: real)
    requires RoundsToNearest(rnd) && WholeFootprint(unit) && WholeFootprint(other)
    ensures Hides(rnd, unit, other, p) <==> Hides(Exact, unit, other, p)
  {
    hide RoundsToNearest;
    WholeSum(unit.y, unit.height);
    WholeIsExact(rnd, unit.y + unit.height);
    WholeSum(other.y, unit.y + unit.height);
    WholeIsExact(rnd, other.y - (unit.y + unit.height));
    WholeSum(other.x, unit.x);
    WholeIsExact(rnd, other.x - unit.x);
    WholeSum(other.x, other.width);
    WholeIsExact(rnd, other.x + other.width);
    WholeSum(other.x + other.width, unit.x);
    WholeIsExact(rnd, other.x + other.width - unit.x);
  }

  /**
   On plans with whole coordinates the computed segments are the canonical description of exactly the points of the edge
   that no footprint covers on the plan.
   */
  lemma WholePlansAreExact(rnd: real -> real, unit: Footprint, units: seq<Footprint>, visible: seq<Segment>)
    requires RoundsToNearest(rnd) && WholeFootprint(unit) && forall u :: u in units ==> WholeFootprint(u)
    ensures Describes(rnd, unit, units, visible)
       <==> && Canonical(visible) && Inside(visible, 0.0, unit.width)
            && forall p: real :: Covers(visible, p) <==> 0.0 <= p < unit.width && forall u :: u in units ==> !CoversOnPlan(unit, u, p)
  {
    forall p: real
      ensures Exposed(rnd, unit, units, p) <==> 0.0 <= p < unit.width && forall u :: u in units ==> !CoversOnPlan(unit, u, p)
    {
      forall u | u in units
        ensures Hides(rnd, unit, u, p) <==> CoversOnPlan(unit, u, p)
      {
        WholeHides(rnd, unit, u, p);
        ExactHides(unit, u, p);
      }
    }
  }

  // ---------------------------------------------------------------- canonical form

  lemma TailCovers(segments: seq<Segment>, p: real)
    requires Canonical(segments) && segments != []
    ensures Covers(segments[1..], p) <==> Covers(segments, p) && p >= segments[0].end
  {
    if Covers(segments[1..], p) {
      var i :| 0 <= i < |segments| - 1 && Within(segments[1..][i], p);
      assert Within(segments[i + 1], p);
    }
    if Covers(segments, p) && p >= segments[0].end {
      var i :| 0 <= i < |segments| && Within(segments[i], p);
      assert Within(segments[1..][i - 1], p);
    }
  }

  lemma FirstStart(a: seq<Segment>, b: seq<Segment>)
    requires Canonical(a) && Canonical(b) && a != [] && forall p :: Covers(a, p) ==> Covers(b, p)
    ensures b != [] && b[0].start <= a[0].start
  {
    assert Within(a[0], a[0].start);
    assert Covers(b, a[0].start);
  }

  lemma FirstEnd(a: seq<Segment>, b: seq<Segment>)
    requires Canonical(a) && Canonical(b) && a != [] && b != [] && a[0].start == b[0].start
    requires forall p :: Covers(b, p) ==> Covers(a, p)
    ensures b[0].end <= a[0].end
  {
    assert !Covers(a, a[0].end);
    assert !Within(b[0], a[0].end);
  }

  lemma RestIsCanonical(segments: seq<Segment>)
    requires Canonical(segments) && segments != []
    ensures Canonical(segments[1..])
  {
  }

  /** A set of points has at most one canonical description. */
  lemma {:induction false} CanonicalIsUnique(a: seq<Segment>, b: seq<Segment>)
    requires Canonical(a) && Canonical(b) && forall p :: Covers(a, p) <==> Covers(b, p)
    ensures a == b
  {
    if a == [] {
      if b != [] {
        FirstStart(b, a);
      }
    } else {
      FirstStart(a, b);
      FirstStart(b, a);
      FirstEnd(a, b);
      FirstEnd(b, a);
      RestIsCanonical(a);
      RestIsCanonical(b);
      hide Canonical, Covers;
      forall p: real
        ensures Covers(a[1..], p) <==> Covers(b[1..], p)
      {
        TailCovers(a, p);
        TailCovers(b, p);
      }
      CanonicalIsUnique(a[1..], b[1..]);
      assert a == [a[0]] + a[1..] && b == [b[0]] + b[1..];
    }
  }

  /** The result depends on the set of footprints only: not on their order, nor on repetitions. */
  lemma OrderDoesNotMatter(rnd: real -> real, unit: Footprint, units: seq<Footprint>, others: seq<Footprint>, a: seq<Segment>, b: seq<Segment>)
    requires forall u :: u in units <==> u in others
    requires Describes(rnd, unit, units, a) && Describes(rnd, unit, others, b)
    ensures a == b
  {
    assert forall p :: Exposed(rnd, unit, units, p) <==> Exposed(rnd, unit, others, p);
    CanonicalIsUnique(a, b);
  }

  /** Adding a footprint never exposes a new point. */
  lemma AddingNeverExposes(rnd: real -> real, unit: Footprint, units: seq<Footprint>, more: seq<Footprint>, a: seq<Segment>, b: seq<Segment>, p: real)
    requires Describes(rnd, unit, units, a) && Describes(rnd, unit, units + more, b) && Covers(b, p)
    ensures Covers(a, p)
  {
    assert Exposed(rnd, unit, units + more, p);
    assert forall u :: u in units ==> u in units + more;
  }

  // ---------------------------------------------------------------- conservation

  function TotalLength(segments: seq<Segment>): real {
    if segments == [] then 0.0 else segments[0].end - segments[0].start + TotalLength(segments[1..])
  }

  /** The gaps a canonical list leaves between `low` and `high`. */
  function Gaps(segments: seq<Segment>, low: real, high: real): seq<Segment> {
    if segments == [] then (if low < high then [Segment(low, high)] else [])
    else (if low < segments[0].start then [Segment(low, segments[0].start)] else [])
         + Gaps(segments[1..], segments[0].end, high)
  }

  lemma PrependCanonical(s: Segment, later: seq<Segment>)
    requires s.start < s.end && Canonical(later) && forall i :: 0 <= i < |later| ==> s.end < later[i].start
    ensures Canonical([s] + later)
  {
  }

  lemma TailCanonical(segments: seq<Segment>, low: real, high: real)
    requires Canonical(segments) && Inside(segments, low, high) && segments != []
    ensures Canonical(segments[1..]) && Inside(segments[1..], segments[0].end, high)
    ensures low <= segments[0].start < segments[0].end <= high
  {
  }

  lemma GapBefore(first: Segment, later: seq<Segment>, low: real, high: real)
    requires Canonical(later) && Inside(later, first.end, high) && low < first.start < first.end <= high
    ensures Canonical([Segment(low, first.start)] + later) && Inside([Segment(low, first.start)] + later, low, high)
  {
    PrependCanonical(Segment(low, first.start), later);
  }

  lemma {:induction false} GapsAreCanonical(segments: seq<Segment>, low: real, high: real)
    requires Canonical(segments) && Inside(segments, low, high) && low <= high
    ensures Canonical(Gaps(segments, low, high)) && Inside(Gaps(segments, low, high), low, high)
  {
    if segments != [] {
      var first := segments[0];
      var later := Gaps(segments[1..], first.end, high);
      TailCanonical(segments, low, high);
      GapsAreCanonical(segments[1..], first.end, high);
      assert [] + later == later;
      if low < first.start {
        GapBefore(first, later, low, high);
      }
    }
  }

  lemma FirstLength(s: Segment, later: seq<Segment>)
    ensures TotalLength([s] + later) == s.end - s.start + TotalLength(later)
  {
    assert ([s] + later)[1..] == later;
  }

  lemma {:induction false} LengthsAddUp(segments: seq<Segment>, low: real, high: real)
    requires Canonical(segments) && Inside(segments, low, high) && low <= high
    ensures TotalLength(segments) + TotalLength(Gaps(segments, low, high)) == high - low
  {
    if segments == [] {
      NoSegments(low, high);
    } else {
      TailCanonical(segments, low, high);
      LengthsAddUp(segments[1..], segments[0].end, high);
      GapsLength(segments, low, high);
    }
  }

  lemma NoSegments(low: real, high: real)
    requires low <= high
    ensures TotalLength([]) + TotalLength(Gaps([], low, high)) == high - low
  {
    FirstLength(Segment(low, high), []);
    assert [Segment(low, high)] + [] == [Segment(low, high)];
  }

  lemma GapsLength(segments: seq<Segment>, low: real, high: real)
    requires segments != [] && low <= segments[0].start
    ensures TotalLength(Gaps(segments, low, high))
         == segments[0].start - low + TotalLength(Gaps(segments[1..], segments[0].end, high))
  {
    var later := Gaps(segments[1..], segments[0].end, high);
    FirstLength(Segment(low, segments[0].start), later);
    assert [] + later == later;
  }

  lemma {:induction false} GapsComplement(segments: seq<Segment>, low: real, high: real, p: real)
    requires Canonical(segments) && Inside(segments, low, high) && low <= high
    ensures Covers(Gaps(segments, low, high), p) <==> low <= p < high && !Covers(segments, p)
  {
    if segments == [] {
      CoversPrepend(Segment(low, high), [], p);
      assert [Segment(low, high)] + [] == [Segment(low, high)];
    } else {
      var first, rest := segments[0], segments[1..];
      assert [] + Gaps(rest, first.end, high) == Gaps(rest, first.end, high);
      GapsComplement(rest, first.end, high, p);
      CoversPrepend(Segment(low, first.start), Gaps(rest, first.end, high), p);
      TailCovers(segments, p);
      assert segments == [first] + rest;
      CoversPrepend(first, rest, p);
    }
  }

  /** Visible length and blocked length add up to the width of the edge. */
  lemma LengthIsConserved(rnd: real -> real, unit: Footprint, units: seq<Footprint>, visible: seq<Segment>, hidden: seq<Segment>)
    requires Describes(rnd, unit, units, visible) && 0.0 <= unit.width
    requires Canonical(hidden)
    requires forall p :: Covers(hidden, p) <==> 0.0 <= p < unit.width && exists u :: u in units && Hides(rnd, unit, u, p)
    ensures TotalLength(visible) + TotalLength(hidden) == unit.width
  {
    GapsAreCanonical(visible, 0.0, unit.width);
    LengthsAddUp(visible, 0.0, unit.width);
    var gaps := Gaps(visible, 0.0, unit.width);
    forall p: real
      ensures Covers(gaps, p) <==> Covers(hidden, p)
    {
      GapsComplement(visible, 0.0, unit.width, p);
      assert Covers(visible, p) <==> Exposed(rnd, unit, units, p);
    }
    CanonicalIsUnique(gaps, hidden);
  }
}
