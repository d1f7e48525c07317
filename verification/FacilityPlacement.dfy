/** Single placement: over whole runs no unit is on two elements of the draft and the other saved floors. */
module FacilityPlacement {
  import opened Collections
  import opened FacilityMap
  import opened FacilityEditor

  // ---------------------------------------------------------------- counting placements

  /** How many elements of the canvas carry unit `u`. */
  function Drawn(es: seq<Element>, u: string): nat {
    if es == [] then 0 else (if es[0].unitId == Some(u) then 1 else 0) + Drawn(es[1..], u)
  }

  function Stored(es: seq<SavedElement>, u: string): nat {
    if es == [] then 0 else (if es[0].unitId == Some(u) then 1 else 0) + Stored(es[1..], u)
  }

  /** Elements carrying `u` on the saved floors, leaving out the floor called `skip`. */
  function OnMaps(maps: seq<FloorMap>, skip: Option<string>, u: string): nat {
    if maps == [] then 0
    else (if Some(maps[0].name) == skip then 0 else Stored(maps[0].elements, u)) + OnMaps(maps[1..], skip, u)
  }

  datatype Place = Place(facility: string, floor: string)

  function SkipIn(f: Facility, skip: Option<Place>): Option<string> {
    if skip.Some? && f.id == skip.value.facility then Some(skip.value.floor) else None
  }

  function OnFacilities(fs: seq<Facility>, skip: Option<Place>, u: string): nat {
    if fs == [] then 0 else OnMaps(fs[0].maps, SkipIn(fs[0], skip), u) + OnFacilities(fs[1..], skip, u)
  }

  function At(s: Editor): Place {
    Place(s.facilityId, s.floor)
  }

  /** Unit `u` on the canvas and on every saved floor but the one being edited. */
  function Census(fs: seq<Facility>, at: Place, es: seq<Element>, u: string): nat {
    Drawn(es, u) + OnFacilities(fs, Some(at), u)
  }

  ghost predicate SinglyPlaced(fs: seq<Facility>, at: Place, es: seq<Element>) {
    forall u :: Census(fs, at, es, u) <= 1
  }

  ghost predicate SinglySaved(fs: seq<Facility>) {
    forall u :: OnFacilities(fs, None, u) <= 1
  }

  // ---------------------------------------------------------------- well-formed stores

  ghost predicate DistinctElementIds(es: seq<Element>) {
    forall i, j :: 0 <= i < j < |es| ==> es[i].id != es[j].id
  }

  ghost predicate DistinctSavedIds(es: seq<SavedElement>) {
    forall i, j :: 0 <= i < j < |es| ==> es[i].id != es[j].id
  }

  ghost predicate DistinctUnits(units: seq<Unit>) {
    forall i, j :: 0 <= i < j < |units| ==> units[i].id != units[j].id
  }

  ghost predicate DistinctMaps(maps: seq<FloorMap>) {
    forall i, j :: 0 <= i < j < |maps| ==> maps[i].id != maps[j].id && maps[i].name != maps[j].name
  }

  ghost predicate DistinctFacilities(fs: seq<Facility>) {
    forall i, j :: 0 <= i < j < |fs| ==> fs[i].id != fs[j].id
  }

  predicate SoundSaved(e: SavedElement) {
    && (e.kind != UnitKind ==> e.unitId.None?)
    && (e.unit.Some? ==> e.unitId == Some(e.unit.value.id))
  }

  ghost predicate WellMap(m: FloorMap) {
    m.name != "" && DistinctSavedIds(m.elements) && forall e :: e in m.elements ==> SoundSaved(e)
  }

  ghost predicate WellFacility(f: Facility) {
    DistinctUnits(f.units) && DistinctMaps(f.maps) && forall m :: m in f.maps ==> WellMap(m)
  }

  /** What the service promises of a payload. */
  ghost predicate WellStored(fs: seq<Facility>) {
    DistinctFacilities(fs) && forall f :: f in fs ==> WellFacility(f)
  }

  /** What every element of the canvas keeps. */
  predicate Sound(e: Element) {
    && (Straight(e.kind) ==> e.rotation == 0)
    && (e.kind != UnitKind ==> e.unitId.None? && e.draft.None?)
    && (e.draft.Some? ==> e.unitId.None? && e.details.None?)
    && (e.details.Some? ==> e.unitId == Some(e.details.value.id))
    && (e.draft.None? && !(e.unitId.Some? && e.details.None?) ==> e.status == StatusOf(e.details))
  }

  ghost predicate WellDrawn(es: seq<Element>) {
    DistinctElementIds(es) && forall e :: e in es ==> Sound(e)
  }

  ghost predicate PendingOk(s: Editor) {
    s.pending.Some? ==>
      var c := s.pending.value;
      c.floor != "" && WellDrawn(c.elements) && SinglyPlaced(s.facilities, Place(c.facilityId, c.floor), c.elements)
  }

  ghost predicate Inv(s: Editor) {
    && WellStored(s.facilities) && SinglySaved(s.facilities)
    && WellDrawn(s.elements) && SinglyPlaced(s.facilities, At(s), s.elements)
    && PendingOk(s)
  }

  // ---------------------------------------------------------------- what the surroundings do

  predicate NeedsUnit(e: Element) {
    e.kind == UnitKind && e.unitId.None?
  }

  ghost predicate FreshUnit(s: Editor, c: Captured, u: string) {
    && Drawn(c.elements, u) == 0 && OnFacilities(s.facilities, None, u) == 0
    && forall f, v :: f in s.facilities && v in f.units ==> v.id != u
  }

  /** The service's answer: the map known by that name or a new one, one fresh unit per unit still to be created. */
  ghost predicate Honest(s: Editor, reply: Reply)
    requires s.pending.Some?
  {
    var c := s.pending.value;
    && FindFacility(s.facilities, c.facilityId).Some?
    && (match FindMap(MapsAt(s.facilities, c.facilityId), c.floor)
        case Some(m) => reply.mapId == m.id
        case None => forall m :: m in MapsAt(s.facilities, c.facilityId) ==> m.id != reply.mapId)
    && (forall e :: e in c.elements ==> (NeedsUnit(e) <==> FindCreated(reply.created, e.id).Some?))
    && (forall i, j :: 0 <= i < j < |reply.created| ==>
          reply.created[i].elementId != reply.created[j].elementId && reply.created[i].unit.id != reply.created[j].unit.id)
    && (forall r :: r in reply.created ==> FreshUnit(s, c, r.unit.id))
  }

  /** A payload is well formed, and no layout being saved has a unit that the payload shows on another floor. */
  ghost predicate Loadable(s: Editor, payload: seq<Facility>) {
    WellStored(payload) && SinglySaved(payload) && PendingOk(s.(facilities := payload))
  }

  /** Fresh identifiers, sound payloads and answers, and one save at a time, as the save button enforces. */
  ghost predicate Possible(s: Editor, e: Event) {
    match e
    case Load(payload, _, _, _) => Loadable(s, payload)
    case AddShape(id, kind, _, _) => kind != UnitKind && forall x :: x in s.elements ==> x.id != id
    case DuplicateSelected(id) => forall x :: x in s.elements ==> x.id != id
    case PlaceExisting(id, _, _) => forall x :: x in s.elements ==> x.id != id
    case PlaceNew(id, _, _) => forall x :: x in s.elements ==> x.id != id
    case SaveSent => s.pending.None?
    case SaveFailed => s.pending.Some?
    case SaveAnswered(reply) => s.pending.Some? && Honest(s, reply)
    case _ => true
  }

  /** The floor on screen is still the one the save was sent from, or the layout sent had no unit on it. */
  ghost predicate SameFloorOrNoUnits(s: Editor)
    requires s.pending.Some?
  {
    var c := s.pending.value;
    At(s) == Place(c.facilityId, c.floor) || forall e :: e in c.elements ==> e.kind != UnitKind
  }

  // ---------------------------------------------------------------- counting lemmas

  lemma {:induction false} DrawnSplit(es: seq<Element>, more: seq<Element>, u: string)
    ensures Drawn(es + more, u) == Drawn(es, u) + Drawn(more, u)
  {
    if es == [] {
      assert es + more == more;
    } else {
      assert (es + more)[1..] == es[1..] + more;
      DrawnSplit(es[1..], more, u);
    }
  }

  lemma {:induction false} DrawnHydrated(es: seq<SavedElement>, drawn: seq<Element>, u: string)
    requires |drawn| == |es| && forall i :: 0 <= i < |es| ==> drawn[i] == HydrateElement(es[i])
    ensures Drawn(drawn, u) == Stored(es, u)
  {
    if es != [] {
      DrawnHydrated(es[1..], drawn[1..], u);
    }
  }

  lemma {:induction false} StoredSaved(es: seq<Element>, saved: seq<SavedElement>, u: string)
    requires |saved| == |es| && forall i :: 0 <= i < |es| ==> saved[i] == SaveElement(es[i])
    ensures Stored(saved, u) == Drawn(es, u)
  {
    if es != [] {
      StoredSaved(es[1..], saved[1..], u);
    }
  }

  /** Elements with the same units, one by one, give the same counts. */
  lemma {:induction false} DrawnAgrees(es: seq<Element>, after: seq<Element>, u: string)
    requires |after| == |es| && forall i :: 0 <= i < |es| ==> after[i].unitId == es[i].unitId
    ensures Drawn(after, u) == Drawn(es, u)
  {
    if es != [] {
      DrawnAgrees(es[1..], after[1..], u);
    }
  }

  lemma {:induction false} DrawnFiltered(es: seq<Element>, keep: Element -> bool, u: string)
    ensures Drawn(Filter(es, keep), u) <= Drawn(es, u)
  {
    if es != [] {
      DrawnFiltered(es[1..], keep, u);
    }
  }

  lemma {:induction false} DrawnSome(es: seq<Element>, u: string)
    ensures Drawn(es, u) > 0 <==> exists e :: e in es && e.unitId == Some(u)
  {
    if es != [] {
      DrawnSome(es[1..], u);
    }
  }

  lemma {:induction false} StoredSome(es: seq<SavedElement>, u: string)
    ensures Stored(es, u) > 0 <==> exists e :: e in es && e.unitId == Some(u)
  {
    if es != [] {
      StoredSome(es[1..], u);
    }
  }

  lemma {:induction false} OnMapsSome(maps: seq<FloorMap>, m: FloorMap, e: SavedElement, u: string)
    requires m in maps && e in m.elements && e.unitId == Some(u)
    ensures OnMaps(maps, None, u) > 0
  {
    if m == maps[0] {
      StoredSome(m.elements, u);
    } else {
      OnMapsSome(maps[1..], m, e, u);
    }
  }

  lemma {:induction false} OnFacilitiesSome(fs: seq<Facility>, f: Facility, m: FloorMap, e: SavedElement, u: string)
    requires f in fs && m in f.maps && e in m.elements && e.unitId == Some(u)
    ensures OnFacilities(fs, None, u) > 0
  {
    if f == fs[0] {
      OnMapsSome(f.maps, m, e, u);
    } else {
      OnFacilitiesSome(fs[1..], f, m, e, u);
    }
  }

  lemma {:induction false} MapsHold(maps: seq<FloorMap>, u: string) returns (m: FloorMap, e: SavedElement)
    requires OnMaps(maps, None, u) > 0
    ensures m in maps && e in m.elements && e.unitId == Some(u)
  {
    if Stored(maps[0].elements, u) > 0 {
      StoredSome(maps[0].elements, u);
      m := maps[0];
      e :| e in m.elements && e.unitId == Some(u);
    } else {
      m, e := MapsHold(maps[1..], u);
    }
  }

  lemma {:induction false} FacilitiesHold(fs: seq<Facility>, u: string)
    requires OnFacilities(fs, None, u) > 0
    ensures u in PlacedUnitIds(fs)
  {
    if OnMaps(fs[0].maps, None, u) > 0 {
      var m, e := MapsHold(fs[0].maps, u);
      assert fs[0] in fs;
    } else {
      FacilitiesHold(fs[1..], u);
      assert forall f :: f in fs[1..] ==> f in fs;
    }
  }

  /** `placedUnitIds` is exactly the units that some saved floor carries. */
  lemma PlacedIffCounted(fs: seq<Facility>, u: string)
    ensures u in PlacedUnitIds(fs) <==> OnFacilities(fs, None, u) > 0
  {
    if u in PlacedUnitIds(fs) {
      var f, m, e :| f in fs && m in f.maps && e in m.elements && e.unitId == Some(u);
      OnFacilitiesSome(fs, f, m, e, u);
    }
    if OnFacilities(fs, None, u) > 0 {
      FacilitiesHold(fs, u);
    }
  }

  // ---------------------------------------------------------------- one floor against the others

  lemma {:induction false} NoSuchMap(maps: seq<FloorMap>, name: string, u: string)
    requires forall m :: m in maps ==> m.name != name
    ensures OnMaps(maps, Some(name), u) == OnMaps(maps, None, u)
  {
    if maps != [] {
      NoSuchMap(maps[1..], name, u);
    }
  }

  function StoredIn(m: Option<FloorMap>, u: string): nat {
    match m
    case None => 0
    case Some(saved) => Stored(saved.elements, u)
  }

  lemma {:induction false} MapsSplit(maps: seq<FloorMap>, name: string, u: string)
    requires DistinctMaps(maps)
    ensures OnMaps(maps, None, u) == OnMaps(maps, Some(name), u) + StoredIn(FindMap(maps, name), u)
  {
    if maps != [] {
      if maps[0].name == name {
        assert forall m :: m in maps[1..] ==> m.name != name;
        NoSuchMap(maps[1..], name, u);
      } else {
        MapsSplit(maps[1..], name, u);
      }
    }
  }

  lemma {:induction false} NoSuchFacility(fs: seq<Facility>, at: Place, u: string)
    requires forall f :: f in fs ==> f.id != at.facility
    ensures OnFacilities(fs, Some(at), u) == OnFacilities(fs, None, u)
  {
    if fs != [] {
      NoSuchFacility(fs[1..], at, u);
    }
  }

  /** Conservation: all saved placements are those elsewhere plus those on the floor itself. */
  lemma {:induction false} FacilitiesSplit(fs: seq<Facility>, at: Place, u: string)
    requires DistinctFacilities(fs) && forall f :: f in fs ==> DistinctMaps(f.maps)
    ensures OnFacilities(fs, None, u)
         == OnFacilities(fs, Some(at), u) + StoredIn(FindMap(MapsAt(fs, at.facility), at.floor), u)
  {
    if fs != [] {
      assert fs[0] in fs;
      if fs[0].id == at.facility {
        MapsSplit(fs[0].maps, at.floor, u);
        assert forall f :: f in fs[1..] ==> f.id != at.facility;
        NoSuchFacility(fs[1..], at, u);
      } else {
        assert forall f :: f in fs[1..] ==> f in fs;
        FacilitiesSplit(fs[1..], at, u);
      }
    }
  }

  lemma MapAtIsWell(fs: seq<Facility>, facility: string, floor: string)
    requires WellStored(fs)
    ensures FindMap(MapsAt(fs, facility), floor).Some? ==> WellMap(FindMap(MapsAt(fs, facility), floor).value)
  {
  }

  lemma HydratedIsWell(m: Option<FloorMap>)
    requires m.Some? ==> WellMap(m.value)
    ensures WellDrawn(HydrateMap(m))
  {
    var es := HydrateMap(m);
    forall e | e in es
      ensures Sound(e)
    {
      var i :| 0 <= i < |es| && es[i] == e;
      assert m.value.elements[i] in m.value.elements;
    }
  }

  /** Showing a saved floor, or an unsaved one, keeps placement single. */
  lemma ShowKeeps(fs: seq<Facility>, at: Place)
    requires WellStored(fs) && SinglySaved(fs)
    ensures WellDrawn(HydrateMap(FindMap(MapsAt(fs, at.facility), at.floor)))
    ensures SinglyPlaced(fs, at, HydrateMap(FindMap(MapsAt(fs, at.facility), at.floor)))
  {
    var m := FindMap(MapsAt(fs, at.facility), at.floor);
    MapAtIsWell(fs, at.facility, at.floor);
    HydratedIsWell(m);
    forall u
      ensures Census(fs, at, HydrateMap(m), u) <= 1
    {
      FacilitiesSplit(fs, at, u);
      if m.Some? {
        DrawnHydrated(m.value.elements, HydrateMap(m), u);
      }
      assert OnFacilities(fs, None, u) <= 1;
    }
  }

  lemma FirstMapIsFound(fs: seq<Facility>, facility: string)
    ensures MapsAt(fs, facility) != [] && MapsAt(fs, facility)[0].name != "" ==>
              FindMap(MapsAt(fs, facility), FirstFloor(fs, facility)) == Some(MapsAt(fs, facility)[0])
  {
  }

  // ---------------------------------------------------------------- the canvas steps

  lemma AppendKeeps(s: Editor, e: Element)
    requires Inv(s) && Sound(e) && (forall x :: x in s.elements ==> x.id != e.id)
    requires forall u :: e.unitId == Some(u) ==> Census(s.facilities, At(s), s.elements, u) == 0
    ensures Inv(Appended(s, e))
  {
    var after := Appended(s, e);
    forall u
      ensures Census(after.facilities, At(after), after.elements, u) <= 1
    {
      DrawnSplit(s.elements, [e], u);
      assert Drawn([e], u) == if e.unitId == Some(u) then 1 else 0;
      assert Census(s.facilities, At(s), s.elements, u) <= 1;
    }
  }

  lemma {:induction false} FindElementSound(es: seq<Element>, id: string)
    requires forall e :: e in es ==> Sound(e)
    ensures FindElement(es, id).Some? ==> Sound(FindElement(es, id).value)
  {
  }

  /** A change of the canvas that draws no unit more often than before. */
  lemma CanvasKeeps(s: Editor, after: Editor)
    requires Inv(s) && after == s.(elements := after.elements, dirty := after.dirty, selectedId := after.selectedId)
    requires WellDrawn(after.elements) && forall u :: Drawn(after.elements, u) <= Drawn(s.elements, u)
    ensures Inv(after)
  {
    hide Drawn, OnFacilities;
    forall u
      ensures Census(after.facilities, At(after), after.elements, u) <= 1
    {
      assert Census(s.facilities, At(s), s.elements, u) <= 1;
    }
  }

  /** A step that changes elements one by one and moves no unit. */
  lemma RedrawKeeps(s: Editor, after: Editor)
    requires Inv(s) && after == s.(elements := after.elements, dirty := after.dirty, selectedId := after.selectedId)
    requires |after.elements| == |s.elements|
    requires forall i :: 0 <= i < |s.elements| ==>
               && after.elements[i].id == s.elements[i].id && after.elements[i].unitId == s.elements[i].unitId
               && Sound(after.elements[i])
    ensures Inv(after)
  {
    forall u
      ensures Drawn(after.elements, u) <= Drawn(s.elements, u)
    {
      DrawnAgrees(s.elements, after.elements, u);
    }
    CanvasKeeps(s, after);
  }

  lemma ReshapeKeeps(s: Editor, id: string, frame: Frame, caption: string, mirrored: bool, flipped: bool)
    requires Inv(s)
    ensures Inv(Reshaped(s, id, frame, caption, mirrored, flipped))
  {
    var after := Reshaped(s, id, frame, caption, mirrored, flipped);
    forall i | 0 <= i < |s.elements|
      ensures Sound(after.elements[i]) && after.elements[i].id == s.elements[i].id
      ensures after.elements[i].unitId == s.elements[i].unitId
    {
      assert s.elements[i] in s.elements;
    }
    RedrawKeeps(s, after);
  }

  lemma {:induction false} FoundById(es: seq<Element>, i: int)
    requires DistinctElementIds(es) && 0 <= i < |es|
    ensures FindElement(es, es[i].id) == Some(es[i])
  {
    if i > 0 {
      FoundById(es[1..], i - 1);
    }
  }

  lemma RotatedIsSound(e: Element, selected: Element, degrees: int)
    requires Sound(e) && (e.id == selected.id ==> e == selected)
    ensures var r := RotateOne(e, selected, degrees); Sound(r) && r.id == e.id && r.unitId == e.unitId
  {
  }

  lemma RotateKeeps(s: Editor, degrees: int)
    requires Inv(s)
    ensures Inv(Rotated(s, degrees))
  {
    var after, found := Rotated(s, degrees), FindElement(s.elements, s.selectedId);
    if found.Some? {
      forall i | 0 <= i < |s.elements|
        ensures Sound(after.elements[i]) && after.elements[i].id == s.elements[i].id
        ensures after.elements[i].unitId == s.elements[i].unitId
      {
        assert s.elements[i] in s.elements;
        FoundById(s.elements, i);
        hide Sound, RotateOne;
        RotatedIsSound(s.elements[i], found.value, degrees);
      }
      RedrawKeeps(s, after);
    }
  }

  lemma {:induction false} FilterKeepsIds(es: seq<Element>, keep: Element -> bool)
    requires DistinctElementIds(es)
    ensures DistinctElementIds(Filter(es, keep))
  {
    if es != [] {
      assert forall e :: e in es[1..] ==> e.id != es[0].id;
      FilterKeepsIds(es[1..], keep);
    }
  }

  lemma RemoveKeeps(s: Editor)
    requires Inv(s)
    ensures Inv(Removed(s))
  {
    var keep := (e: Element) => e.id != s.selectedId;
    FilterKeepsIds(s.elements, keep);
    forall u
      ensures Drawn(Filter(s.elements, keep), u) <= Drawn(s.elements, u)
    {
      DrawnFiltered(s.elements, keep, u);
    }
    if FindElement(s.elements, s.selectedId).Some? {
      CanvasKeeps(s, Removed(s));
    }
  }

  lemma DistinctAround(front: seq<Element>, e: Element, back: seq<Element>)
    ensures DistinctElementIds(front + [e] + back)
       <==> DistinctElementIds(front + back) && forall x :: x in front + back ==> x.id != e.id
  {
    var all, rest := front + [e] + back, front + back;
    var n := |front|;
    assert forall i :: 0 <= i < n ==> all[i] == rest[i];
    assert forall i :: n <= i < |rest| ==> all[i + 1] == rest[i];
    if DistinctElementIds(all) {
      forall i, j | 0 <= i < j < |rest|
        ensures rest[i].id != rest[j].id
      {
        assert all[if i < n then i else i + 1].id != all[if j < n then j else j + 1].id;
      }
      forall x | x in rest
        ensures x.id != e.id
      {
        var i :| 0 <= i < |rest| && rest[i] == x;
        assert all[n] == e && all[if i < n then i else i + 1] == x;
      }
    }
    if DistinctElementIds(rest) && forall x :: x in rest ==> x.id != e.id {
      forall i, j | 0 <= i < j < |all|
        ensures all[i].id != all[j].id
      {
        if i == n {
          assert all[j] == rest[j - 1] && rest[j - 1] in rest;
        } else if j == n {
          assert all[i] == rest[i] && rest[i] in rest;
        } else {
          assert rest[if i < n then i else i - 1].id != rest[if j < n then j else j - 1].id;
        }
      }
    }
  }

  lemma MovedKeeps(es: seq<Element>, index: nat, next: nat, u: string)
    requires index < |es| && next < |es| && WellDrawn(es)
    ensures WellDrawn(Moved(es, index, next)) && Drawn(Moved(es, index, next), u) == Drawn(es, u)
  {
    var e, rest := es[index], es[..index] + es[index + 1..];
    assert es == es[..index] + [e] + es[index + 1..];
    assert rest == rest[..next] + rest[next..];
    DistinctAround(es[..index], e, es[index + 1..]);
    DistinctAround(rest[..next], e, rest[next..]);
    DrawnSplit(es[..index] + [e], es[index + 1..], u);
    DrawnSplit(es[..index], [e], u);
    DrawnSplit(es[..index], es[index + 1..], u);
    DrawnSplit(rest[..next], rest[next..], u);
    DrawnSplit(rest[..next] + [e], rest[next..], u);
    DrawnSplit(rest[..next], [e], u);
  }

  lemma SameAround(low: seq<Element>, front: seq<Element>, e: Element, high: seq<Element>, back: seq<Element>)
    requires low + high == front + back
    ensures multiset(low + [e] + high) == multiset(front + [e] + back)
  {
    calc {
      multiset(low + [e] + high);
      multiset(low + high) + multiset([e]);
      multiset(front + back) + multiset([e]);
      multiset(front + [e] + back);
    }
  }

  lemma MovedIsPermutation(es: seq<Element>, index: nat, next: nat)
    requires index < |es| && next < |es|
    ensures multiset(Moved(es, index, next)) == multiset(es)
  {
    var front, e, back := es[..index], es[index], es[index + 1..];
    var rest := front + back;
    assert es == front + [e] + back && rest == rest[..next] + rest[next..];
    SameAround(rest[..next], front, e, rest[next..], back);
  }

  /** The element taken from `index` is at `next`, and the others keep their order around it. */
  lemma MovedAround(es: seq<Element>, index: nat, next: nat)
    requires index < |es| && next < |es|
    ensures var after := Moved(es, index, next);
            && |after| == |es| && after[next] == es[index]
            && after[..next] + after[next + 1..] == es[..index] + es[index + 1..]
  {
    var after, rest := Moved(es, index, next), es[..index] + es[index + 1..];
    assert after[..next] == rest[..next] && after[next + 1..] == rest[next..];
    assert rest == rest[..next] + rest[next..];
  }

  lemma SelectedIndex(s: Editor, i: nat)
    requires DistinctElementIds(s.elements) && i < |s.elements| && s.elements[i].id == s.selectedId
    ensures FindIndex(s.elements, (e: Element) => e.id == s.selectedId) == Some(i)
  {
    FindIndexIs(s.elements, (e: Element) => e.id == s.selectedId, i);
  }

  /** The selected element goes where `NextLayer` says; no element is lost, repeated or changed. */
  lemma MoveLayerMoves(s: Editor, move: LayerMove, i: nat)
    requires DistinctElementIds(s.elements) && i < |s.elements| && s.elements[i].id == s.selectedId
    ensures var es, after := s.elements, LayerMoved(s, move).elements;
            var next := NextLayer(i, |es| - 1, move);
            && multiset(after) == multiset(es) && |after| == |es| && after[next] == es[i]
            && after[..next] + after[next + 1..] == es[..i] + es[i + 1..]
  {
    hide Moved, DistinctElementIds;
    SelectedIndex(s, i);
    MovedIsPermutation(s.elements, i, NextLayer(i, |s.elements| - 1, move));
    MovedAround(s.elements, i, NextLayer(i, |s.elements| - 1, move));
  }

  lemma MoveLayerKeeps(s: Editor, move: LayerMove)
    requires Inv(s)
    ensures Inv(LayerMoved(s, move))
    ensures multiset(LayerMoved(s, move).elements) == multiset(s.elements)
  {
    hide Moved, Drawn, SinglyPlaced;
    var found := FindIndex(s.elements, (e: Element) => e.id == s.selectedId);
    if found.Some? {
      var i, next := found.value, NextLayer(found.value, |s.elements| - 1, move);
      MovedIsPermutation(s.elements, i, next);
      MovedKeeps(s.elements, i, next, "");
      forall u
        ensures Drawn(Moved(s.elements, i, next), u) <= Drawn(s.elements, u)
      {
        MovedKeeps(s.elements, i, next, u);
      }
      CanvasKeeps(s, LayerMoved(s, move));
    }
  }

  lemma DuplicateKeeps(s: Editor, id: string)
    requires Inv(s) && forall x :: x in s.elements ==> x.id != id
    ensures Inv(Duplicated(s, id))
  {
    var found := FindElement(s.elements, s.selectedId);
    if found.Some? && found.value.kind != UnitKind {
      FindElementSound(s.elements, s.selectedId);
      var e := found.value;
      var copy := e.(id := id, frame := e.frame.(x := Min(s.width - e.frame.width, e.frame.x + 20),
                                                 y := Min(s.height - e.frame.height, e.frame.y + 20)));
      AppendKeeps(s, copy);
    }
  }

  /** A unit that the dialog still offers is nowhere yet. */
  lemma AvailableIsNowhere(s: Editor, u: string)
    requires WellStored(s.facilities) && u !in UnavailableUnitIds(s)
    ensures Census(s.facilities, At(s), s.elements, u) == 0
  {
    PlacedIffCounted(s.facilities, u);
    FacilitiesSplit(s.facilities, At(s), u);
    DrawnSome(s.elements, u);
  }

  lemma PlaceExistingKeeps(s: Editor, id: string, unitId: string, frame: Frame)
    requires Inv(s) && forall x :: x in s.elements ==> x.id != id
    ensures Inv(ExistingPlaced(s, id, unitId, frame))
  {
    var found := FindUnit(UnitsAt(s.facilities, s.facilityId), unitId);
    if found.Some? && unitId !in UnavailableUnitIds(s) {
      AvailableIsNowhere(s, unitId);
      var u := found.value;
      AppendKeeps(s, Element(id, Some(unitId), UnitKind, frame, 0, FirstNonEmpty(u.number, "Unit"),
                             Some(FirstNonEmpty(u.status, "AVAILABLE")), None, None, false, false));
    }
  }

  lemma PlaceNewKeeps(s: Editor, lower: string -> string, id: string, draft: DraftUnit, frame: Frame)
    requires Inv(s) && forall x :: x in s.elements ==> x.id != id
    ensures Inv(NewPlaced(s, lower, id, draft, frame))
  {
    if !NumberTaken(UnitsAt(s.facilities, s.facilityId), DraftNumbers(s.elements), lower, draft.number) {
      AppendKeeps(s, Element(id, None, UnitKind, frame, 0, FirstNonEmpty(draft.number, "Unit"),
                             Some("AVAILABLE"), Some(draft), None, false, false));
    }
  }

  // ---------------------------------------------------------------- changing floor

  lemma ShownKeeps(s: Editor, facility: string, floor: string, keepSelection: bool)
    requires WellStored(s.facilities) && SinglySaved(s.facilities) && PendingOk(s)
    ensures Inv(Show(s, facility, floor, FindMap(MapsAt(s.facilities, facility), floor), keepSelection))
  {
    ShowKeeps(s.facilities, Place(facility, floor));
  }

  lemma FloorStepsKeep(s: Editor, lower: string -> string, name: string)
    requires Inv(s)
    ensures Inv(Selected(s, name)) && Inv(Floored(s, name)) && Inv(FloorAdded(s, lower, name))
  {
    var maps := MapsAt(s.facilities, name);
    if maps != [] {
      assert maps[0] in maps && WellMap(maps[0]);
      FirstMapIsFound(s.facilities, name);
    }
    ShownKeeps(s, name, FirstFloor(s.facilities, name), false);
    ShownKeeps(s, s.facilityId, name, false);
    if FindMap(MapsAt(s.facilities, s.facilityId), name).Some? {
      var m := FindMap(MapsAt(s.facilities, s.facilityId), name).value;
      assert m in MapsAt(s.facilities, s.facilityId) && lower(m.name) == lower(name);
    }
  }
}
