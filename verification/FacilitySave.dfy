/** What the answer to a save does to the stored layouts and to the canvas, and the theorems over whole runs. */
module FacilitySave {
  import opened Collections
  import opened FacilityMap
  import opened FacilityEditor
  import opened FacilityPlacement

  // ---------------------------------------------------------------- putting the saved map in place

  /** The saved map replaces exactly the floor of its own name. */
  ghost predicate Matches(maps: seq<FloorMap>, saved: FloorMap) {
    forall m :: m in maps ==> (m.id == saved.id <==> m.name == saved.name)
  }

  lemma {:induction false} ReplaceMapKeeps(maps: seq<FloorMap>, saved: FloorMap, u: string)
    requires DistinctMaps(maps) && Matches(maps, saved)
    ensures OnMaps(ReplaceMap(maps, saved), Some(saved.name), u) == OnMaps(maps, Some(saved.name), u)
    ensures |ReplaceMap(maps, saved)| == |maps|
    ensures forall i :: 0 <= i < |maps| ==> ReplaceMap(maps, saved)[i] == if maps[i].id == saved.id then saved else maps[i]
    ensures FindMap(maps, saved.name).Some? ==> FindMap(ReplaceMap(maps, saved), saved.name) == Some(saved)
  {
    if maps != [] {
      assert maps[0] in maps;
      ReplaceMapKeeps(maps[1..], saved, u);
    }
  }

  lemma {:induction false} AppendMap(maps: seq<FloorMap>, saved: FloorMap, u: string)
    requires forall m :: m in maps ==> m.name != saved.name
    ensures OnMaps(maps + [saved], Some(saved.name), u) == OnMaps(maps, Some(saved.name), u)
    ensures FindMap(maps + [saved], saved.name) == Some(saved)
  {
    if maps == [] {
      assert maps + [saved] == [saved];
    } else {
      assert (maps + [saved])[1..] == maps[1..] + [saved] && (maps + [saved])[0] == maps[0];
      AppendMap(maps[1..], saved, u);
    }
  }

  lemma PutMapDistinct(maps: seq<FloorMap>, saved: FloorMap)
    requires DistinctMaps(maps) && Matches(maps, saved)
    ensures DistinctMaps(PutMap(maps, saved))
    ensures forall m :: m in PutMap(maps, saved) ==> m == saved || m in maps
  {
    if exists m :: m in maps && m.id == saved.id {
      ReplaceMapKeeps(maps, saved, "");
      var after := ReplaceMap(maps, saved);
      forall i | 0 <= i < |maps|
        ensures after[i].id == maps[i].id && after[i].name == maps[i].name && (after[i] == saved || after[i] in maps)
      {
        assert maps[i] in maps;
      }
    }
  }

  lemma PutMapKeeps(maps: seq<FloorMap>, saved: FloorMap, u: string)
    requires DistinctMaps(maps) && Matches(maps, saved)
    ensures OnMaps(PutMap(maps, saved), Some(saved.name), u) == OnMaps(maps, Some(saved.name), u)
    ensures FindMap(PutMap(maps, saved), saved.name) == Some(saved)
  {
    if exists m :: m in maps && m.id == saved.id {
      ReplaceMapKeeps(maps, saved, u);
    } else {
      AppendMap(maps, saved, u);
    }
  }

  // ---------------------------------------------------------------- the facility's units

  lemma {:induction false} SavedUnitsAreStored(es: seq<SavedElement>, v: Unit)
    requires forall e :: e in es ==> SoundSaved(e)
    requires v in SavedUnits(es)
    ensures Stored(es, v.id) > 0
  {
    if es[0].unit != Some(v) {
      SavedUnitsAreStored(es[1..], v);
    } else {
      assert SoundSaved(es[0]);
    }
  }

  lemma {:induction false} SavedUnitsDistinct(es: seq<SavedElement>)
    requires forall e :: e in es ==> SoundSaved(e)
    requires forall u :: Stored(es, u) <= 1
    ensures DistinctUnits(SavedUnits(es))
  {
    if es != [] {
      forall u
        ensures Stored(es[1..], u) <= 1
      {
        assert Stored(es, u) <= 1;
      }
      SavedUnitsDistinct(es[1..]);
      if es[0].unit.Some? {
        var v := es[0].unit.value;
        assert SoundSaved(es[0]) && Stored(es, v.id) <= 1;
        forall w | w in SavedUnits(es[1..])
          ensures w.id != v.id
        {
          SavedUnitsAreStored(es[1..], w);
        }
      }
    }
  }

  lemma {:induction false} FilterUnitsDistinct(units: seq<Unit>, keep: Unit -> bool)
    requires DistinctUnits(units)
    ensures DistinctUnits(Filter(units, keep))
  {
    if units != [] {
      assert forall v :: v in units[1..] ==> v.id != units[0].id;
      FilterUnitsDistinct(units[1..], keep);
    }
  }

  predicate HasUnit(units: seq<Unit>, id: string) {
    exists v :: v in units && v.id == id
  }

  /** Merging loses no unit, adds exactly the saved ones and repeats none. */
  lemma MergedUnitsKeep(units: seq<Unit>, saved: seq<Unit>)
    requires DistinctUnits(units) && DistinctUnits(saved)
    ensures DistinctUnits(MergedUnits(units, saved))
    ensures forall id :: HasUnit(MergedUnits(units, saved), id) <==> HasUnit(units, id) || HasUnit(saved, id)
  {
    var keep := (u: Unit) => !exists v :: v in saved && v.id == u.id;
    var merged := MergedUnits(units, saved);
    var kept := Filter(units, keep);
    FilterUnitsDistinct(units, keep);
    forall i, j | 0 <= i < j < |merged|
      ensures merged[i].id != merged[j].id
    {
      if i < |kept| <= j {
        assert kept[i] in kept && keep(kept[i]) && saved[j - |kept|] in saved;
      }
    }
    forall id
      ensures HasUnit(merged, id) <==> HasUnit(units, id) || HasUnit(saved, id)
    {
      if HasUnit(saved, id) {
        var v :| v in saved && v.id == id;
        assert v in merged;
      } else if HasUnit(units, id) {
        var v :| v in units && v.id == id;
        assert keep(v) && v in Filter(units, keep) && v in merged;
      }
    }
  }

  // ---------------------------------------------------------------- facilities

  lemma {:induction false} MergedElsewhere(fs: seq<Facility>, facility: string, saved: FloorMap, u: string)
    requires DistinctFacilities(fs) && forall f :: f in fs ==> DistinctMaps(f.maps)
    requires forall f :: f in fs && f.id == facility ==> Matches(f.maps, saved)
    ensures OnFacilities(Merged(fs, facility, saved), Some(Place(facility, saved.name)), u)
         == OnFacilities(fs, Some(Place(facility, saved.name)), u)
  {
    if fs != [] {
      assert fs[0] in fs;
      if fs[0].id == facility {
        PutMapKeeps(fs[0].maps, saved, u);
      }
      assert forall f :: f in fs[1..] ==> f in fs;
      MergedElsewhere(fs[1..], facility, saved, u);
    }
  }

  lemma {:induction false} MergedShape(fs: seq<Facility>, facility: string, saved: FloorMap)
    ensures |Merged(fs, facility, saved)| == |fs|
    ensures forall i :: 0 <= i < |fs| ==>
              Merged(fs, facility, saved)[i] == (if fs[i].id == facility then MergedFacility(fs[i], saved) else fs[i])
    ensures FindFacility(Merged(fs, facility, saved), facility)
         == match FindFacility(fs, facility) case None => None case Some(f) => Some(MergedFacility(f, saved))
  {
    if fs != [] {
      MergedShape(fs[1..], facility, saved);
    }
  }

  lemma MergedFacilityIsWell(f: Facility, saved: FloorMap)
    requires WellFacility(f) && WellMap(saved) && Matches(f.maps, saved)
    requires forall u :: Stored(saved.elements, u) <= 1
    ensures WellFacility(MergedFacility(f, saved))
  {
    PutMapDistinct(f.maps, saved);
    SavedUnitsDistinct(saved.elements);
    MergedUnitsKeep(f.units, SavedUnits(saved.elements));
  }

  lemma MergedIsWell(fs: seq<Facility>, facility: string, saved: FloorMap)
    requires WellStored(fs) && WellMap(saved)
    requires forall f :: f in fs && f.id == facility ==> Matches(f.maps, saved)
    requires forall u :: Stored(saved.elements, u) <= 1
    ensures WellStored(Merged(fs, facility, saved))
  {
    MergedShape(fs, facility, saved);
    var after := Merged(fs, facility, saved);
    forall f | f in after
      ensures WellFacility(f)
    {
      var i :| 0 <= i < |after| && after[i] == f;
      assert fs[i] in fs;
      if fs[i].id == facility {
        MergedFacilityIsWell(fs[i], saved);
      }
    }
  }

  // ---------------------------------------------------------------- the updated canvas

  /** A unit that was not created just now is where it was. */
  lemma {:induction false} DrawnOld(es: seq<Element>, created: seq<Created>, u: string)
    requires forall e :: e in es && FindCreated(created, e.id).Some? ==> e.unitId.None?
    requires forall c :: c in created ==> c.unit.id != u
    ensures Drawn(UpdatedElements(es, created), u) == Drawn(es, u)
  {
    if es != [] {
      assert es[0] in es;
      DrawnOld(es[1..], created, u);
    }
  }

  lemma {:induction false} NotDrawn(es: seq<Element>, created: seq<Created>, c: Created)
    requires forall i, j :: 0 <= i < j < |created| ==> created[i].unit.id != created[j].unit.id
    requires c in created && Drawn(es, c.unit.id) == 0 && forall e :: e in es ==> e.id != c.elementId
    ensures Drawn(UpdatedElements(es, created), c.unit.id) == 0
  {
    if es != [] {
      assert es[0] in es;
      NotDrawn(es[1..], created, c);
    }
  }

  /** A created unit is on one element only. */
  lemma {:induction false} DrawnCreated(es: seq<Element>, created: seq<Created>, c: Created)
    requires DistinctElementIds(es)
    requires forall i, j :: 0 <= i < j < |created| ==> created[i].unit.id != created[j].unit.id
    requires c in created && Drawn(es, c.unit.id) == 0
    ensures Drawn(UpdatedElements(es, created), c.unit.id) <= 1
  {
    if es != [] {
      if es[0].id == c.elementId {
        assert forall e :: e in es[1..] ==> e.id != es[0].id;
        NotDrawn(es[1..], created, c);
      } else {
        DrawnCreated(es[1..], created, c);
      }
    }
  }

  lemma WithCreatedIsSound(e: Element, created: seq<Created>)
    requires Sound(e) && (NeedsUnit(e) <==> FindCreated(created, e.id).Some?)
    ensures WithCreated(e, created).id == e.id && Sound(WithCreated(e, created))
    ensures SoundSaved(SaveElement(WithCreated(e, created)))
  {
  }

  lemma UpdatedIsSound(es: seq<Element>, created: seq<Created>)
    requires WellDrawn(es) && forall e :: e in es ==> (NeedsUnit(e) <==> FindCreated(created, e.id).Some?)
    ensures WellDrawn(UpdatedElements(es, created))
    ensures forall e :: e in UpdatedElements(es, created) ==> SoundSaved(SaveElement(e))
  {
    var updated := UpdatedElements(es, created);
    forall i | 0 <= i < |updated|
      ensures updated[i].id == es[i].id && Sound(updated[i]) && SoundSaved(SaveElement(updated[i]))
    {
      assert es[i] in es;
      WithCreatedIsSound(es[i], created);
    }
  }

  lemma SavedMapIsWell(id: string, name: string, width: int, height: int, es: seq<Element>)
    requires name != "" && WellDrawn(es) && forall e :: e in es ==> SoundSaved(SaveElement(e))
    ensures WellMap(SaveMap(id, name, width, height, es))
  {
    var saved := SaveMap(id, name, width, height, es).elements;
    forall e | e in saved
      ensures SoundSaved(e)
    {
      var i :| 0 <= i < |saved| && saved[i] == e;
      assert es[i] in es;
    }
  }

  lemma UpdatedIsWell(s: Editor, reply: Reply)
    requires Inv(s) && s.pending.Some? && Honest(s, reply)
    ensures WellDrawn(UpdatedElements(s.pending.value.elements, reply.created))
    ensures WellMap(SavedMapOf(s.pending.value, reply))
  {
    var c := s.pending.value;
    UpdatedIsSound(c.elements, reply.created);
    SavedMapIsWell(reply.mapId, c.floor, c.width, c.height, UpdatedElements(c.elements, reply.created));
  }

  lemma UpdatedCensus(s: Editor, reply: Reply, u: string)
    requires Inv(s) && s.pending.Some? && Honest(s, reply)
    ensures var c := s.pending.value;
            Census(s.facilities, Place(c.facilityId, c.floor), UpdatedElements(c.elements, reply.created), u) <= 1
  {
    var c := s.pending.value;
    var at := Place(c.facilityId, c.floor);
    assert Census(s.facilities, at, c.elements, u) <= 1;
    if exists r :: r in reply.created && r.unit.id == u {
      var r :| r in reply.created && r.unit.id == u;
      assert FreshUnit(s, c, u);
      DrawnCreated(c.elements, reply.created, r);
      FacilitiesSplit(s.facilities, at, u);
    } else {
      DrawnOld(c.elements, reply.created, u);
    }
  }

  lemma SavedMatches(s: Editor, reply: Reply)
    requires Inv(s) && s.pending.Some? && Honest(s, reply)
    ensures var c := s.pending.value;
            forall f :: f in s.facilities && f.id == c.facilityId ==> Matches(f.maps, SavedMapOf(c, reply))
  {
    var c := s.pending.value;
    forall f | f in s.facilities && f.id == c.facilityId
      ensures Matches(f.maps, SavedMapOf(c, reply))
    {
      OnlyFacility(s.facilities, f);
    }
  }

  lemma {:induction false} OnlyFacility(fs: seq<Facility>, f: Facility)
    requires DistinctFacilities(fs) && f in fs
    ensures FindFacility(fs, f.id) == Some(f)
  {
    if f != fs[0] {
      OnlyFacility(fs[1..], f);
    }
  }

  /** After the answer the stored floors are: all other floors as before, and on this floor the updated canvas. */
  lemma SavedCensus(s: Editor, reply: Reply, u: string)
    requires Inv(s) && s.pending.Some? && Honest(s, reply)
    ensures var c, after := s.pending.value, Answered(s, reply);
            var at := Place(c.facilityId, c.floor);
            && WellStored(after.facilities)
            && OnFacilities(after.facilities, Some(at), u) == OnFacilities(s.facilities, Some(at), u)
            && StoredIn(FindMap(MapsAt(after.facilities, at.facility), at.floor), u) == Drawn(after.elements, u)
  {
    var c, after := s.pending.value, Answered(s, reply);
    var saved := SavedMapOf(c, reply);
    SavedMatches(s, reply);
    UpdatedIsWell(s, reply);
    forall v
      ensures Stored(saved.elements, v) <= 1
    {
      StoredSaved(after.elements, saved.elements, v);
      UpdatedCensus(s, reply, v);
    }
    MergedIsWell(s.facilities, c.facilityId, saved);
    MergedElsewhere(s.facilities, c.facilityId, saved, u);
    MergedShape(s.facilities, c.facilityId, saved);
    var f := FindFacility(s.facilities, c.facilityId).value;
    PutMapKeeps(f.maps, saved, u);
    StoredSaved(after.elements, saved.elements, u);
  }

  lemma SavedSinglyEverywhere(s: Editor, reply: Reply)
    requires Inv(s) && s.pending.Some? && Honest(s, reply)
    ensures SinglySaved(Answered(s, reply).facilities)
  {
    var c, after := s.pending.value, Answered(s, reply);
    forall u
      ensures OnFacilities(after.facilities, None, u) <= 1
    {
      SavedCensus(s, reply, u);
      UpdatedCensus(s, reply, u);
      FacilitiesSplit(after.facilities, Place(c.facilityId, c.floor), u);
    }
  }

  // ---------------------------------------------------------------- theorems

  /**
   An answered save keeps placement single exactly when the floor it was sent from is still on screen, or the
   layout it sent had no units; everything else of the invariant holds either way.
   */
  lemma AnswerKeepsIff(s: Editor, reply: Reply)
    requires Inv(s) && s.pending.Some? && Honest(s, reply)
    ensures Inv(Answered(s, reply)) <==> SameFloorOrNoUnits(s)
  {
    var c, after := s.pending.value, Answered(s, reply);
    SavedCensus(s, reply, "");
    SavedSinglyEverywhere(s, reply);
    UpdatedIsWell(s, reply);
    if At(s) == Place(c.facilityId, c.floor) {
      SameFloorKeeps(s, reply);
    } else if forall e :: e in c.elements ==> e.kind != UnitKind {
      NoUnitsKeep(s, reply);
    } else {
      OtherFloorDuplicates(s, reply);
    }
  }

  lemma SameFloorKeeps(s: Editor, reply: Reply)
    requires Inv(s) && s.pending.Some? && Honest(s, reply)
    requires At(s) == Place(s.pending.value.facilityId, s.pending.value.floor)
    ensures SinglyPlaced(Answered(s, reply).facilities, At(Answered(s, reply)), Answered(s, reply).elements)
  {
    var after := Answered(s, reply);
    forall u
      ensures Census(after.facilities, At(after), after.elements, u) <= 1
    {
      SavedCensus(s, reply, u);
      UpdatedCensus(s, reply, u);
    }
  }

  lemma NoUnitsKeep(s: Editor, reply: Reply)
    requires Inv(s) && s.pending.Some? && Honest(s, reply)
    requires forall e :: e in s.pending.value.elements ==> e.kind != UnitKind
    ensures SinglyPlaced(Answered(s, reply).facilities, At(Answered(s, reply)), Answered(s, reply).elements)
  {
    var c, after := s.pending.value, Answered(s, reply);
    SavedCensus(s, reply, "");
    SavedSinglyEverywhere(s, reply);
    forall u
      ensures Census(after.facilities, At(after), after.elements, u) <= 1
    {
      DrawnSome(after.elements, u);
      forall e | e in after.elements
        ensures e.unitId != Some(u)
      {
        var i :| 0 <= i < |after.elements| && after.elements[i] == e;
        assert c.elements[i] in c.elements && Sound(c.elements[i]);
      }
      FacilitiesSplit(after.facilities, At(after), u);
      assert OnFacilities(after.facilities, None, u) <= 1;
    }
  }

  /** A floor's own elements are among those elsewhere once another floor is on screen. */
  lemma {:induction false} OtherFloorCounts(fs: seq<Facility>, here: Place, there: Place, u: string)
    requires DistinctFacilities(fs) && (forall f :: f in fs ==> DistinctMaps(f.maps)) && here != there
    ensures OnFacilities(fs, Some(here), u) >= StoredIn(FindMap(MapsAt(fs, there.facility), there.floor), u)
  {
    if fs != [] {
      assert fs[0] in fs;
      if fs[0].id == there.facility {
        OtherMapCounts(fs[0].maps, SkipIn(fs[0], Some(here)), there.floor, u);
      } else {
        assert forall f :: f in fs[1..] ==> f in fs;
        OtherFloorCounts(fs[1..], here, there, u);
      }
    }
  }

  lemma {:induction false} OtherMapCounts(maps: seq<FloorMap>, skip: Option<string>, name: string, u: string)
    requires skip != Some(name)
    ensures OnMaps(maps, skip, u) >= StoredIn(FindMap(maps, name), u)
  {
    if maps != [] && maps[0].name != name {
      OtherMapCounts(maps[1..], skip, name, u);
    }
  }

  lemma OtherFloorDuplicates(s: Editor, reply: Reply)
    requires Inv(s) && s.pending.Some? && Honest(s, reply)
    requires At(s) != Place(s.pending.value.facilityId, s.pending.value.floor)
    requires exists e :: e in s.pending.value.elements && e.kind == UnitKind
    ensures !SinglyPlaced(Answered(s, reply).facilities, At(Answered(s, reply)), Answered(s, reply).elements)
  {
    var c, after := s.pending.value, Answered(s, reply);
    var e :| e in c.elements && e.kind == UnitKind;
    var i :| 0 <= i < |c.elements| && c.elements[i] == e;
    var placed := after.elements[i];
    assert placed == WithCreated(e, reply.created) && placed.unitId.Some?;
    var u := placed.unitId.value;
    DrawnSome(after.elements, u);
    assert placed in after.elements;
    SavedCensus(s, reply, u);
    OtherFloorCounts(after.facilities, At(after), Place(c.facilityId, c.floor), u);
    assert Census(after.facilities, At(after), after.elements, u) >= 2;
  }

  /** After a save the store's units have no repeated id; none is lost and only those on the saved floor are added. */
  lemma UnitsAfterSave(s: Editor, reply: Reply)
    requires Inv(s) && s.pending.Some? && Honest(s, reply)
    ensures var c, after := s.pending.value, Answered(s, reply);
            && DistinctUnits(UnitsAt(after.facilities, c.facilityId))
            && forall id :: HasUnit(UnitsAt(after.facilities, c.facilityId), id)
                       <==> || HasUnit(UnitsAt(s.facilities, c.facilityId), id)
                            || HasUnit(SavedUnits(SavedMapOf(c, reply).elements), id)
  {
    var c := s.pending.value;
    var saved := SavedMapOf(c, reply);
    SavedCensus(s, reply, "");
    MergedShape(s.facilities, c.facilityId, saved);
    var f := FindFacility(s.facilities, c.facilityId).value;
    UpdatedIsWell(s, reply);
    forall v
      ensures Stored(saved.elements, v) <= 1
    {
      StoredSaved(Answered(s, reply).elements, saved.elements, v);
      UpdatedCensus(s, reply, v);
    }
    SavedUnitsDistinct(saved.elements);
    MergedUnitsKeep(f.units, SavedUnits(saved.elements));
  }

  /** A placed unit whose record is not on the canvas yet: `placeUnit` leaves `unitDetails` out. */
  predicate AwaitsDetails(e: Element) {
    e.unitId.Some? && e.details.None? && e.status.Some?
  }

  lemma SavedMapIsFound(s: Editor, reply: Reply)
    requires Inv(s) && s.pending.Some? && Honest(s, reply)
    ensures var c := s.pending.value;
            FindMap(MapsAt(Answered(s, reply).facilities, c.facilityId), c.floor) == Some(SavedMapOf(c, reply))
  {
    var c := s.pending.value;
    var saved := SavedMapOf(c, reply);
    SavedMatches(s, reply);
    MergedShape(s.facilities, c.facilityId, saved);
    var f := FindFacility(s.facilities, c.facilityId).value;
    PutMapKeeps(f.maps, saved, "");
  }

  lemma UpdatedSettles(es: seq<Element>, created: seq<Created>, i: nat)
    requires i < |es| && Sound(es[i]) && (NeedsUnit(es[i]) <==> FindCreated(created, es[i].id).Some?)
    ensures var e := UpdatedElements(es, created)[i];
            && (Settled(e) <==> e.caption != "" && !AwaitsDetails(e))
            && (Straight(e.kind) ==> e.rotation == 0)
  {
  }

  /**
   After a save, opening the saved floor again shows the canvas as it is exactly when no caption is empty and no
   unit was freshly placed; it never finds an old rotation.
   */
  lemma SavedFloorReopens(s: Editor, reply: Reply)
    requires Inv(s) && s.pending.Some? && Honest(s, reply)
    ensures var c, es := s.pending.value, Answered(s, reply).elements;
            var m := FindMap(MapsAt(Answered(s, reply).facilities, c.facilityId), c.floor);
            && !LegacyRotation(m)
            && (HydrateMap(m) == es <==> forall e :: e in es ==> e.caption != "" && !AwaitsDetails(e))
  {
    hide HydrateMap, LegacyRotation, FindMap, MapsAt, Merged;
    var c := s.pending.value;
    var es := UpdatedElements(c.elements, reply.created);
    SavedMapIsFound(s, reply);
    LayoutRoundTrip(reply.mapId, c.floor, c.width, c.height, es);
    forall e | e in es
      ensures (Settled(e) <==> e.caption != "" && !AwaitsDetails(e)) && (Straight(e.kind) ==> e.rotation == 0)
    {
      var i :| 0 <= i < |es| && es[i] == e;
      assert c.elements[i] in c.elements;
      UpdatedSettles(c.elements, reply.created, i);
    }
    StraightSavesStraight(reply.mapId, c.floor, c.width, c.height, es);
  }

  lemma StepKeepsInv(s: Editor, lower: string -> string, e: Event)
    requires Inv(s) && Possible(s, e) && (e.SaveAnswered? ==> SameFloorOrNoUnits(s))
    ensures Inv(Step(s, lower, e))
  {
    match e
    case SelectFacility(id) => FloorStepsKeep(s, lower, id);
    case SelectFloor(name) => FloorStepsKeep(s, lower, name);
    case AddFloor(name) => FloorStepsKeep(s, lower, name);
    case Load(payload, facility, floor, keep) => LoadKeeps(s, payload, facility, floor, keep);
    case Select(id) =>
    case AddShape(id, kind, frame, caption) =>
      AppendKeeps(s, Element(id, None, kind, frame, 0, caption, None, None, None, false, false));
    case Reshape(id, frame, caption, mirrored, flipped) => ReshapeKeeps(s, id, frame, caption, mirrored, flipped);
    case Rotate(degrees) => RotateKeeps(s, degrees);
    case MoveLayer(move) => MoveLayerKeeps(s, move);
    case RemoveSelected => RemoveKeeps(s);
    case DuplicateSelected(id) => DuplicateKeeps(s, id);
    case PlaceExisting(id, unitId, frame) => PlaceExistingKeeps(s, id, unitId, frame);
    case PlaceNew(id, draft, frame) => PlaceNewKeeps(s, lower, id, draft, frame);
    case SaveSent =>
    case SaveFailed =>
    case SaveAnswered(reply) => AnswerKeepsIff(s, reply);
  }

  lemma LoadKeeps(s: Editor, payload: seq<Facility>, facility: string, floor: string, keep: bool)
    requires Loadable(s, payload)
    ensures Inv(Loaded(s, payload, facility, floor, keep))
  {
    var after := Loaded(s, payload, facility, floor, keep);
    ShownKeeps(s.(facilities := payload), after.facilityId, after.floor, keep);
  }

  // ---------------------------------------------------------------- whole runs

  ghost predicate PossibleRun(s: Editor, lower: string -> string, es: seq<Event>)
    decreases |es|
  {
    es == [] || (Possible(s, es[0]) && PossibleRun(Step(s, lower, es[0]), lower, es[1..]))
  }

  /** Each answer that comes finds the floor it was sent from on screen, or a layout sent without units. */
  ghost predicate AnsweredAtHome(s: Editor, lower: string -> string, es: seq<Event>)
    decreases |es|
  {
    es == [] ||
    ((es[0].SaveAnswered? && s.pending.Some? ==> SameFloorOrNoUnits(s)) && AnsweredAtHome(Step(s, lower, es[0]), lower, es[1..]))
  }

  /** At every moment of the run no unit is on two elements of the draft and the other saved floors. */
  ghost predicate SingleThroughout(s: Editor, lower: string -> string, es: seq<Event>)
    decreases |es|
  {
    && SinglyPlaced(s.facilities, At(s), s.elements)
    && (es != [] ==> SingleThroughout(Step(s, lower, es[0]), lower, es[1..]))
  }

  /** Answers are the only steps that can break single placement, and they do exactly away from home. */
  lemma {:induction false} SingleThroughoutIff(s: Editor, lower: string -> string, es: seq<Event>)
    requires Inv(s) && PossibleRun(s, lower, es)
    ensures SingleThroughout(s, lower, es) <==> AnsweredAtHome(s, lower, es)
    decreases |es|
  {
    if es != [] {
      if es[0].SaveAnswered? && !SameFloorOrNoUnits(s) {
        OtherFloorDuplicates(s, es[0].reply);
      } else {
        StepKeepsInv(s, lower, es[0]);
        SingleThroughoutIff(Step(s, lower, es[0]), lower, es[1..]);
      }
    }
  }

  lemma {:induction false} RunKeepsInv(s: Editor, lower: string -> string, es: seq<Event>)
    requires Inv(s) && PossibleRun(s, lower, es) && AnsweredAtHome(s, lower, es)
    ensures Inv(Run(s, lower, es))
    decreases |es|
  {
    if es != [] {
      StepKeepsInv(s, lower, es[0]);
      RunKeepsInv(Step(s, lower, es[0]), lower, es[1..]);
    }
  }

  /**
   From a blank page, every unit is at all times on at most one element of the draft and the other saved floors
   exactly when each save is answered at home; and then no unit is ever stored on two elements either.
   */
  lemma SinglePlacement(lower: string -> string, es: seq<Event>)
    requires PossibleRun(Opened(), lower, es)
    ensures SingleThroughout(Opened(), lower, es) <==> AnsweredAtHome(Opened(), lower, es)
    ensures AnsweredAtHome(Opened(), lower, es) ==> SinglySaved(Run(Opened(), lower, es).facilities)
  {
    SingleThroughoutIff(Opened(), lower, es);
    if AnsweredAtHome(Opened(), lower, es) {
      RunKeepsInv(Opened(), lower, es);
    }
  }

  // ---------------------------------------------------------------- edits made while a save is out

  /** What remains of an element once its created unit is put aside. */
  function Drawing(e: Element): Element {
    e.(unitId := None, draft := None, details := None, status := None)
  }

  /** The two elements become one when the units of the answer are filled in. */
  predicate SameOnceCreated(e: Element, f: Element, created: seq<Created>) {
    if e.id == f.id && FindCreated(created, e.id).Some? then Drawing(e) == Drawing(f) else e == f
  }

  lemma WithCreatedAgrees(e: Element, f: Element, created: seq<Created>)
    ensures WithCreated(e, created) == WithCreated(f, created) <==> SameOnceCreated(e, f, created)
  {
  }

  /**
   An answer replaces the canvas by the one that was sent. Its elements are exactly those sent, so an element added
   meanwhile is gone and one removed is back; and the canvas is what the present one would have become exactly when
   nothing was edited since, apart from the units that the answer fills in.
   */
  lemma AnswerKeepsEditsIff(s: Editor, reply: Reply)
    requires s.pending.Some?
    ensures var c, after := s.pending.value, Answered(s, reply);
            && (forall id :: FindElement(after.elements, id).Some? <==> FindElement(c.elements, id).Some?)
            && (after.elements == UpdatedElements(s.elements, reply.created)
                <==> |s.elements| == |c.elements|
                     && forall i :: 0 <= i < |c.elements| ==> SameOnceCreated(c.elements[i], s.elements[i], reply.created))
  {
    var c, updated := s.pending.value, UpdatedElements(s.elements, reply.created);
    forall id
      ensures FindElement(Answered(s, reply).elements, id).Some? <==> FindElement(c.elements, id).Some?
    {
      UpdatedHasSameIds(c.elements, reply.created, id);
    }
    if |s.elements| == |c.elements| {
      forall i | 0 <= i < |c.elements|
        ensures Answered(s, reply).elements[i] == updated[i] <==> SameOnceCreated(c.elements[i], s.elements[i], reply.created)
      {
        WithCreatedAgrees(c.elements[i], s.elements[i], reply.created);
      }
    }
  }

  lemma {:induction false} UpdatedHasSameIds(es: seq<Element>, created: seq<Created>, id: string)
    ensures FindElement(UpdatedElements(es, created), id).Some? <==> FindElement(es, id).Some?
  {
    if es != [] {
      UpdatedHasSameIds(es[1..], created, id);
    }
  }

  // ---------------------------------------------------------------- a run that leaves the floor

  const UNIT_U := Unit("u", "1", "AVAILABLE")
  const ON_A := SavedElement("e", Some("u"), UnitKind, Frame(0, 0, 100, 90), 0, Some("1"), Some(UNIT_U), false, false)
  const FLOOR_A := FloorMap("ma", "A", 3000, 1800, [ON_A])
  const FLOOR_B := FloorMap("mb", "B", 3000, 1800, [])
  const STORE := Facility("f", [UNIT_U], [FLOOR_A, FLOOR_B])

  lemma StoreCounts(u: string)
    ensures OnFacilities([STORE], None, u) == OnFacilities([STORE], Some(Place("f", "B")), u) == (if u == "u" then 1 else 0)
    ensures OnFacilities([STORE], Some(Place("f", "A")), u) == 0
  {
    assert Stored([ON_A], u) == if u == "u" then 1 else 0;
    assert OnMaps([FLOOR_B], None, u) == OnMaps([FLOOR_B], Some("A"), u) == OnMaps([FLOOR_B], Some("B"), u) == 0;
    assert STORE.maps[1..] == [FLOOR_B];
    assert OnMaps(STORE.maps, None, u) == OnMaps(STORE.maps, Some("B"), u) == Stored([ON_A], u);
    assert OnMaps(STORE.maps, Some("A"), u) == 0;
  }

  function OnFloorA(): Editor {
    Editor([STORE], "f", "A", [HydrateElement(ON_A)], 3000, 1800, "", false, None)
  }

  lemma OnFloorAInv()
    ensures Inv(OnFloorA())
  {
    var s := OnFloorA();
    forall u
      ensures Census(s.facilities, At(s), s.elements, u) <= 1 && OnFacilities(s.facilities, None, u) <= 1
    {
      StoreCounts(u);
      assert Drawn(s.elements, u) == if u == "u" then 1 else 0;
    }
  }

  /** The save of floor A is out, and floor B is on screen. */
  function SentFromA(): Editor {
    Editor([STORE], "f", "B", [], 3000, 1800, "", false,
           Some(Captured("f", "A", 3000, 1800, [HydrateElement(ON_A)])))
  }

  lemma StoreLookups()
    ensures FindFacility([STORE], "f") == Some(STORE) && MapsAt([STORE], "f") == STORE.maps
    ensures FindMap(STORE.maps, "A") == Some(FLOOR_A) && FindMap(STORE.maps, "B") == Some(FLOOR_B)
  {
  }

  lemma SentHonest()
    ensures Honest(SentFromA(), Reply("ma", []))
  {
    StoreLookups();
  }

  lemma LeavesFloorA(lower: string -> string)
    ensures Step(Step(OnFloorA(), lower, SaveSent), lower, SelectFloor("B")) == SentFromA()
  {
    StoreLookups();
    var pending := Step(OnFloorA(), lower, SaveSent);
    assert HydrateMap(Some(FLOOR_B)) == [];
    assert pending.facilities == [STORE] && pending.facilityId == "f";
    assert Step(pending, lower, SelectFloor("B")) == Floored(pending, "B");
  }

  lemma SentInv(lower: string -> string)
    ensures Inv(SentFromA())
  {
    OnFloorAInv();
    LeavesFloorA(lower);
    StepKeepsInv(OnFloorA(), lower, SaveSent);
    StepKeepsInv(Step(OnFloorA(), lower, SaveSent), lower, SelectFloor("B"));
  }

  lemma SentElsewhere()
    ensures !SameFloorOrNoUnits(SentFromA())
  {
    var es := SentFromA().pending.value.elements;
    assert es[0] in es && es[0].kind == UnitKind;
  }

  lemma AnswerBreaks(s: Editor, lower: string -> string, reply: Reply)
    requires Inv(s) && s.pending.Some? && Honest(s, reply) && !SameFloorOrNoUnits(s)
    ensures !Inv(Step(s, lower, SaveAnswered(reply)))
  {
    hide Inv, Honest, SameFloorOrNoUnits, Answered;
    AnswerKeepsIff(s, reply);
  }

  lemma AnswerToAOnB(lower: string -> string, sent: Editor, reply: Reply)
    requires sent == SentFromA() && reply == Reply("ma", [])
    ensures Inv(sent) && Honest(sent, reply) && !Inv(Step(sent, lower, SaveAnswered(reply)))
  {
    SentInv(lower);
    SentHonest();
    SentElsewhere();
    AnswerBreaks(sent, lower, reply);
  }

  /** Leaving the floor while its save is out: unit "u" ends on saved floor A and on the canvas of floor B. */
  lemma FloorSwitchDuplicates(lower: string -> string) returns (sent: Editor, reply: Reply)
    ensures sent == Step(Step(OnFloorA(), lower, SaveSent), lower, SelectFloor("B")) && Inv(OnFloorA())
    ensures sent.pending.Some? && Honest(sent, reply) && !Inv(Step(sent, lower, SaveAnswered(reply)))
  {
    sent, reply := SentFromA(), Reply("ma", []);
    OnFloorAInv();
    LeavesFloorA(lower);
    AnswerToAOnB(lower, sent, reply);
  }

  /** The save of floor A is out, and a shape has been drawn since. */
  function DrawnSince(lower: string -> string): Editor {
    ShapeAdded(Sent(OnFloorA()), "z", Zone, Frame(0, 0, 100, 90), "Z")
  }

  lemma DrawnSinceInv(lower: string -> string)
    ensures Inv(DrawnSince(lower))
    ensures DrawnSince(lower)
         == Step(Step(OnFloorA(), lower, SaveSent), lower, AddShape("z", Zone, Frame(0, 0, 100, 90), "Z"))
  {
    OnFloorAInv();
    hide Inv;
    StepKeepsInv(OnFloorA(), lower, SaveSent);
    StepKeepsInv(Sent(OnFloorA()), lower, AddShape("z", Zone, Frame(0, 0, 100, 90), "Z"));
  }

  lemma DrawnSinceHonest(lower: string -> string)
    ensures DrawnSince(lower).pending.Some? && Honest(DrawnSince(lower), Reply("ma", [])) && SameFloorOrNoUnits(DrawnSince(lower))
  {
    StoreLookups();
  }

  lemma DrawnSinceElements(lower: string -> string)
    ensures FindElement(DrawnSince(lower).elements, "z").Some?
    ensures DrawnSince(lower).pending.Some? && FindElement(DrawnSince(lower).pending.value.elements, "z").None?
  {
    var es := DrawnSince(lower).elements;
    assert es[0].id == "e" && es[1..][0].id == "z";
  }

  /** A shape drawn while a save is out is on the canvas, and the answer takes it away again. */
  lemma AnswerDropsEdits(lower: string -> string) returns (reply: Reply)
    ensures var s := DrawnSince(lower);
            && s == Step(Step(OnFloorA(), lower, SaveSent), lower, AddShape("z", Zone, Frame(0, 0, 100, 90), "Z"))
            && Inv(s) && s.pending.Some? && Honest(s, reply) && FindElement(s.elements, "z").Some?
            && Inv(Answered(s, reply)) && FindElement(Answered(s, reply).elements, "z").None?
  {
    hide Inv, Honest, SameFloorOrNoUnits, Step, DrawnSince, Answered, FindElement;
    reply := Reply("ma", []);
    DrawnSinceInv(lower);
    DrawnSinceHonest(lower);
    DrawnSinceElements(lower);
    AnswerKeepsIff(DrawnSince(lower), reply);
    AnswerKeepsEditsIff(DrawnSince(lower), reply);
  }
}
