/** What the actions of the map editor do, said of the layouts, the stored floors and the units themselves. */
module FacilityActions {
  import opened Collections
  import opened FacilityMap
  import opened FacilityEditor
  import opened FacilityPlacement
  import opened FacilitySave

  // ---------------------------------------------------------------- choosing a floor

  /** The canvas shows the stored floor `m`, or is blank. */
  ghost predicate CanvasShows(s: Editor, m: Option<FloorMap>) {
    match m
    case None => s.elements == [] && s.width == 3000 && s.height == 1800 && !s.dirty
    case Some(shown) =>
      && |s.elements| == |shown.elements| && (forall i :: 0 <= i < |s.elements| ==> ShownAs(shown.elements[i], s.elements[i]))
      && s.width == (if shown.width < 3000 then 3000 else shown.width)
      && s.height == (if shown.height < 1800 then 1800 else shown.height)
      && (s.dirty <==> exists i :: && 0 <= i < |shown.elements| && shown.elements[i].rotation % 180 != 0
                                   && shown.elements[i].kind in {Wall, FireWall, PartitionWall, Window})
  }

  lemma ShowShows(s: Editor, facility: string, floor: string, m: Option<FloorMap>, keep: bool)
    ensures CanvasShows(Show(s, facility, floor, m, keep), m)
  {
    if m.Some? {
      MapIsShown(m.value);
    }
    hide HydrateMap, LegacyRotation, ShownAs;
  }

  lemma {:induction false} FoundByName(maps: seq<FloorMap>, i: nat)
    requires DistinctMaps(maps) && i < |maps|
    ensures FindMap(maps, maps[i].name) == Some(maps[i])
  {
    if i > 0 {
      FoundByName(maps[1..], i - 1);
    }
  }

  /** A floor with a stored layout shows it; any other name shows a blank canvas; nothing stored and nothing sent changes. */
  lemma FloorChosen(s: Editor, lower: string -> string, name: string)
    requires DistinctMaps(MapsAt(s.facilities, s.facilityId))
    ensures var after := Step(s, lower, SelectFloor(name));
            && after.floor == name && after.selectedId == "" && after.facilityId == s.facilityId
            && after.facilities == s.facilities && after.pending == s.pending
            && (forall m :: m in MapsAt(s.facilities, s.facilityId) && m.name == name ==> CanvasShows(after, Some(m)))
            && ((forall m :: m in MapsAt(s.facilities, s.facilityId) ==> m.name != name) ==> CanvasShows(after, None))
  {
    var maps := MapsAt(s.facilities, s.facilityId);
    forall m | m in maps && m.name == name
      ensures FindMap(maps, name) == Some(m)
    {
      var i :| 0 <= i < |maps| && maps[i] == m;
      FoundByName(maps, i);
    }
    hide CanvasShows, Show;
    ShowShows(s, s.facilityId, name, FindMap(maps, name), false);
    FlooredIs(s, lower, name);
  }

  lemma FlooredIs(s: Editor, lower: string -> string, name: string)
    ensures var after := Step(s, lower, SelectFloor(name));
            && after == Show(s, s.facilityId, name, FindMap(MapsAt(s.facilities, s.facilityId), name), false)
            && after.floor == name && after.selectedId == "" && after.facilityId == s.facilityId
            && after.facilities == s.facilities && after.pending == s.pending
  {
    hide HydrateMap, LegacyRotation, FindMap, MapsAt;
  }

  /** Choosing a store shows its first floor, or a blank ground floor. */
  lemma StoreChosen(s: Editor, lower: string -> string, id: string)
    ensures var maps, after := MapsAt(s.facilities, id), Step(s, lower, SelectFacility(id));
            && after.facilityId == id && after.facilities == s.facilities && after.pending == s.pending && after.selectedId == ""
            && (maps == [] ==> after.floor == "Ground floor" && CanvasShows(after, None))
            && (maps != [] ==> CanvasShows(after, Some(maps[0])) && (maps[0].name != "" ==> after.floor == maps[0].name))
  {
    var maps := MapsAt(s.facilities, id);
    ShowShows(s, id, FirstFloor(s.facilities, id), if maps == [] then None else Some(maps[0]), false);
    hide CanvasShows, HydrateMap, LegacyRotation;
  }

  /** A new floor is blank and waits to be saved; a name in use, ignoring case, or no name at all, changes nothing. */
  lemma FloorAddedIff(s: Editor, lower: string -> string, name: string)
    ensures var after := Step(s, lower, AddFloor(name));
            if name == "" || exists m :: m in MapsAt(s.facilities, s.facilityId) && lower(m.name) == lower(name) then after == s
            else
              && after.floor == name && after.elements == [] && after.width == 3000 && after.height == 1800 && after.dirty
              && after.facilities == s.facilities && after.facilityId == s.facilityId && after.pending == s.pending
  {
    hide MapsAt;
  }

  /**
   Reading the stores again goes to the store and floor asked for, or else stays where it is, or else starts with the
   first; and shows what is stored there by then.
   */
  lemma LoadShows(s: Editor, lower: string -> string, payload: seq<Facility>, facility: string, floor: string, keep: bool)
    ensures var after := Step(s, lower, Load(payload, facility, floor, keep));
            && after.facilities == payload && after.pending == s.pending && after.selectedId == (if keep then s.selectedId else "")
            && CanvasShows(after, FindMap(MapsAt(payload, after.facilityId), after.floor))
            && (facility != "" ==> after.facilityId == facility) && (floor != "" ==> after.floor == floor)
            && (facility == "" && s.facilityId != "" ==> after.facilityId == s.facilityId)
            && (floor == "" && s.floor != "" ==> after.floor == s.floor)
            && (facility == s.facilityId == "" && payload != [] ==> after.facilityId == payload[0].id)
            && (floor == s.floor == "" && MapsAt(payload, after.facilityId) != [] ==>
                  after.floor == if MapsAt(payload, after.facilityId)[0].name != "" then MapsAt(payload, after.facilityId)[0].name
                                 else "Ground floor")
  {
    var after := Step(s, lower, Load(payload, facility, floor, keep));
    LoadedIs(s, lower, payload, facility, floor, keep);
    ShowShows(s.(facilities := payload), after.facilityId, after.floor, FindMap(MapsAt(payload, after.facilityId), after.floor), keep);
    hide CanvasShows, HydrateMap, LegacyRotation, FindMap, MapsAt, Show;
  }

  lemma LoadedIs(s: Editor, lower: string -> string, payload: seq<Facility>, facility: string, floor: string, keep: bool)
    ensures var after := Step(s, lower, Load(payload, facility, floor, keep));
            && after == Show(s.(facilities := payload), after.facilityId, after.floor,
                             FindMap(MapsAt(payload, after.facilityId), after.floor), keep)
            && after.facilities == payload && after.pending == s.pending && after.selectedId == (if keep then s.selectedId else "")
            && (facility != "" ==> after.facilityId == facility) && (floor != "" ==> after.floor == floor)
            && (facility == "" && s.facilityId != "" ==> after.facilityId == s.facilityId)
            && (floor == "" && s.floor != "" ==> after.floor == s.floor)
            && (facility == s.facilityId == "" && payload != [] ==> after.facilityId == payload[0].id)
            && (floor == s.floor == "" ==> after.floor == FirstFloor(payload, after.facilityId))
  {
    hide HydrateMap, LegacyRotation, FindMap, MapsAt, FirstFloor;
  }

  // ---------------------------------------------------------------- saving

  /** `e` of the canvas as the service holds it once the units in `created` exist. */
  ghost predicate HeldAs(e: Element, created: seq<Created>, held: SavedElement) {
    && held.id == e.id && held.kind == e.kind && held.frame == e.frame && held.rotation == e.rotation
    && held.caption == Some(e.caption) && held.mirrored == e.mirrored && held.flipped == e.flipped
    && if e.kind == UnitKind && e.unitId.None? then
         exists r :: r in created && r.elementId == e.id && held.unitId == Some(r.unit.id) && held.unit == Some(r.unit)
       else held.unitId == e.unitId && held.unit == e.details
  }

  /** The same element on the canvas once the answer has come. */
  ghost predicate DrawnAs(e: Element, created: seq<Created>, shown: Element) {
    && shown.id == e.id && shown.kind == e.kind && shown.frame == e.frame && shown.rotation == e.rotation
    && shown.caption == e.caption && shown.mirrored == e.mirrored && shown.flipped == e.flipped
    && if e.kind == UnitKind && e.unitId.None? then
         exists r :: && r in created && r.elementId == e.id && shown.unitId == Some(r.unit.id) && shown.details == Some(r.unit)
                     && shown.status == Some(r.unit.status) && shown.draft.None?
       else shown.unitId == e.unitId && shown.details == e.details && shown.status == e.status && shown.draft == e.draft
  }

  lemma ElementSaved(e: Element, created: seq<Created>)
    requires NeedsUnit(e) <==> FindCreated(created, e.id).Some?
    ensures DrawnAs(e, created, WithCreated(e, created)) && HeldAs(e, created, SaveElement(WithCreated(e, created)))
  {
  }

  /** Every floor but the saved one is untouched, in its place; the saved one is replaced in place or added last. */
  ghost predicate OnlyFloorChanges(maps: seq<FloorMap>, floor: string, maps': seq<FloorMap>) {
    && |maps'| == (if exists m :: m in maps && m.name == floor then |maps| else |maps| + 1)
    && forall j :: 0 <= j < |maps'| ==>
         if j < |maps| && maps[j].name != floor then maps'[j] == maps[j] else maps'[j].name == floor
  }

  ghost predicate OnlyFacilityChanges(fs: seq<Facility>, facility: string, floor: string, fs': seq<Facility>) {
    && |fs'| == |fs|
    && forall i :: 0 <= i < |fs| ==>
         && fs'[i].id == fs[i].id
         && if fs[i].id == facility then OnlyFloorChanges(fs[i].maps, floor, fs'[i].maps) else fs'[i] == fs[i]
  }

  lemma PutMapChanges(maps: seq<FloorMap>, saved: FloorMap)
    requires DistinctMaps(maps) && Matches(maps, saved)
    ensures OnlyFloorChanges(maps, saved.name, PutMap(maps, saved))
  {
    assert forall j :: 0 <= j < |maps| ==> maps[j] in maps;
    if exists m :: m in maps && m.id == saved.id {
      ReplaceMapKeeps(maps, saved, "");
    }
  }

  lemma MergedChanges(s: Editor, reply: Reply)
    requires Inv(s) && s.pending.Some? && Honest(s, reply)
    ensures var c := s.pending.value; OnlyFacilityChanges(s.facilities, c.facilityId, c.floor, Answered(s, reply).facilities)
  {
    var c := s.pending.value;
    SavedMatches(s, reply);
    InvStored(s);
    AnsweredStores(s, reply);
    hide Inv, Honest, Merged, Answered, WellStored, SavedMapOf;
    StoreChanges(s.facilities, c.facilityId, SavedMapOf(c, reply));
  }

  lemma AnsweredStores(s: Editor, reply: Reply)
    requires s.pending.Some?
    ensures var c := s.pending.value;
            Answered(s, reply).facilities == Merged(s.facilities, c.facilityId, SavedMapOf(c, reply)) && SavedMapOf(c, reply).name == c.floor
  {
    hide Merged;
  }

  lemma StoreChanges(fs: seq<Facility>, facility: string, saved: FloorMap)
    requires WellStored(fs) && forall f :: f in fs && f.id == facility ==> Matches(f.maps, saved)
    ensures OnlyFacilityChanges(fs, facility, saved.name, Merged(fs, facility, saved))
  {
    MergedShape(fs, facility, saved);
    hide Merged, OnlyFloorChanges, Matches;
    forall i | 0 <= i < |fs| && fs[i].id == facility
      ensures OnlyFloorChanges(fs[i].maps, saved.name, Merged(fs, facility, saved)[i].maps)
    {
      assert fs[i] in fs;
      PutMapChanges(fs[i].maps, saved);
    }
  }

  lemma InvStored(s: Editor)
    requires Inv(s)
    ensures WellStored(s.facilities)
  {
  }

  /** The canvas shows the layout `es`, with its new units filled in. */
  ghost predicate CanvasHas(shown: seq<Element>, es: seq<Element>, created: seq<Created>) {
    |shown| == |es| && forall i :: 0 <= i < |es| ==> DrawnAs(es[i], created, shown[i])
  }

  /** The store holds the layout `es`, with its new units, under the floor's name and with this size. */
  ghost predicate StoreHas(fs: seq<Facility>, c: Captured, created: seq<Created>) {
    exists m :: && FindMap(MapsAt(fs, c.facilityId), c.floor) == Some(m)
                && m.name == c.floor && m.width == c.width && m.height == c.height && |m.elements| == |c.elements|
                && forall i :: 0 <= i < |c.elements| ==> HeldAs(c.elements[i], created, m.elements[i])
  }

  /** What the answer leaves of the layout that was sent. */
  lemma AnswerStores(s: Editor, reply: Reply)
    requires Inv(s) && s.pending.Some? && Honest(s, reply)
    ensures var c, after := s.pending.value, Answered(s, reply);
            CanvasHas(after.elements, c.elements, reply.created) && StoreHas(after.facilities, c, reply.created)
  {
    var c, after, m := s.pending.value, Answered(s, reply), SavedMapOf(s.pending.value, reply);
    SavedMapIsFound(s, reply);
    assert forall e :: e in c.elements ==> (NeedsUnit(e) <==> FindCreated(reply.created, e.id).Some?);
    hide Inv, Honest, Merged, FindMap, MapsAt, DrawnAs, HeldAs;
    forall i | 0 <= i < |c.elements|
      ensures DrawnAs(c.elements[i], reply.created, after.elements[i])
      ensures HeldAs(c.elements[i], reply.created, m.elements[i])
    {
      assert c.elements[i] in c.elements;
      ElementSaved(c.elements[i], reply.created);
    }
  }

  lemma AnsweringKeepsPlace(s: Editor, lower: string -> string, reply: Reply)
    requires s.pending.Some?
    ensures var after := Step(s, lower, SaveAnswered(reply));
            && after == Answered(s, reply) && !after.dirty && after.pending.None?
            && (after.facilityId, after.floor, after.width, after.height, after.selectedId)
               == (s.facilityId, s.floor, s.width, s.height, s.selectedId)
  {
  }

  /**
   Saving a layout, with nothing in between: the canvas stays, with its new units filled in; the store holds exactly it,
   under the name and with the size on screen; every other floor of every store is untouched; nothing waits to be saved.
   */
  lemma SaveStoresCanvas(s: Editor, lower: string -> string, reply: Reply)
    requires Inv(s) && s.pending.None? && s.facilityId != "" && s.floor != ""
    requires Step(s, lower, SaveSent).pending.Some? && Honest(Step(s, lower, SaveSent), reply)
    ensures var after := Step(Step(s, lower, SaveSent), lower, SaveAnswered(reply));
            && (after.facilityId, after.floor, after.width, after.height, after.selectedId)
               == (s.facilityId, s.floor, s.width, s.height, s.selectedId)
            && !after.dirty && after.pending.None?
            && CanvasHas(after.elements, s.elements, reply.created)
            && StoreHas(after.facilities, Captured(s.facilityId, s.floor, s.width, s.height, s.elements), reply.created)
            && OnlyFacilityChanges(s.facilities, s.facilityId, s.floor, after.facilities)
  {
    hide Inv, Honest, OnlyFacilityChanges, CanvasHas, StoreHas, Step;
    var sent := Step(s, lower, SaveSent);
    SendingKeeps(s, lower);
    MergedChanges(sent, reply);
    AnswerStores(sent, reply);
    AnsweringKeepsPlace(sent, lower, reply);
  }

  lemma SendingKeeps(s: Editor, lower: string -> string)
    requires Inv(s) && s.pending.None? && s.facilityId != "" && s.floor != ""
    ensures var sent := Step(s, lower, SaveSent);
            && Inv(sent) && sent == s.(pending := sent.pending)
            && sent.pending == Some(Captured(s.facilityId, s.floor, s.width, s.height, s.elements))
  {
    StepKeepsInv(s, lower, SaveSent);
  }

  /** A save that fails leaves everything as it is, still to be saved, and another may be sent. */
  lemma FailedSaveKeeps(s: Editor, lower: string -> string)
    requires Inv(s) && s.pending.None?
    ensures Step(Step(s, lower, SaveSent), lower, SaveFailed) == s
  {
  }

  /** Leaving a saved floor and coming back shows it as it was left, exactly when no caption is empty and no unit lacks details. */
  lemma LeavingAndReturning(s: Editor, lower: string -> string, reply: Reply, other: string)
    requires Inv(s) && s.pending.Some? && Honest(s, reply) && s.facilityId == s.pending.value.facilityId
    ensures var after := Answered(s, reply);
            var back := Step(Step(after, lower, SelectFloor(other)), lower, SelectFloor(s.pending.value.floor));
            back.elements == after.elements <==> forall e :: e in after.elements ==> e.caption != "" && !AwaitsDetails(e)
  {
    var after := Answered(s, reply);
    SavedFloorReopens(s, reply);
    FlooredIs(after, lower, other);
    FlooredIs(Step(after, lower, SelectFloor(other)), lower, s.pending.value.floor);
    hide Step, Answered, HydrateMap, FindMap, MapsAt, Inv, Honest;
  }

  // ---------------------------------------------------------------- changing the canvas

  ghost predicate SelectedAt(s: Editor, i: nat) {
    DistinctElementIds(s.elements) && i < |s.elements| && s.elements[i].id == s.selectedId
  }

  /** Selecting an element changes nothing else. */
  lemma SelectionOf(s: Editor, lower: string -> string, i: nat)
    requires DistinctElementIds(s.elements) && i < |s.elements|
    ensures var after := Step(s, lower, Select(s.elements[i].id));
            SelectedAt(after, i) && after == s.(selectedId := after.selectedId)
  {
  }

  /** A shape goes last, unturned and without a unit, and is selected. */
  lemma ShapeOf(s: Editor, lower: string -> string, id: string, kind: Kind, frame: Frame, caption: string)
    ensures var after := Step(s, lower, AddShape(id, kind, frame, caption));
            && after == s.(elements := after.elements, selectedId := id, dirty := true)
            && |after.elements| == |s.elements| + 1 && after.elements[..|s.elements|] == s.elements
            && var e := after.elements[|s.elements|];
               && e.id == id && e.kind == kind && e.frame == frame && e.rotation == 0 && e.caption == caption
               && e.unitId.None? && e.draft.None? && e.details.None?
  {
  }

  /** Changing one element keeps what and whose it is, and every other element. */
  lemma ReshapeOf(s: Editor, lower: string -> string, i: nat, frame: Frame, caption: string, mirrored: bool, flipped: bool)
    requires DistinctElementIds(s.elements) && i < |s.elements|
    ensures Step(s, lower, Reshape(s.elements[i].id, frame, caption, mirrored, flipped))
         == s.(elements := s.elements[i := s.elements[i].(frame := frame, caption := caption, mirrored := mirrored, flipped := flipped)],
               dirty := true)
  {
    var after := Step(s, lower, Reshape(s.elements[i].id, frame, caption, mirrored, flipped));
    assert forall j :: 0 <= j < |s.elements| && j != i ==> after.elements[j] == s.elements[j];
    assert after.elements == s.elements[i := after.elements[i]];
  }

  /** Rotating turns a door or stairs, within one full turn, and lays anything else on its other side; nothing else changes. */
  lemma RotationOf(s: Editor, lower: string -> string, degrees: int, i: nat)
    requires SelectedAt(s, i)
    ensures var e, after := s.elements[i], Step(s, lower, Rotate(degrees));
            && after == s.(elements := s.elements[i := after.elements[i]], dirty := true)
            && (if e.kind in {Door, SingleDoor, DoubleDoor, Stairs, ReturnStairs} then
                  && after.elements[i] == e.(rotation := after.elements[i].rotation)
                  && -360 < after.elements[i].rotation < 360
                  && (e.rotation + degrees - after.elements[i].rotation) % 360 == 0
                  && (e.rotation + degrees >= 0 ==> after.elements[i].rotation >= 0)
                else
                  after.elements[i] == e.(rotation := 0, frame := Frame(e.frame.x, e.frame.y, e.frame.height, e.frame.width)))
  {
    FoundById(s.elements, i);
    var after := Step(s, lower, Rotate(degrees));
    hide Remainder, FindElement;
    assert forall j :: 0 <= j < |s.elements| && j != i ==> after.elements[j] == s.elements[j];
    assert after.elements == s.elements[i := after.elements[i]];
    RemainderIs(s.elements[i].rotation + degrees);
  }

  lemma RemainderIs(a: int)
    ensures -360 < Remainder(a, 360) < 360 && (a - Remainder(a, 360)) % 360 == 0 && (a >= 0 ==> Remainder(a, 360) >= 0)
  {
  }

  lemma {:induction false} RemovedAround(es: seq<Element>, i: nat, keep: Element -> bool)
    requires i < |es| && forall j :: 0 <= j < |es| ==> (keep(es[j]) <==> j != i)
    ensures Filter(es, keep) == es[..i] + es[i + 1..]
  {
    if i == 0 {
      FilterAll(es[1..], keep);
    } else {
      RemovedAround(es[1..], i - 1, keep);
      assert es[..i] + es[i + 1..] == [es[0]] + (es[1..][..i - 1] + es[1..][i..]);
    }
  }

  /** Removing takes the selected element away, and only it. */
  lemma RemovalOf(s: Editor, lower: string -> string, i: nat)
    requires SelectedAt(s, i)
    ensures Step(s, lower, RemoveSelected)
         == s.(elements := s.elements[..i] + s.elements[i + 1..], selectedId := "", dirty := true)
  {
    FoundById(s.elements, i);
    RemovedAround(s.elements, i, (e: Element) => e.id != s.selectedId);
  }

  /** A copy goes last, next to its original but inside the canvas, and is selected; a unit is not copied. */
  lemma DuplicateOf(s: Editor, lower: string -> string, id: string, i: nat)
    requires SelectedAt(s, i)
    ensures var e, after := s.elements[i], Step(s, lower, DuplicateSelected(id));
            if e.kind == UnitKind then after == s
            else
              && |after.elements| == |s.elements| + 1 && after.elements[..|s.elements|] == s.elements && after.selectedId == id
              && var copy := after.elements[|s.elements|];
                 && copy == e.(id := id, frame := copy.frame)
                 && copy.frame.width == e.frame.width && copy.frame.height == e.frame.height
                 && copy.frame.x + e.frame.width <= s.width && copy.frame.y + e.frame.height <= s.height
                 && copy.frame.x <= e.frame.x + 20 && (e.frame.x + 20 + e.frame.width <= s.width ==> copy.frame.x == e.frame.x + 20)
                 && copy.frame.y <= e.frame.y + 20 && (e.frame.y + 20 + e.frame.height <= s.height ==> copy.frame.y == e.frame.y + 20)
  {
    FoundById(s.elements, i);
  }

  /** Moving in the stack: to the top, up or down by one, or to the bottom, the others keeping their order. */
  lemma LayerOf(s: Editor, lower: string -> string, move: LayerMove, i: nat)
    requires SelectedAt(s, i)
    ensures var es, after := s.elements, Step(s, lower, MoveLayer(move)).elements;
            exists next: nat :: && next < |es| == |after| && after[next] == es[i]
                                && after[..next] + after[next + 1..] == es[..i] + es[i + 1..]
                                && (move.Front? ==> next == |es| - 1) && (move.Back? ==> next == 0)
                                && (move.Forward? ==> next == if i + 1 < |es| then i + 1 else i)
                                && (move.Backward? ==> next == if i == 0 then 0 else i - 1)
  {
    MoveLayerMoves(s, move, i);
    assert NextLayer(i, |s.elements| - 1, move) < |s.elements|;
  }

  // ---------------------------------------------------------------- placing units

  /**
   A unit is placed exactly when the store has it and it is on no element, of the canvas or of any saved floor. It then
   goes last, once, under its own number; otherwise nothing changes.
   */
  lemma PlacedExistingIff(s: Editor, lower: string -> string, id: string, u: Unit, frame: Frame)
    requires WellStored(s.facilities) && u in UnitsAt(s.facilities, s.facilityId)
    ensures var after := Step(s, lower, PlaceExisting(id, u.id, frame));
            if Drawn(s.elements, u.id) == 0 && OnFacilities(s.facilities, None, u.id) == 0 then
              && Drawn(after.elements, u.id) == 1 && after.selectedId == id && after.dirty
              && |after.elements| == |s.elements| + 1 && after.elements[..|s.elements|] == s.elements
              && var e := after.elements[|s.elements|];
                 && e.id == id && e.kind == UnitKind && e.unitId == Some(u.id) && e.frame == frame && e.draft.None?
                 && (u.number != "" ==> e.caption == u.number) && (u.status != "" ==> e.status == Some(u.status))
            else after == s
  {
    OnlyUnit(s, u);
    PlacedIffCounted(s.facilities, u.id);
    DrawnSome(s.elements, u.id);
    hide WellStored, UnitsAt;
    var added := Element(id, Some(u.id), UnitKind, frame, 0, FirstNonEmpty(u.number, "Unit"),
                         Some(FirstNonEmpty(u.status, "AVAILABLE")), None, None, false, false);
    DrawnSplit(s.elements, [added], u.id);
    assert Drawn([added], u.id) == 1 + Drawn([], u.id);
    hide PlacedUnitIds, OnFacilities, Drawn;
  }

  lemma OnlyUnit(s: Editor, u: Unit)
    requires WellStored(s.facilities) && u in UnitsAt(s.facilities, s.facilityId)
    ensures FindUnit(UnitsAt(s.facilities, s.facilityId), u.id) == Some(u)
  {
    var units := UnitsAt(s.facilities, s.facilityId);
    assert DistinctUnits(units);
  }

  lemma {:induction false} DraftNumbersAre(es: seq<Element>, number: string)
    ensures number in DraftNumbers(es) <==> exists e :: e in es && e.draft.Some? && e.draft.value.number == number
  {
    if es != [] {
      DraftNumbersAre(es[1..], number);
      if e :| e in es && e.draft.Some? && e.draft.value.number == number {
        assert e == es[0] || e in es[1..];
      }
    }
  }

  /** A new unit is placed exactly when no unit of the store and no new unit on the canvas has its number, ignoring case. */
  lemma PlacedNewIff(s: Editor, lower: string -> string, id: string, draft: DraftUnit, frame: Frame)
    ensures var after := Step(s, lower, PlaceNew(id, draft, frame));
            if (exists u :: u in UnitsAt(s.facilities, s.facilityId) && lower(u.number) == lower(draft.number))
               || (exists e :: e in s.elements && e.draft.Some? && lower(e.draft.value.number) == lower(draft.number)) then after == s
            else
              && |after.elements| == |s.elements| + 1 && after.elements[..|s.elements|] == s.elements
              && after.selectedId == id && after.dirty
              && var e := after.elements[|s.elements|];
                 && e.id == id && e.kind == UnitKind && e.unitId.None? && e.draft == Some(draft) && e.frame == frame
                 && (draft.number != "" ==> e.caption == draft.number) && e.status == Some("AVAILABLE")
  {
    TakenIff(UnitsAt(s.facilities, s.facilityId), s.elements, lower, draft.number);
    hide DraftNumbers, NumberTaken;
  }

  lemma TakenIff(units: seq<Unit>, es: seq<Element>, lower: string -> string, number: string)
    ensures NumberTaken(units, DraftNumbers(es), lower, number)
       <==> || (exists u :: u in units && lower(u.number) == lower(number))
            || (exists e :: e in es && e.draft.Some? && lower(e.draft.value.number) == lower(number))
  {
    forall n
      ensures n in DraftNumbers(es) <==> exists e :: e in es && e.draft.Some? && e.draft.value.number == n
    {
      DraftNumbersAre(es, n);
    }
    if e :| e in es && e.draft.Some? && lower(e.draft.value.number) == lower(number) {
      assert e.draft.value.number in DraftNumbers(es);
    }
  }
}
