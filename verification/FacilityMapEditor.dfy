/**
 The map editor component: its state variables, and the handlers that loop or decide, proved against the steps of the
 model. The handlers that only choose a floor, or change the canvas by one expression, are steps of the model alone.
 */
module FacilityMapEditor {
  import opened Collections
  import opened FacilityMap
  import opened FacilityEditor
  import opened FacilityActions

  class MapEditor {
    var facilities: seq<Facility>
    var facilityId: string
    var floorName: string
    var elements: seq<Element>
    var width: int
    var height: int
    var selectedId: string
    var dirty: bool
    var inFlight: Option<Captured>

    constructor ()
      ensures View() == Editor([], "", "", [], 3000, 1800, "", false, None)
    {
      facilities, facilityId, floorName, elements := [], "", "", [];
      width, height, selectedId, dirty, inFlight := 3000, 1800, "", false, None;
    }

    function View(): Editor
      reads this
    {
      Editor(facilities, facilityId, floorName, elements, width, height, selectedId, dirty, inFlight)
    }

    /** `hydrate(map, preserveSelection)`, on the floor already chosen. */
    method Hydrate(m: Option<FloorMap>, preserveSelection: bool)
      modifies this
      ensures View() == Show(old(View()), old(facilityId), old(floorName), m, preserveSelection)
      ensures m.Some? ==> |elements| == |m.value.elements|
                          && forall i :: 0 <= i < |elements| ==> ShownAs(m.value.elements[i], elements[i])
    {
      if m.Some? {
        MapIsShown(m.value);
      }
      var legacy := false;
      var shown: seq<Element> := [];
      width, height := 3000, 1800;
      if m.Some? {
        width, height := Max(m.value.width, 3000), Max(m.value.height, 1800);
        for i := 0 to |m.value.elements|
          invariant shown == Map(m.value.elements[..i], HydrateElement)
          invariant legacy <==> exists e :: e in m.value.elements[..i] && Turned(e)
        {
          var e := m.value.elements[i];
          assert m.value.elements[..i + 1] == m.value.elements[..i] + [e];
          legacy := legacy || Turned(e);
          shown := shown + [HydrateElement(e)];
        }
        assert m.value.elements[..|m.value.elements|] == m.value.elements;
      }
      elements := shown;
      if !preserveSelection {
        selectedId := "";
      }
      dirty := legacy;
    }

    method PlaceUnit(freshId: string, unit: Option<Unit>, draft: Option<DraftUnit>, frame: Frame)
      modifies this
      ensures View() == Appended(old(View()), Element(freshId, if unit.Some? then Some(unit.value.id) else None, UnitKind,
                                                      frame, 0, UnitCaption(unit, draft), Some(UnitStatus(unit)), draft,
                                                      None, false, false))
    {
      var unitId := if unit.Some? then Some(unit.value.id) else None;
      elements := elements + [Element(freshId, unitId, UnitKind, frame, 0, UnitCaption(unit, draft),
                                      Some(UnitStatus(unit)), draft, None, false, false)];
      selectedId := freshId;
      dirty := true;
    }

    /** `submit` of the placement dialog for a unit of the store. */
    method SubmitExisting(freshId: string, unitId: string, frame: Frame)
      modifies this
      ensures View() == ExistingPlaced(old(View()), freshId, unitId, frame)
    {
      var unit := FindUnit(UnitsAt(facilities, facilityId), unitId);
      if unit.Some? && unitId !in UnavailableUnitIds(View()) {
        PlaceUnit(freshId, unit, None, frame);
      }
    }

    /** `submit` for a new unit; a number in use, in any case, is refused. */
    method SubmitNew(lower: string -> string, freshId: string, draft: DraftUnit, frame: Frame) returns (taken: bool)
      modifies this
      ensures View() == NewPlaced(old(View()), lower, freshId, draft, frame)
      ensures taken <==> || (exists u :: u in UnitsAt(old(facilities), old(facilityId)) && lower(u.number) == lower(draft.number))
                         || (exists e :: e in old(elements) && e.draft.Some? && lower(e.draft.value.number) == lower(draft.number))
    {
      TakenIff(UnitsAt(facilities, facilityId), elements, lower, draft.number);
      taken := NumberTaken(UnitsAt(facilities, facilityId), DraftNumbers(elements), lower, draft.number);
      if !taken {
        PlaceUnit(freshId, None, Some(draft), frame);
      }
    }

    /** `save` up to its `await`. */
    method SendSave()
      modifies this
      ensures View() == Sent(old(View()))
    {
      if facilityId == "" || floorName == "" {
        return;
      }
      inFlight := Some(Captured(facilityId, floorName, width, height, elements));
    }

    /** `save` after a good response, with the values it closed over. */
    method FinishSave(reply: Reply)
      requires inFlight.Some?
      modifies this
      ensures View() == Answered(old(View()), reply)
    {
      var sent := inFlight.value;
      var updated: seq<Element> := [];
      for i := 0 to |sent.elements|
        invariant |updated| == i
        invariant forall j :: 0 <= j < i ==> updated[j] == WithCreated(sent.elements[j], reply.created)
      {
        updated := updated + [WithCreated(sent.elements[i], reply.created)];
      }
      assert updated == UpdatedElements(sent.elements, reply.created);
      elements := updated;
      facilities := Merged(facilities, sent.facilityId, SaveMap(reply.mapId, sent.floor, sent.width, sent.height, updated));
      dirty := false;
      inFlight := None;
    }
  }

  function UnitCaption(unit: Option<Unit>, draft: Option<DraftUnit>): string {
    FirstNonEmpty(if unit.Some? then unit.value.number else if draft.Some? then draft.value.number else "", "Unit")
  }

  function UnitStatus(unit: Option<Unit>): string {
    FirstNonEmpty(if unit.Some? then unit.value.status else "", "AVAILABLE")
  }
}
