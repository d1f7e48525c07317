/** Facility layouts: the saved maps, the draft canvas, and the two conversions between them. */
module FacilityMap {
  import opened Collections

  datatype Kind = UnitKind | Zone | Wall | FireWall | PartitionWall | Door | Window | Label | RollerShutter
                | SingleDoor | DoubleDoor | Stairs | ReturnStairs | Lift | Table | Chair | Cupboard | Roof

  datatype Unit = Unit(id: string, number: string, status: string)

  /** A unit that exists only on the canvas; the service creates it when the layout is saved. */
  datatype DraftUnit = DraftUnit(typeId: string, number: string)

  datatype Frame = Frame(x: int, y: int, width: int, height: int)

  datatype SavedElement = SavedElement(
    id: string, unitId: Option<string>, kind: Kind, frame: Frame, rotation: int, caption: Option<string>,
    unit: Option<Unit>, mirrored: bool, flipped: bool)

  datatype Element = Element(
    id: string, unitId: Option<string>, kind: Kind, frame: Frame, rotation: int, caption: string,
    status: Option<string>, draft: Option<DraftUnit>, details: Option<Unit>, mirrored: bool, flipped: bool)

  datatype FloorMap = FloorMap(id: string, name: string, width: int, height: int, elements: seq<SavedElement>)

  datatype Facility = Facility(id: string, units: seq<Unit>, maps: seq<FloorMap>)

  function KindName(k: Kind): (name: string)
    ensures name != ""
  {
    match k
    case UnitKind => "UNIT"
    case Zone => "ZONE"
    case Wall => "WALL"
    case FireWall => "FIRE_WALL"
    case PartitionWall => "PARTITION_WALL"
    case Door => "DOOR"
    case Window => "WINDOW"
    case Label => "LABEL"
    case RollerShutter => "ROLLER_SHUTTER"
    case SingleDoor => "SINGLE_DOOR"
    case DoubleDoor => "DOUBLE_DOOR"
    case Stairs => "STAIRS"
    case ReturnStairs => "RETURN_STAIRS"
    case Lift => "LIFT"
    case Table => "TABLE"
    case Chair => "CHAIR"
    case Cupboard => "CUPBOARD"
    case Roof => "ROOF"
  }

  /** Walls and windows are drawn unrotated; older layouts stored them turned. */
  predicate Straight(k: Kind) {
    k.Wall? || k.FireWall? || k.PartitionWall? || k.Window?
  }

  predicate Turned(e: SavedElement) {
    Straight(e.kind) && e.rotation % 180 != 0
  }

  function StatusOf(unit: Option<Unit>): Option<string> {
    match unit
    case None => None
    case Some(u) => Some(u.status)
  }

  function ShownLabel(e: SavedElement): string {
    if e.caption.Some? && e.caption.value != "" then e.caption.value
    else if e.unit.Some? && e.unit.value.number != "" then e.unit.value.number
    else KindName(e.kind)
  }

  /** One element as `hydrate` puts it on the canvas. */
  function HydrateElement(e: SavedElement): Element {
    var frame := if Turned(e) then e.frame.(width := e.frame.height, height := e.frame.width) else e.frame;
    Element(e.id, e.unitId, e.kind, frame, if Straight(e.kind) then 0 else e.rotation, ShownLabel(e),
            StatusOf(e.unit), None, e.unit, e.mirrored, e.flipped)
  }

  function HydrateMap(m: Option<FloorMap>): seq<Element> {
    match m
    case None => []
    case Some(shown) => Map(shown.elements, HydrateElement)
  }

  predicate LegacyRotation(m: Option<FloorMap>) {
    m.Some? && exists e :: e in m.value.elements && Turned(e)
  }

  /** One element of the map that `save` rebuilds from the canvas. */
  function SaveElement(e: Element): SavedElement {
    SavedElement(e.id, e.unitId, e.kind, e.frame, e.rotation, Some(e.caption), e.details, e.mirrored, e.flipped)
  }

  function SaveMap(id: string, name: string, width: int, height: int, elements: seq<Element>): FloorMap {
    FloorMap(id, name, width, height, Map(elements, SaveElement))
  }

  // ---------------------------------------------------------------- what hydrating shows

  /** How far a wall or window that is turned by `rotation` reaches to the right and down. */
  function Reach(frame: Frame, rotation: int): (int, int) {
    if rotation % 180 == 0 then (frame.width, frame.height) else (frame.height, frame.width)
  }

  /** `shown` is `e` on the canvas: the same thing at the same corner, walls and windows upright with the same reach. */
  predicate ShownAs(e: SavedElement, shown: Element) {
    && shown.id == e.id && shown.kind == e.kind && shown.mirrored == e.mirrored && shown.flipped == e.flipped
    && shown.unitId == e.unitId && shown.details == e.unit && shown.draft == None
    && (shown.status.Some? <==> e.unit.Some?) && (e.unit.Some? ==> shown.status.value == e.unit.value.status)
    && (shown.frame.x, shown.frame.y) == (e.frame.x, e.frame.y)
    && (if e.kind in {Wall, FireWall, PartitionWall, Window} then
          shown.rotation == 0 && Reach(shown.frame, 0) == Reach(e.frame, e.rotation)
        else
          shown.rotation == e.rotation && shown.frame == e.frame)
    && shown.caption != "" && (e.caption.Some? && e.caption.value != "" ==> shown.caption == e.caption.value)
    && ((e.caption.None? || e.caption.value == "") && e.unit.Some? && e.unit.value.number != "" ==>
          shown.caption == e.unit.value.number)
  }

  lemma ElementIsShown(e: SavedElement)
    ensures ShownAs(e, HydrateElement(e))
  {
  }

  /** A turned wall or window is shown as the same one stored upright, with width and height exchanged. */
  lemma TurnedIsUpright(e: SavedElement)
    requires e.kind in {Wall, FireWall, PartitionWall, Window} && e.rotation % 180 != 0
    ensures HydrateElement(e)
         == HydrateElement(e.(rotation := 0, frame := Frame(e.frame.x, e.frame.y, e.frame.height, e.frame.width)))
  {
  }

  /** Hydrating shows every element of the map, in order, and asks for a save exactly when it had to straighten one. */
  lemma MapIsShown(m: FloorMap)
    ensures |HydrateMap(Some(m))| == |m.elements|
    ensures forall i :: 0 <= i < |m.elements| ==> ShownAs(m.elements[i], HydrateMap(Some(m))[i])
    ensures LegacyRotation(Some(m))
       <==> exists i :: && 0 <= i < |m.elements| && m.elements[i].rotation % 180 != 0
                        && m.elements[i].kind in {Wall, FireWall, PartitionWall, Window}
  {
    forall i | 0 <= i < |m.elements|
      ensures ShownAs(m.elements[i], HydrateMap(Some(m))[i])
    {
      ElementIsShown(m.elements[i]);
    }
    if i :| 0 <= i < |m.elements| && m.elements[i].rotation % 180 != 0
            && m.elements[i].kind in {Wall, FireWall, PartitionWall, Window} {
      assert m.elements[i] in m.elements && Turned(m.elements[i]);
    }
  }

  // ---------------------------------------------------------------- hydrating what was saved

  /** What saving and hydrating leaves alone. */
  predicate Settled(e: Element) {
    && (Straight(e.kind) ==> e.rotation == 0)
    && e.caption != ""
    && e.draft.None?
    && e.status == StatusOf(e.details)
  }

  lemma ElementRoundTrip(e: Element)
    ensures HydrateElement(SaveElement(e)) == e <==> Settled(e)
  {
  }

  /** A layout comes back from its saved form unchanged exactly when every element is settled. */
  lemma LayoutRoundTrip(id: string, name: string, width: int, height: int, elements: seq<Element>)
    ensures HydrateMap(Some(SaveMap(id, name, width, height, elements))) == elements
       <==> forall e :: e in elements ==> Settled(e)
  {
    var again := HydrateMap(Some(SaveMap(id, name, width, height, elements)));
    forall i | 0 <= i < |elements|
      ensures again[i] == elements[i] <==> Settled(elements[i])
    {
      ElementRoundTrip(elements[i]);
    }
    if again == elements {
      forall e | e in elements
        ensures Settled(e)
      {
        var i :| 0 <= i < |elements| && elements[i] == e;
        assert again[i] == elements[i];
      }
    }
  }

  lemma HydratedIsSettled(e: SavedElement)
    ensures Settled(HydrateElement(e))
  {
  }

  /** Normalising geometry is a projection: a second save and hydrate changes nothing and finds no old rotation. */
  lemma HydrationIsAProjection(m: Option<FloorMap>, id: string, name: string, width: int, height: int)
    ensures HydrateMap(Some(SaveMap(id, name, width, height, HydrateMap(m)))) == HydrateMap(m)
    ensures !LegacyRotation(Some(SaveMap(id, name, width, height, HydrateMap(m))))
  {
    var elements := HydrateMap(m);
    forall e | e in elements
      ensures Settled(e)
    {
      var i :| 0 <= i < |elements| && elements[i] == e;
      HydratedIsSettled(m.value.elements[i]);
    }
    LayoutRoundTrip(id, name, width, height, elements);
    StraightSavesStraight(id, name, width, height, elements);
  }

  lemma StraightSavesStraight(id: string, name: string, width: int, height: int, elements: seq<Element>)
    requires forall e :: e in elements && Straight(e.kind) ==> e.rotation == 0
    ensures !LegacyRotation(Some(SaveMap(id, name, width, height, elements)))
  {
    var saved := SaveMap(id, name, width, height, elements).elements;
    forall e | e in saved
      ensures !Turned(e)
    {
      var i :| 0 <= i < |saved| && saved[i] == e;
      assert elements[i] in elements;
    }
  }
}
