/** The state of the facility map editor and its steps; a save is two steps, sent and answered. */
module FacilityEditor {
  import opened Collections
  import opened FacilityMap

  /** What `save` closed over when it sent its request. */
  datatype Captured = Captured(facilityId: string, floor: string, width: int, height: int, elements: seq<Element>)

  datatype Created = Created(elementId: string, unit: Unit)

  datatype Reply = Reply(mapId: string, created: seq<Created>)

  datatype LayerMove = Front | Forward | Backward | Back

  datatype Editor = Editor(
    facilities: seq<Facility>, facilityId: string, floor: string, elements: seq<Element>,
    width: int, height: int, selectedId: string, dirty: bool, pending: Option<Captured>)

  datatype Event =
    | SelectFacility(facility: string)
    | SelectFloor(name: string)
    | AddFloor(name: string)
    | Load(payload: seq<Facility>, preferredFacility: string, preferredFloor: string, keepSelection: bool)
    | Select(id: string)
    | AddShape(id: string, kind: Kind, frame: Frame, caption: string)
    | Reshape(id: string, frame: Frame, caption: string, mirrored: bool, flipped: bool)
    | Rotate(degrees: int)
    | MoveLayer(move: LayerMove)
    | RemoveSelected
    | DuplicateSelected(id: string)
    | PlaceExisting(id: string, unitId: string, frame: Frame)
    | PlaceNew(id: string, draft: DraftUnit, frame: Frame)
    | SaveSent
    | SaveFailed
    | SaveAnswered(reply: Reply)

  function FindFacility(fs: seq<Facility>, id: string): (found: Option<Facility>)
    ensures found.Some? ==> found.value in fs && found.value.id == id
    ensures found.None? ==> forall f :: f in fs ==> f.id != id
  {
    if fs == [] then None else if fs[0].id == id then Some(fs[0]) else FindFacility(fs[1..], id)
  }

  function FindMap(maps: seq<FloorMap>, name: string): (found: Option<FloorMap>)
    ensures found.Some? ==> found.value in maps && found.value.name == name
    ensures found.None? ==> forall m :: m in maps ==> m.name != name
  {
    if maps == [] then None else if maps[0].name == name then Some(maps[0]) else FindMap(maps[1..], name)
  }

  function FindUnit(units: seq<Unit>, id: string): (found: Option<Unit>)
    ensures found.Some? ==> found.value in units && found.value.id == id
    ensures found.None? ==> forall u :: u in units ==> u.id != id
  {
    if units == [] then None else if units[0].id == id then Some(units[0]) else FindUnit(units[1..], id)
  }

  function FindElement(es: seq<Element>, id: string): (found: Option<Element>)
    ensures found.Some? ==> found.value in es && found.value.id == id
  {
    if es == [] then None else if es[0].id == id then Some(es[0]) else FindElement(es[1..], id)
  }

  function MapsAt(fs: seq<Facility>, id: string): seq<FloorMap> {
    match FindFacility(fs, id)
    case None => []
    case Some(f) => f.maps
  }

  function UnitsAt(fs: seq<Facility>, id: string): seq<Unit> {
    match FindFacility(fs, id)
    case None => []
    case Some(f) => f.units
  }

  function Max(a: int, b: int): int {
    if a < b then b else a
  }

  function Min(a: int, b: int): int {
    if a < b then a else b
  }

  // ---------------------------------------------------------------- moving between floors

  /** `hydrate(map)` at a floor. */
  function Show(s: Editor, facility: string, floor: string, m: Option<FloorMap>, keepSelection: bool): Editor {
    s.(facilityId := facility, floor := floor, elements := HydrateMap(m),
       width := if m.Some? then Max(m.value.width, 3000) else 3000,
       height := if m.Some? then Max(m.value.height, 1800) else 1800,
       selectedId := if keepSelection then s.selectedId else "", dirty := LegacyRotation(m))
  }

  function FirstFloor(fs: seq<Facility>, facility: string): string {
    var maps := MapsAt(fs, facility);
    if maps != [] && maps[0].name != "" then maps[0].name else "Ground floor"
  }

  function Selected(s: Editor, facility: string): Editor {
    var maps := MapsAt(s.facilities, facility);
    Show(s, facility, FirstFloor(s.facilities, facility), if maps == [] then None else Some(maps[0]), false)
  }

  function Floored(s: Editor, name: string): Editor {
    Show(s, s.facilityId, name, FindMap(MapsAt(s.facilities, s.facilityId), name), false)
  }

  function FloorAdded(s: Editor, lower: string -> string, name: string): Editor {
    if name == "" || exists m :: m in MapsAt(s.facilities, s.facilityId) && lower(m.name) == lower(name) then s
    else Show(s, s.facilityId, name, None, false).(dirty := true)
  }

  function Loaded(s: Editor, payload: seq<Facility>, facility: string, floor: string, keep: bool): Editor {
    var id := if facility != "" then facility else if s.facilityId != "" then s.facilityId
              else if payload != [] then payload[0].id else "";
    var name := if floor != "" then floor else if s.floor != "" then s.floor else FirstFloor(payload, id);
    Show(s.(facilities := payload), id, name, FindMap(MapsAt(payload, id), name), keep)
  }

  // ---------------------------------------------------------------- the canvas

  function Appended(s: Editor, e: Element): Editor {
    s.(elements := s.elements + [e], selectedId := e.id, dirty := true)
  }

  function ShapeAdded(s: Editor, id: string, kind: Kind, frame: Frame, caption: string): Editor {
    Appended(s, Element(id, None, kind, frame, 0, caption, None, None, None, false, false))
  }

  function PatchOne(e: Element, id: string, frame: Frame, caption: string, mirrored: bool, flipped: bool): Element {
    if e.id == id then e.(frame := frame, caption := caption, mirrored := mirrored, flipped := flipped) else e
  }

  /** `patchElement` with everything but the rotation. */
  function Reshaped(s: Editor, id: string, frame: Frame, caption: string, mirrored: bool, flipped: bool): Editor {
    s.(elements := seq(|s.elements|, i requires 0 <= i < |s.elements| =>
                         PatchOne(s.elements[i], id, frame, caption, mirrored, flipped)),
       dirty := true)
  }

  /** The remainder of JavaScript, which takes the sign of the dividend. */
  function Remainder(a: int, b: nat): int
    requires b > 0
  {
    if a < 0 then -(-a % b) else a % b
  }

  predicate Turns(k: Kind) {
    k.Door? || k.SingleDoor? || k.DoubleDoor? || k.Stairs? || k.ReturnStairs?
  }

  function RotateOne(e: Element, selected: Element, degrees: int): Element {
    if e.id != selected.id then e
    else if Turns(selected.kind) then e.(rotation := Remainder(selected.rotation + degrees, 360))
    else e.(frame := e.frame.(width := selected.frame.height, height := selected.frame.width), rotation := 0)
  }

  function Rotated(s: Editor, degrees: int): Editor {
    match FindElement(s.elements, s.selectedId)
    case None => s
    case Some(e) =>
      s.(elements := seq(|s.elements|, i requires 0 <= i < |s.elements| => RotateOne(s.elements[i], e, degrees)),
         dirty := true)
  }

  function NextLayer(index: nat, last: nat, move: LayerMove): (next: nat)
    requires index <= last
    ensures next <= last
  {
    match move
    case Front => last
    case Forward => Min(last, index + 1)
    case Backward => Max(0, index - 1)
    case Back => 0
  }

  /** Taking the element at `index` out and putting it back at `next`. */
  function Moved(es: seq<Element>, index: nat, next: nat): seq<Element>
    requires index < |es| && next < |es|
  {
    var rest := es[..index] + es[index + 1..];
    rest[..next] + [es[index]] + rest[next..]
  }

  function LayerMoved(s: Editor, move: LayerMove): Editor {
    match FindIndex(s.elements, (e: Element) => e.id == s.selectedId)
    case None => s
    case Some(i) => s.(elements := Moved(s.elements, i, NextLayer(i, |s.elements| - 1, move)), dirty := true)
  }

  function Removed(s: Editor): Editor {
    if FindElement(s.elements, s.selectedId).None? then s
    else s.(elements := Filter(s.elements, (e: Element) => e.id != s.selectedId), selectedId := "", dirty := true)
  }

  function Duplicated(s: Editor, id: string): Editor {
    match FindElement(s.elements, s.selectedId)
    case None => s
    case Some(e) =>
      if e.kind == UnitKind then s
      else
        Appended(s, e.(id := id, frame := e.frame.(x := Min(s.width - e.frame.width, e.frame.x + 20),
                                                   y := Min(s.height - e.frame.height, e.frame.y + 20))))
  }

  // ---------------------------------------------------------------- placing units

  /** `placedUnitIds`: the units on any saved floor of any facility. */
  function PlacedUnitIds(fs: seq<Facility>): set<string> {
    set f, m, e | f in fs && m in f.maps && e in m.elements && e.unitId.Some? :: e.unitId.value
  }

  /** `unavailableUnitIds`: those, and the units on the canvas. */
  function UnavailableUnitIds(s: Editor): set<string> {
    PlacedUnitIds(s.facilities) + (set e | e in s.elements && e.unitId.Some? :: e.unitId.value)
  }

  function DraftNumbers(es: seq<Element>): seq<string> {
    if es == [] then []
    else (if es[0].draft.Some? then [es[0].draft.value.number] else []) + DraftNumbers(es[1..])
  }

  predicate NumberTaken(units: seq<Unit>, drafts: seq<string>, lower: string -> string, number: string) {
    || (exists u :: u in units && lower(u.number) == lower(number))
    || (exists d :: d in drafts && lower(d) == lower(number))
  }

  function FirstNonEmpty(a: string, b: string): string {
    if a != "" then a else b
  }

  /** `submit` in the "existing" mode, and `placeUnit`. */
  function ExistingPlaced(s: Editor, id: string, unitId: string, frame: Frame): Editor {
    match FindUnit(UnitsAt(s.facilities, s.facilityId), unitId)
    case None => s
    case Some(u) =>
      if unitId in UnavailableUnitIds(s) then s
      else Appended(s, Element(id, Some(unitId), UnitKind, frame, 0, FirstNonEmpty(u.number, "Unit"),
                               Some(FirstNonEmpty(u.status, "AVAILABLE")), None, None, false, false))
  }

  /** `submit` in the "new" mode, and `placeUnit`. */
  function NewPlaced(s: Editor, lower: string -> string, id: string, draft: DraftUnit, frame: Frame): Editor {
    if NumberTaken(UnitsAt(s.facilities, s.facilityId), DraftNumbers(s.elements), lower, draft.number) then s
    else Appended(s, Element(id, None, UnitKind, frame, 0, FirstNonEmpty(draft.number, "Unit"),
                             Some("AVAILABLE"), Some(draft), None, false, false))
  }

  // ---------------------------------------------------------------- saving

  function Sent(s: Editor): Editor {
    if s.facilityId == "" || s.floor == "" then s
    else s.(pending := Some(Captured(s.facilityId, s.floor, s.width, s.height, s.elements)))
  }

  function FindCreated(created: seq<Created>, id: string): (found: Option<Created>)
    ensures found.Some? ==> found.value in created && found.value.elementId == id
    ensures found.None? ==> forall c :: c in created ==> c.elementId != id
  {
    if created == [] then None else if created[0].elementId == id then Some(created[0]) else FindCreated(created[1..], id)
  }

  function WithCreated(e: Element, created: seq<Created>): Element {
    match FindCreated(created, e.id)
    case None => e
    case Some(c) =>
      e.(unitId := Some(c.unit.id), draft := None, details := Some(c.unit), status := Some(c.unit.status))
  }

  function UpdatedElements(es: seq<Element>, created: seq<Created>): (updated: seq<Element>)
    ensures |updated| == |es| && forall i :: 0 <= i < |es| ==> updated[i] == WithCreated(es[i], created)
  {
    if es == [] then [] else [WithCreated(es[0], created)] + UpdatedElements(es[1..], created)
  }

  function SavedUnits(es: seq<SavedElement>): seq<Unit> {
    if es == [] then [] else (if es[0].unit.Some? then [es[0].unit.value] else []) + SavedUnits(es[1..])
  }

  function ReplaceMap(maps: seq<FloorMap>, saved: FloorMap): seq<FloorMap> {
    if maps == [] then []
    else [if maps[0].id == saved.id then saved else maps[0]] + ReplaceMap(maps[1..], saved)
  }

  function PutMap(maps: seq<FloorMap>, saved: FloorMap): seq<FloorMap> {
    if exists m :: m in maps && m.id == saved.id then ReplaceMap(maps, saved) else maps + [saved]
  }

  function MergedUnits(units: seq<Unit>, saved: seq<Unit>): seq<Unit> {
    Filter(units, (u: Unit) => !exists v :: v in saved && v.id == u.id) + saved
  }

  function MergedFacility(f: Facility, saved: FloorMap): Facility {
    Facility(f.id, MergedUnits(f.units, SavedUnits(saved.elements)), PutMap(f.maps, saved))
  }

  function Merged(fs: seq<Facility>, facility: string, saved: FloorMap): seq<Facility> {
    if fs == [] then []
    else [if fs[0].id == facility then MergedFacility(fs[0], saved) else fs[0]] + Merged(fs[1..], facility, saved)
  }

  function SavedMapOf(c: Captured, reply: Reply): FloorMap {
    SaveMap(reply.mapId, c.floor, c.width, c.height, UpdatedElements(c.elements, reply.created))
  }

  /** The answer overwrites the canvas with what was sent, whatever floor is shown by then. */
  function Answered(s: Editor, reply: Reply): Editor
    requires s.pending.Some?
  {
    var c := s.pending.value;
    s.(elements := UpdatedElements(c.elements, reply.created),
       facilities := Merged(s.facilities, c.facilityId, SavedMapOf(c, reply)),
       dirty := false, pending := None)
  }

  // ---------------------------------------------------------------- steps

  function Step(s: Editor, lower: string -> string, e: Event): Editor {
    match e
    case SelectFacility(id) => Selected(s, id)
    case SelectFloor(name) => Floored(s, name)
    case AddFloor(name) => FloorAdded(s, lower, name)
    case Load(payload, facility, floor, keep) => Loaded(s, payload, facility, floor, keep)
    case Select(id) => s.(selectedId := id)
    case AddShape(id, kind, frame, caption) => ShapeAdded(s, id, kind, frame, caption)
    case Reshape(id, frame, caption, mirrored, flipped) => Reshaped(s, id, frame, caption, mirrored, flipped)
    case Rotate(degrees) => Rotated(s, degrees)
    case MoveLayer(move) => LayerMoved(s, move)
    case RemoveSelected => Removed(s)
    case DuplicateSelected(id) => Duplicated(s, id)
    case PlaceExisting(id, unitId, frame) => ExistingPlaced(s, id, unitId, frame)
    case PlaceNew(id, draft, frame) => NewPlaced(s, lower, id, draft, frame)
    case SaveSent => Sent(s)
    case SaveFailed => s.(pending := None)
    case SaveAnswered(reply) => if s.pending.Some? then Answered(s, reply) else s
  }

  function Run(s: Editor, lower: string -> string, es: seq<Event>): Editor
    decreases |es|
  {
    if es == [] then s else Run(Step(s, lower, es[0]), lower, es[1..])
  }

  function Opened(): Editor {
    Editor([], "", "", [], 3000, 1800, "", false, None)
  }
}
