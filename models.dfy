/** The scenario data model: units, combat events, frames, scenarios and
    scenario extensions, the two enumerations they use, and the field
    constraints the model declares for each of them. */
module Models {

  /** Terrain codes stored in the terrain matrix. */
  datatype TerrainType = Open | Water | Urban | Forest

  /** The integer stored in the terrain matrix for each terrain type. */
  function TerrainCode(t: TerrainType): (code: int)
    ensures 0 <= code <= 3
  {
    match t
    case Open => 0
    case Water => 1
    case Urban => 2
    case Forest => 3
  }

  /** The terrain type a code stands for, if it stands for one. */
  function TerrainOf(code: int): (t: Option<TerrainType>)
    ensures t.Some? <==> 0 <= code <= 3
    ensures t.Some? ==> TerrainCode(t.value) == code
  {
    if code == 0 then Some(Open)
    else if code == 1 then Some(Water)
    else if code == 2 then Some(Urban)
    else if code == 3 then Some(Forest)
    else None
  }

  /** Decoding the code of a terrain type gives that terrain type back. */
  lemma TerrainCodeRoundTrip(t: TerrainType)
    ensures TerrainOf(TerrainCode(t)) == Some(t)
  {
  }

  /** The code the validator treats as impassable. */
  const WATER: int := TerrainCode(Water)

  /** The two sides of a scenario. */
  datatype Side = Blue | Red

  datatype Option<T> = None | Some(value: T)

  /** Kinds of entries in a frame's combat log; the model admits exactly these six. */
  datatype ActionType = Move | Fire | Suppression | Retreat | Reinforce | Intel

  datatype Unit = Unit(
    unitId: string,
    side: Side,
    unitType: string,
    x: int,
    y: int,
    health: int,
    range: int,
    status: string)

  /** Field constraints of a unit: coordinates not negative (no upper bound:
      bounds are the validator's business), health a percentage, range at least one
      cell. */
  predicate ValidUnit(u: Unit) {
    u.x >= 0 && u.y >= 0 && 0 <= u.health <= 100 && u.range >= 1
  }

  const DEFAULT_HEALTH: int := 100
  const DEFAULT_RANGE: int := 1
  const DEFAULT_STATUS: string := "Active"

  /** A unit built from its required fields; health, range and status take
      their defaults, and the defaults satisfy the field constraints. */
  function NewUnit(unitId: string, side: Side, unitType: string, x: int, y: int): (u: Unit)
    ensures u.unitId == unitId && u.side == side && u.unitType == unitType
    ensures u.x == x && u.y == y
    ensures u.health == 100 && u.range == 1 && u.status == "Active"
    ensures ValidUnit(u) <==> x >= 0 && y >= 0
  {
    Unit(unitId, side, unitType, x, y, DEFAULT_HEALTH, DEFAULT_RANGE, DEFAULT_STATUS)
  }

  datatype CombatEvent = CombatEvent(
    sourceUnitId: string,
    targetUnitId: Option<string>,
    actionType: ActionType,
    details: string,
    outcome: Option<string>)

  /** A combat event built from its required fields; target and outcome are absent. */
  function NewCombatEvent(sourceUnitId: string, actionType: ActionType, details: string): (e: CombatEvent)
    ensures e.sourceUnitId == sourceUnitId && e.actionType == actionType && e.details == details
    ensures e.targetUnitId.None? && e.outcome.None?
  {
    CombatEvent(sourceUnitId, None, actionType, details, None)
  }

  /** A consistency violation found by the validator. The squared distance of a
      move stands for the distance formatted into the message. */
  datatype ValidationError =
    | OutOfBounds(unitId: string, x: int, y: int)
    | InWater(unitId: string, x: int, y: int)
    | TooFast(unitId: string, distSq: int)

  datatype Frame = Frame(
    description: string,
    units: seq<Unit>,
    combatLog: seq<CombatEvent>,
    validationErrors: seq<ValidationError>)

  /** A frame built from a description and units; combat log and errors start empty. */
  function NewFrame(description: string, units: seq<Unit>): (f: Frame)
    ensures f.description == description && f.units == units
    ensures f.combatLog == [] && f.validationErrors == []
  {
    Frame(description, units, [], [])
  }

  predicate ValidFrame(f: Frame) {
    forall k :: 0 <= k < |f.units| ==> ValidUnit(f.units[k])
  }

  /** A terrain matrix (rows of codes) and frames in time order. */
  datatype WargameScenario = WargameScenario(terrain: seq<seq<int>>, frames: seq<Frame>)

  /** Frames that continue an existing scenario; it carries no terrain. */
  datatype ScenarioExtension = ScenarioExtension(frames: seq<Frame>)

  predicate ValidScenario(s: WargameScenario) {
    forall i :: 0 <= i < |s.frames| ==> ValidFrame(s.frames[i])
  }

  predicate ValidExtension(e: ScenarioExtension) {
    forall i :: 0 <= i < |e.frames| ==> ValidFrame(e.frames[i])
  }
}
