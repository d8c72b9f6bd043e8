/** The consistency validator: for every frame, in order, it replaces the
    frame's validation errors by the out-of-bounds and water errors of its
    units (in unit order) followed by the movement-speed errors against the
    immediately preceding frame. */
module Validator {
  import opened Models

  /** Number of rows of the terrain matrix. */
  function Height(t: seq<seq<int>>): nat { |t| }

  /** Length of the first row, or 0 when there are no rows. */
  function Width(t: seq<seq<int>>): nat { if |t| > 0 then |t[0]| else 0 }

  predicate InBounds(t: seq<seq<int>>, x: int, y: int) {
    0 <= x < Width(t) && 0 <= y < Height(t)
  }

  /** An in-bounds cell that exists in its row and holds the Water code; a
      cell beyond the end of a short row is not water. */
  predicate IsWaterCell(t: seq<seq<int>>, x: int, y: int) {
    InBounds(t, x, y) && x < |t[y]| && t[y][x] == WATER
  }

  /** Largest squared distance a unit may move between adjacent frames:
      3.0 tiles, squared, so that the check stays in integers. */
  const MAX_SPEED_SQ: int := 9

  function DistSq(a: Unit, b: Unit): nat {
    (a.x - b.x) * (a.x - b.x) + (a.y - b.y) * (a.y - b.y)
  }

  /** There is a unit with this id in the list. */
  predicate HasId(us: seq<Unit>, id: string) {
    exists k :: 0 <= k < |us| && us[k].unitId == id
  }

  predicate NoDuplicates(ids: seq<string>) {
    forall j, k :: 0 <= j < k < |ids| ==> ids[j] != ids[k]
  }

  // ---------------------------------------------------------------------
  // The dictionary of the current frame's units, keyed by id.
  // ---------------------------------------------------------------------

  /** The keys of the dictionary built from a unit list, in insertion order. */
  function FirstIds(us: seq<Unit>): seq<string> {
    if |us| == 0 then []
    else
      var ids := FirstIds(us[..|us| - 1]);
      if us[|us| - 1].unitId in ids then ids else ids + [us[|us| - 1].unitId]
  }

  /** The values of that dictionary: a later unit with the same id replaces
      an earlier one. */
  function IndexById(us: seq<Unit>): map<string, Unit> {
    if |us| == 0 then map[]
    else IndexById(us[..|us| - 1])[us[|us| - 1].unitId := us[|us| - 1]]
  }

  /** A unit has an id iff some unit in the list, or the list without its last element, has it. */
  lemma HasIdSnoc(us: seq<Unit>, id: string)
    requires |us| > 0
    ensures HasId(us, id) <==> HasId(us[..|us| - 1], id) || us[|us| - 1].unitId == id
  {
    var front := us[..|us| - 1];
    if HasId(us, id) {
      var k :| 0 <= k < |us| && us[k].unitId == id;
      if k < |us| - 1 { assert front[k] == us[k]; }
    }
    if HasId(front, id) {
      var k :| 0 <= k < |front| && front[k].unitId == id;
      assert us[k] == front[k];
    }
  }

  /** Insertion order: the keys of the dictionary built from a prefix of the
      list are the first keys of the whole list's dictionary, in that order. */
  lemma {:induction false} FirstIdsPrefix(us: seq<Unit>, m: nat)
    requires m <= |us|
    ensures |FirstIds(us[..m])| <= |FirstIds(us)|
    ensures FirstIds(us)[..|FirstIds(us[..m])|] == FirstIds(us[..m])
    decreases |us| - m
  {
    if m == |us| {
      assert us[..m] == us;
    } else {
      FirstIdsPrefix(us, m + 1);
      assert us[..m + 1][..m] == us[..m];
      var shorter, longer := FirstIds(us[..m]), FirstIds(us[..m + 1]);
      assert longer[..|shorter|] == shorter;
      assert FirstIds(us)[..|longer|][..|shorter|] == FirstIds(us)[..|shorter|];
    }
  }

  /** The dictionary's keys are each id of the list once, in the order of
      first appearance, and its values are units of the list under their own ids. */
  lemma {:induction false} DictionaryOfUnits(us: seq<Unit>)
    ensures NoDuplicates(FirstIds(us))
    ensures forall id :: id in FirstIds(us) <==> HasId(us, id)
    ensures forall m :: 0 <= m <= |us| ==>
      |FirstIds(us[..m])| <= |FirstIds(us)| && FirstIds(us)[..|FirstIds(us[..m])|] == FirstIds(us[..m])
    ensures forall id :: id in IndexById(us) <==> HasId(us, id)
    ensures forall id :: id in IndexById(us) ==> IndexById(us)[id].unitId == id && IndexById(us)[id] in us
  {
    if |us| > 0 {
      var front := us[..|us| - 1];
      DictionaryOfUnits(front);
      forall id ensures HasId(us, id) <==> HasId(front, id) || us[|us| - 1].unitId == id {
        HasIdSnoc(us, id);
      }
      assert forall u :: u in front ==> u in us;
    }
    forall m | 0 <= m <= |us|
      ensures |FirstIds(us[..m])| <= |FirstIds(us)| && FirstIds(us)[..|FirstIds(us[..m])|] == FirstIds(us[..m])
    {
      FirstIdsPrefix(us, m);
    }
  }

  /** The dictionary entry of a duplicated id is its last occurrence. */
  lemma {:induction false} LastOccurrenceWins(us: seq<Unit>, k: nat)
    requires k < |us|
    requires forall j :: k < j < |us| ==> us[j].unitId != us[k].unitId
    ensures us[k].unitId in IndexById(us) && IndexById(us)[us[k].unitId] == us[k]
  {
    if k < |us| - 1 {
      var front := us[..|us| - 1];
      assert front[k] == us[k];
      forall j | k < j < |front| ensures front[j].unitId != front[k].unitId {
        assert front[j] == us[j];
      }
      LastOccurrenceWins(front, k);
    }
  }

  // ---------------------------------------------------------------------
  // Rule 1 and 2: bounds and water, per unit, in unit order.
  // ---------------------------------------------------------------------

  /** The placement errors of one unit: out of bounds (and then no terrain
      check), or in water, or nothing. */
  function UnitSpotErrors(t: seq<seq<int>>, u: Unit): seq<ValidationError> {
    if !InBounds(t, u.x, u.y) then [OutOfBounds(u.unitId, u.x, u.y)]
    else if IsWaterCell(t, u.x, u.y) then [InWater(u.unitId, u.x, u.y)]
    else []
  }

  /** The placement errors of a frame's units, in unit order; never a speed error. */
  function SpotErrors(t: seq<seq<int>>, us: seq<Unit>): seq<ValidationError> {
    if |us| == 0 then []
    else SpotErrors(t, us[..|us| - 1]) + UnitSpotErrors(t, us[|us| - 1])
  }

  /** At most one placement error per unit, and never a speed error. */
  lemma {:induction false} SpotErrorsShape(t: seq<seq<int>>, us: seq<Unit>)
    ensures forall k :: 0 <= k < |us| ==> |UnitSpotErrors(t, us[k])| <= 1
    ensures |SpotErrors(t, us)| <= |us|
    ensures forall k :: 0 <= k < |SpotErrors(t, us)| ==> !SpotErrors(t, us)[k].TooFast?
  {
    if |us| > 0 {
      SpotErrorsShape(t, us[..|us| - 1]);
    }
  }

  // ---------------------------------------------------------------------
  // Rule 3: movement speed against the previous frame's dictionary.
  // ---------------------------------------------------------------------

  /** Speed errors for the given ids, in their order, against the previous
      frame's dictionary; an id the previous frame does not have is exempt.
      (The ids always come from the current dictionary; the guard on cur only
      keeps the function total.) */
  function MoveErrorsOver(prev: map<string, Unit>, ids: seq<string>, cur: map<string, Unit>): seq<ValidationError> {
    if |ids| == 0 then []
    else
      var id := ids[|ids| - 1];
      MoveErrorsOver(prev, ids[..|ids| - 1], cur) +
        if id in prev && id in cur && DistSq(cur[id], prev[id]) > MAX_SPEED_SQ
        then [TooFast(id, DistSq(cur[id], prev[id]))] else []
  }

  /** A speed error is raised for exactly the listed ids that the previous
      frame has and that moved a squared distance of more than 9; all of them
      are speed errors and there is at most one per listed id. */
  lemma {:induction false} MoveErrorsOverSpec(prev: map<string, Unit>, ids: seq<string>, cur: map<string, Unit>)
    requires forall id :: id in ids ==> id in cur
    ensures |MoveErrorsOver(prev, ids, cur)| <= |ids|
    ensures forall e :: e in MoveErrorsOver(prev, ids, cur) <==>
      e.TooFast? && e.unitId in ids && e.unitId in prev &&
      e.distSq == DistSq(cur[e.unitId], prev[e.unitId]) && e.distSq > MAX_SPEED_SQ
  {
    if |ids| > 0 {
      MoveErrorsOverSpec(prev, ids[..|ids| - 1], cur);
      assert forall i :: i in ids <==> i in ids[..|ids| - 1] || i == ids[|ids| - 1];
    }
  }

  /** Speed errors of a frame's units against the previous frame's dictionary. */
  function MoveErrors(prev: map<string, Unit>, us: seq<Unit>): seq<ValidationError> {
    MoveErrorsOver(prev, FirstIds(us), IndexById(us))
  }

  // ---------------------------------------------------------------------
  // The whole validation.
  // ---------------------------------------------------------------------

  /** The errors frame i receives: placement errors, then (from the second
      frame on) speed errors against frame i - 1. */
  function FrameErrors(t: seq<seq<int>>, fs: seq<Frame>, i: nat): seq<ValidationError>
    requires i < |fs|
  {
    SpotErrors(t, fs[i].units) + (if i > 0 then MoveErrors(IndexById(fs[i - 1].units), fs[i].units) else [])
  }

  /** The frames after validation: each frame's errors replaced, nothing else touched. */
  function ValidatedFrames(t: seq<seq<int>>, fs: seq<Frame>): (r: seq<Frame>)
    ensures |r| == |fs|
  {
    seq(|fs|, i requires 0 <= i < |fs| => fs[i].(validationErrors := FrameErrors(t, fs, i)))
  }

  /** The scenario after validation. */
  function Validate(s: WargameScenario): (r: WargameScenario)
    ensures r.terrain == s.terrain && |r.frames| == |s.frames|
  {
    s.(frames := ValidatedFrames(s.terrain, s.frames))
  }

  /** Builds the dictionary of a frame's units: its keys in insertion order and its values. */
  method IndexUnits(us: seq<Unit>) returns (ids: seq<string>, index: map<string, Unit>)
    ensures ids == FirstIds(us) && index == IndexById(us)
    ensures forall id :: id in ids ==> id in index
  {
    ids, index := [], map[];
    for k := 0 to |us|
      invariant ids == FirstIds(us[..k]) && index == IndexById(us[..k])
    {
      var u := us[k];
      assert us[..k + 1][..k] == us[..k];
      DictionaryOfUnits(us[..k]);
      if u.unitId !in index {
        ids := ids + [u.unitId];
      }
      index := index[u.unitId := u];
    }
    assert us[..|us|] == us;
    DictionaryOfUnits(us);
  }

  /** The bounds and water checks over a frame's units. */
  method CheckPlacement(terrain: seq<seq<int>>, mapHeight: nat, mapWidth: nat, us: seq<Unit>)
    returns (errs: seq<ValidationError>)
    requires mapHeight == Height(terrain) && mapWidth == Width(terrain)
    ensures errs == SpotErrors(terrain, us)
  {
    errs := [];
    for k := 0 to |us|
      invariant errs == SpotErrors(terrain, us[..k])
    {
      var u := us[k];
      assert us[..k + 1][..k] == us[..k];
      if !(0 <= u.x < mapWidth && 0 <= u.y < mapHeight) {
        errs := errs + [OutOfBounds(u.unitId, u.x, u.y)];
      } else if u.x < |terrain[u.y]| && terrain[u.y][u.x] == WATER {
        // a cell past the end of a short row raises no error
        errs := errs + [InWater(u.unitId, u.x, u.y)];
      }
    }
    assert us[..|us|] == us;
  }

  /** The speed check of every current id against the previous frame's dictionary. */
  method CheckMovement(prev: map<string, Unit>, ids: seq<string>, cur: map<string, Unit>)
    returns (errs: seq<ValidationError>)
    requires forall id :: id in ids ==> id in cur
    ensures errs == MoveErrorsOver(prev, ids, cur)
  {
    errs := [];
    for k := 0 to |ids|
      invariant errs == MoveErrorsOver(prev, ids[..k], cur)
    {
      var id := ids[k];
      assert ids[..k + 1][..k] == ids[..k];
      if id in prev {
        var d := DistSq(cur[id], prev[id]);
        if d > MAX_SPEED_SQ {
          errs := errs + [TooFast(id, d)];
        }
      }
    }
    assert ids[..|ids|] == ids;
  }

  /** Validates the frames of a scenario in place, in frame order. */
  method ValidateScenario(terrain: seq<seq<int>>, frames: array<Frame>)
    modifies frames
    ensures frames[..] == ValidatedFrames(terrain, old(frames[..]))
  {
    ghost var original := frames[..];
    ghost var target := ValidatedFrames(terrain, original);
    var prevUnits: map<string, Unit> := map[];
    var mapHeight := |terrain|;
    var mapWidth := if mapHeight > 0 then |terrain[0]| else 0;
    for frameIdx := 0 to frames.Length
      invariant forall k :: 0 <= k < frameIdx ==> frames[k] == target[k]
      invariant forall k :: frameIdx <= k < frames.Length ==> frames[k] == original[k]
      invariant frameIdx > 0 ==> prevUnits == IndexById(original[frameIdx - 1].units)
    {
      // the frame's errors are reset, then appended to
      var frame := frames[frameIdx].(validationErrors := []);
      assert frame.units == original[frameIdx].units;
      var ids, currentUnits := IndexUnits(frame.units);
      var placement := CheckPlacement(terrain, mapHeight, mapWidth, frame.units);
      frame := frame.(validationErrors := frame.validationErrors + placement);
      assert frame.validationErrors == SpotErrors(terrain, original[frameIdx].units);
      if frameIdx > 0 {
        var movement := CheckMovement(prevUnits, ids, currentUnits);
        assert movement == MoveErrors(IndexById(original[frameIdx - 1].units), original[frameIdx].units);
        frame := frame.(validationErrors := frame.validationErrors + movement);
      }
      assert frame.validationErrors == FrameErrors(terrain, original, frameIdx);
      assert frame == target[frameIdx];
      frames[frameIdx] := frame;
      prevUnits := currentUnits;
    }
    assert frames[..] == target;
  }
}
