/** What the validator promises: which errors a frame gets and in what order,
    that only the error lists change, that running it twice changes nothing
    more, and the behaviour on the scenarios of tests/test_validator.py and
    tests/conftest.py. */
module ValidatorProperties {
  import opened Models
  import opened Validator

  /** A unit with this id stands at (x, y) in the list. */
  predicate UnitAt(us: seq<Unit>, id: string, x: int, y: int) {
    exists k :: 0 <= k < |us| && us[k].unitId == id && us[k].x == x && us[k].y == y
  }

  /** A unit stands at (x, y) in a list iff it does in the list without its
      last element or it is that last element. */
  lemma UnitAtSnoc(us: seq<Unit>, id: string, x: int, y: int)
    requires |us| > 0
    ensures UnitAt(us, id, x, y) <==>
      UnitAt(us[..|us| - 1], id, x, y) ||
      (us[|us| - 1].unitId == id && us[|us| - 1].x == x && us[|us| - 1].y == y)
  {
    var front := us[..|us| - 1];
    if UnitAt(us, id, x, y) {
      var k :| 0 <= k < |us| && us[k].unitId == id && us[k].x == x && us[k].y == y;
      if k < |us| - 1 { assert front[k] == us[k]; }
    }
    if UnitAt(front, id, x, y) {
      var k :| 0 <= k < |front| && front[k].unitId == id && front[k].x == x && front[k].y == y;
      assert us[k] == front[k];
    }
  }

  /** Validation changes each frame's error list and nothing else. */
  lemma ValidationTouchesOnlyErrors(t: seq<seq<int>>, fs: seq<Frame>)
    ensures forall i :: 0 <= i < |fs| ==>
      ValidatedFrames(t, fs)[i].description == fs[i].description &&
      ValidatedFrames(t, fs)[i].units == fs[i].units &&
      ValidatedFrames(t, fs)[i].combatLog == fs[i].combatLog &&
      ValidatedFrames(t, fs)[i].validationErrors == FrameErrors(t, fs, i)
  {
  }

  /** The errors of a frame depend on that frame and the one before it only. */
  lemma AdjacentFramesOnly(t: seq<seq<int>>, fs: seq<Frame>, gs: seq<Frame>, i: nat)
    requires i < |fs| && i < |gs|
    requires fs[i].units == gs[i].units
    requires i > 0 ==> fs[i - 1].units == gs[i - 1].units
    ensures FrameErrors(t, fs, i) == FrameErrors(t, gs, i)
  {
  }

  /** Errors are replaced, not appended to: a second validation gives the same frames. */
  lemma {:induction false} ValidateIdempotent(t: seq<seq<int>>, fs: seq<Frame>)
    ensures ValidatedFrames(t, ValidatedFrames(t, fs)) == ValidatedFrames(t, fs)
  {
    var once := ValidatedFrames(t, fs);
    var twice := ValidatedFrames(t, once);
    forall i | 0 <= i < |fs|
      ensures twice[i] == once[i]
    {
      assert once[i] == fs[i].(validationErrors := FrameErrors(t, fs, i));
      assert i > 0 ==> once[i - 1].units == fs[i - 1].units;
      AdjacentFramesOnly(t, once, fs, i);
      assert twice[i] == once[i].(validationErrors := FrameErrors(t, once, i));
    }
    assert |twice| == |once|;
  }

  /** The same on whole scenarios, whose terrain validation keeps. */
  lemma ValidateScenarioIdempotent(s: WargameScenario)
    ensures Validate(Validate(s)) == Validate(s)
  {
    ValidateIdempotent(s.terrain, s.frames);
  }

  /** Placement errors of a concatenation are those of each part, in order. */
  lemma {:induction false} SpotErrorsAppend(t: seq<seq<int>>, a: seq<Unit>, b: seq<Unit>)
    ensures SpotErrors(t, a + b) == SpotErrors(t, a) + SpotErrors(t, b)
  {
    if |b| == 0 {
      assert a + b == a;
    } else {
      assert (a + b)[..|a + b| - 1] == a + b[..|b| - 1];
      SpotErrorsAppend(t, a, b[..|b| - 1]);
    }
  }

  /** Unit k contributes its own placement errors at its own place in unit
      order: exactly one out-of-bounds error when outside the grid (and no
      terrain check then), one water error when on a water cell, else none. */
  lemma UnitContribution(t: seq<seq<int>>, us: seq<Unit>, k: nat)
    requires k < |us|
    ensures SpotErrors(t, us) ==
      SpotErrors(t, us[..k]) + UnitSpotErrors(t, us[k]) + SpotErrors(t, us[k + 1..])
    ensures !InBounds(t, us[k].x, us[k].y) ==>
      UnitSpotErrors(t, us[k]) == [OutOfBounds(us[k].unitId, us[k].x, us[k].y)]
    ensures InBounds(t, us[k].x, us[k].y) && IsWaterCell(t, us[k].x, us[k].y) ==>
      UnitSpotErrors(t, us[k]) == [InWater(us[k].unitId, us[k].x, us[k].y)]
    ensures InBounds(t, us[k].x, us[k].y) && !IsWaterCell(t, us[k].x, us[k].y) ==>
      UnitSpotErrors(t, us[k]) == []
  {
    assert us == us[..k] + [us[k]] + us[k + 1..];
    SpotErrorsAppend(t, us[..k] + [us[k]], us[k + 1..]);
    SpotErrorsAppend(t, us[..k], [us[k]]);
    assert SpotErrors(t, [us[k]]) == UnitSpotErrors(t, us[k]) by {
      assert [us[k]][..0] == [];
    }
  }

  /** An out-of-bounds error names a unit that stands outside the grid, and
      every such unit gets one. */
  lemma {:induction false} OutOfBoundsIff(t: seq<seq<int>>, us: seq<Unit>, id: string, x: int, y: int)
    ensures OutOfBounds(id, x, y) in SpotErrors(t, us) <==> !InBounds(t, x, y) && UnitAt(us, id, x, y)
  {
    if |us| > 0 {
      var front := us[..|us| - 1];
      OutOfBoundsIff(t, front, id, x, y);
      UnitAtSnoc(us, id, x, y);
    }
  }

  /** A water error names a unit on an in-bounds water cell, and every such
      unit gets one; a cell missing from a short row is never water. */
  lemma {:induction false} InWaterIff(t: seq<seq<int>>, us: seq<Unit>, id: string, x: int, y: int)
    ensures InWater(id, x, y) in SpotErrors(t, us) <==> IsWaterCell(t, x, y) && UnitAt(us, id, x, y)
    ensures IsWaterCell(t, x, y) ==> InBounds(t, x, y) && x < |t[y]| && t[y][x] == TerrainCode(Water)
  {
    if |us| > 0 {
      var front := us[..|us| - 1];
      InWaterIff(t, front, id, x, y);
      UnitAtSnoc(us, id, x, y);
    }
  }

  /** With no columns (in particular with an empty terrain) every unit gets
      exactly one out-of-bounds error, in unit order, and nothing else. */
  lemma {:induction false} NoColumnsAllOutOfBounds(t: seq<seq<int>>, us: seq<Unit>)
    requires Width(t) == 0
    ensures |SpotErrors(t, us)| == |us|
    ensures forall k :: 0 <= k < |us| ==>
      SpotErrors(t, us)[k] == OutOfBounds(us[k].unitId, us[k].x, us[k].y)
  {
    if |us| > 0 {
      var front := us[..|us| - 1];
      NoColumnsAllOutOfBounds(t, front);
      forall k | 0 <= k < |us| - 1
        ensures SpotErrors(t, us)[k] == OutOfBounds(us[k].unitId, us[k].x, us[k].y)
      {
        assert front[k] == us[k];
      }
    }
  }

  /** An empty terrain has no columns. */
  lemma EmptyTerrainHasNoCells(t: seq<seq<int>>, x: int, y: int)
    requires t == []
    ensures Height(t) == 0 && Width(t) == 0 && !InBounds(t, x, y)
  {
  }

  /** A speed error on frame i exists exactly when i is not the first frame,
      the id is in the dictionaries of frame i and of frame i - 1 (that is, some
      unit of each frame has it), and its squared distance
      between the last occurrences in the two frames is more than 9; so a
      newly appearing unit is exempt and a move of exactly 3 tiles passes. */
  lemma TooFastIff(t: seq<seq<int>>, fs: seq<Frame>, i: nat, id: string, d: int)
    requires i < |fs|
    ensures TooFast(id, d) in FrameErrors(t, fs, i) <==>
      i > 0 && id in IndexById(fs[i - 1].units) && id in IndexById(fs[i].units) &&
      d == DistSq(IndexById(fs[i].units)[id], IndexById(fs[i - 1].units)[id]) &&
      d > MAX_SPEED_SQ
  {
    if i > 0 {
      var us := fs[i].units;
      DictionaryOfUnits(us);
      DictionaryOfUnits(fs[i - 1].units);
      MoveErrorsOverSpec(IndexById(fs[i - 1].units), FirstIds(us), IndexById(us));
    }
    var spot := SpotErrors(t, fs[i].units);
    SpotErrorsShape(t, fs[i].units);
    assert forall k :: 0 <= k < |spot| ==> spot[k] != TooFast(id, d);
  }

  /** The speed errors of a list of distinct ids name distinct ids. */
  lemma {:induction false} MoveErrorsOverDistinct(prev: map<string, Unit>, ids: seq<string>, cur: map<string, Unit>)
    requires forall id :: id in ids ==> id in cur
    requires NoDuplicates(ids)
    ensures forall j, k :: 0 <= j < k < |MoveErrorsOver(prev, ids, cur)| ==>
      MoveErrorsOver(prev, ids, cur)[j].unitId != MoveErrorsOver(prev, ids, cur)[k].unitId
  {
    if |ids| > 0 {
      var front := ids[..|ids| - 1];
      MoveErrorsOverDistinct(prev, front, cur);
      MoveErrorsOverSpec(prev, front, cur);
      var errs := MoveErrorsOver(prev, front, cur);
      forall j | 0 <= j < |errs| ensures errs[j].unitId != ids[|ids| - 1] {
        assert errs[j] in errs;
      }
    }
  }

  /** A frame gets at most one speed error per unit id. */
  lemma AtMostOneSpeedErrorPerId(prev: map<string, Unit>, us: seq<Unit>)
    ensures forall j, k :: 0 <= j < k < |MoveErrors(prev, us)| ==>
      MoveErrors(prev, us)[j].unitId != MoveErrors(prev, us)[k].unitId
  {
    DictionaryOfUnits(us);
    MoveErrorsOverDistinct(prev, FirstIds(us), IndexById(us));
  }

  /** Within a frame every placement error comes before every speed error. */
  lemma PlacementBeforeSpeed(t: seq<seq<int>>, fs: seq<Frame>, i: nat)
    requires i < |fs|
    ensures forall j, k :: 0 <= j < k < |FrameErrors(t, fs, i)| && FrameErrors(t, fs, i)[j].TooFast? ==>
      FrameErrors(t, fs, i)[k].TooFast?
    ensures FrameErrors(t, fs, i)[..|SpotErrors(t, fs[i].units)|] == SpotErrors(t, fs[i].units)
  {
    var spot := SpotErrors(t, fs[i].units);
    var moves := if i > 0 then MoveErrors(IndexById(fs[i - 1].units), fs[i].units) else [];
    SpotErrorsShape(t, fs[i].units);
    assert forall k :: 0 <= k < |moves| ==> moves[k].TooFast? by {
      if i > 0 {
        DictionaryOfUnits(fs[i].units);
        MoveErrorsOverSpec(IndexById(fs[i - 1].units), FirstIds(fs[i].units), IndexById(fs[i].units));
        assert forall k :: 0 <= k < |moves| ==> moves[k] in moves;
      }
    }
    assert FrameErrors(t, fs, i) == spot + moves;
    forall j, k | 0 <= j < k < |spot + moves| && (spot + moves)[j].TooFast?
      ensures (spot + moves)[k].TooFast?
    {
      assert j >= |spot|;
      assert (spot + moves)[k] == moves[k - |spot|];
    }
  }

  // ---------------------------------------------------------------------
  // The scenarios of tests/test_validator.py and tests/conftest.py.
  // ---------------------------------------------------------------------

  /** An n by n all-Open terrain. */
  function OpenGrid(n: nat): seq<seq<int>> {
    seq(n, _ => seq(n, _ => TerrainCode(Open)))
  }

  lemma OpenGridCell(n: nat, x: int, y: int)
    requires 0 <= x < n && 0 <= y < n
    ensures InBounds(OpenGrid(n), x, y) && !IsWaterCell(OpenGrid(n), x, y)
  {
  }

  /** The unit stands on an in-bounds cell that is not water. */
  predicate OnDryCell(t: seq<seq<int>>, u: Unit) {
    InBounds(t, u.x, u.y) && !IsWaterCell(t, u.x, u.y)
  }

  /** The speed error, if any, of a unit that moved from prev to cur. */
  function SpeedCheck(prev: Unit, cur: Unit): seq<ValidationError> {
    if DistSq(cur, prev) > MAX_SPEED_SQ then [TooFast(cur.unitId, DistSq(cur, prev))] else []
  }

  /** The dictionary and placement errors of a frame of two distinct units on dry in-bounds cells. */
  lemma TwoUnitFrame(t: seq<seq<int>>, a: Unit, b: Unit)
    requires a.unitId != b.unitId
    requires OnDryCell(t, a) && OnDryCell(t, b)
    ensures FirstIds([a, b]) == [a.unitId, b.unitId]
    ensures IndexById([a, b]) == map[a.unitId := a, b.unitId := b]
    ensures SpotErrors(t, [a, b]) == []
  {
    assert [a, b][..1] == [a];
    assert [a][..0] == [];
    assert FirstIds([a]) == [a.unitId];
    assert IndexById([a]) == map[a.unitId := a];
    assert SpotErrors(t, [a]) == [];
  }

  /** Two frames of the same two units on dry in-bounds cells: the first frame
      is clean, the second gets each unit's speed error in unit order. */
  lemma TwoUnitsTwoFrames(t: seq<seq<int>>, d0: string, d1: string, a0: Unit, b0: Unit, a1: Unit, b1: Unit)
    requires a0.unitId == a1.unitId && b0.unitId == b1.unitId && a0.unitId != b0.unitId
    requires OnDryCell(t, a0) && OnDryCell(t, b0) && OnDryCell(t, a1) && OnDryCell(t, b1)
    ensures var fs := ValidatedFrames(t, [NewFrame(d0, [a0, b0]), NewFrame(d1, [a1, b1])]);
      fs[0].validationErrors == [] && fs[1].validationErrors == SpeedCheck(a0, a1) + SpeedCheck(b0, b1)
  {
    var fs := [NewFrame(d0, [a0, b0]), NewFrame(d1, [a1, b1])];
    TwoUnitFrame(t, a0, b0);
    TwoUnitFrame(t, a1, b1);
    TwoUnitMoves(a0, b0, a1, b1);
    assert FrameErrors(t, fs, 1) == SpeedCheck(a0, a1) + SpeedCheck(b0, b1);
  }

  /** The speed errors of two distinct units against their previous positions. */
  lemma TwoUnitMoves(a0: Unit, b0: Unit, a1: Unit, b1: Unit)
    requires a0.unitId == a1.unitId && b0.unitId == b1.unitId && a0.unitId != b0.unitId
    ensures MoveErrors(IndexById([a0, b0]), [a1, b1]) == SpeedCheck(a0, a1) + SpeedCheck(b0, b1)
  {
    var ids := [a1.unitId, b1.unitId];
    var prev, cur := IndexById([a0, b0]), IndexById([a1, b1]);
    assert [a0, b0][..1] == [a0] && [a1, b1][..1] == [a1] && [a0][..0] == [] && [a1][..0] == [];
    assert FirstIds([a1]) == [a1.unitId];
    assert FirstIds([a1, b1]) == ids;
    assert IndexById([a0]) == map[a0.unitId := a0] && IndexById([a1]) == map[a1.unitId := a1];
    assert prev == map[a0.unitId := a0, b0.unitId := b0];
    assert cur == map[a1.unitId := a1, b1.unitId := b1];
    assert ids[..1] == [a1.unitId] && [a1.unitId][..0] == [];
    assert MoveErrorsOver(prev, [a1.unitId], cur) == SpeedCheck(a0, a1);
  }

  /** The speed error of one unit against its previous position. */
  lemma OneUnitMoves(u0: Unit, u1: Unit)
    requires u0.unitId == u1.unitId
    ensures MoveErrors(IndexById([u0]), [u1]) == SpeedCheck(u0, u1)
  {
    assert [u0][..0] == [] && [u1][..0] == [] && [u1.unitId][..0] == [];
    assert FirstIds([u1]) == [u1.unitId];
    assert IndexById([u0]) == IndexById([])[u0.unitId := u0] == map[u0.unitId := u0];
    assert IndexById([u1]) == IndexById([])[u1.unitId := u1] == map[u1.unitId := u1];
    assert MoveErrorsOver(IndexById([u0]), [u1.unitId], IndexById([u1])) == SpeedCheck(u0, u1);
  }

  /** A lone unit on a dry in-bounds cell raises no placement error. */
  lemma OneUnitPlacement(t: seq<seq<int>>, u: Unit)
    requires OnDryCell(t, u)
    ensures SpotErrors(t, [u]) == []
  {
    assert [u][..0] == [];
  }

  /** Two frames of one unit on dry in-bounds cells. */
  lemma OneUnitTwoFrames(t: seq<seq<int>>, d0: string, d1: string, u0: Unit, u1: Unit)
    requires u0.unitId == u1.unitId
    requires OnDryCell(t, u0) && OnDryCell(t, u1)
    ensures var fs := ValidatedFrames(t, [NewFrame(d0, [u0]), NewFrame(d1, [u1])]);
      fs[0].validationErrors == [] && fs[1].validationErrors == SpeedCheck(u0, u1)
  {
    var fs := [NewFrame(d0, [u0]), NewFrame(d1, [u1])];
    OneUnitPlacement(t, u0);
    OneUnitPlacement(t, u1);
    OneUnitMoves(u0, u1);
    assert FrameErrors(t, fs, 1) == SpeedCheck(u0, u1);
  }

  /** A tank that jumps from (0,0) to (10,10) is flagged once, on the second
      frame, with squared distance 200 (a distance of about 14.14). */
  lemma TooFastExample(u0: Unit, u1: Unit)
    requires u0 == NewUnit("U1", Blue, "Tank", 0, 0) && u1 == NewUnit("U1", Blue, "Tank", 10, 10)
    ensures var fs := ValidatedFrames(OpenGrid(20), [NewFrame("Start", [u0]), NewFrame("End", [u1])]);
      fs[0].validationErrors == [] && fs[1].validationErrors == [TooFast("U1", 200)]
  {
    assert SpeedCheck(u0, u1) == [TooFast("U1", 200)] by {
      assert DistSq(u1, u0) == 200;
    }
    OnOpenGrid(20, u0);
    OnOpenGrid(20, u1);
    OneUnitTwoFrames(OpenGrid(20), "Start", "End", u0, u1);
  }

  /** A unit on a water cell is flagged on its frame. */
  lemma InWaterExample()
    ensures var t := OpenGrid(20)[1 := OpenGrid(20)[1][1 := WATER]];
      var fs := ValidatedFrames(t, [NewFrame("Start", [NewUnit("U1", Red, "Infantry", 1, 1)])]);
      fs[0].validationErrors == [InWater("U1", 1, 1)]
  {
    var t := OpenGrid(20)[1 := OpenGrid(20)[1][1 := WATER]];
    var u := NewUnit("U1", Red, "Infantry", 1, 1);
    assert IsWaterCell(t, 1, 1);
    assert [u][..0] == [];
    assert SpotErrors(t, [u]) == SpotErrors(t, []) + UnitSpotErrors(t, u);
    assert FrameErrors(t, [NewFrame("Start", [u])], 0) == [InWater("U1", 1, 1)];
  }

  /** A unit that keeps its id and steps one tile along a column raises no speed error. */
  lemma OneStep(u0: Unit, u1: Unit)
    requires u0.unitId == u1.unitId && u0.x == u1.x && (u1.y == u0.y + 1 || u1.y == u0.y - 1)
    ensures SpeedCheck(u0, u1) == []
  {
    assert DistSq(u1, u0) == 1;
  }

  /** A unit inside an n by n open grid stands on a dry in-bounds cell. */
  lemma OnOpenGrid(n: nat, u: Unit)
    requires 0 <= u.x < n && 0 <= u.y < n
    ensures OnDryCell(OpenGrid(n), u)
  {
    OpenGridCell(n, u.x, u.y);
  }

  /** Two frames of the same two units on dry in-bounds cells, each moving at
      most 3 tiles: no frame gets an error. */
  lemma TwoUnitsSlow(t: seq<seq<int>>, d0: string, d1: string, a0: Unit, b0: Unit, a1: Unit, b1: Unit)
    requires a0.unitId == a1.unitId && b0.unitId == b1.unitId && a0.unitId != b0.unitId
    requires OnDryCell(t, a0) && OnDryCell(t, b0) && OnDryCell(t, a1) && OnDryCell(t, b1)
    requires DistSq(a1, a0) <= MAX_SPEED_SQ && DistSq(b1, b0) <= MAX_SPEED_SQ
    ensures var fs := ValidatedFrames(t, [NewFrame(d0, [a0, b0]), NewFrame(d1, [a1, b1])]);
      fs[0].validationErrors == [] && fs[1].validationErrors == []
  {
    TwoUnitsTwoFrames(t, d0, d1, a0, b0, a1, b1);
  }

  /** The units of the two-frame fixture stand on dry cells of the open
      20 by 20 map, have distinct ids, and each step one tile. */
  lemma SlowMovesFixture(a0: Unit, b0: Unit, a1: Unit, b1: Unit)
    requires a0 == NewUnit("A1", Blue, "Infantry", 0, 0) && b0 == NewUnit("B1", Red, "Tank", 19, 19)
    requires a1 == NewUnit("A1", Blue, "Infantry", 0, 1) && b1 == NewUnit("B1", Red, "Tank", 19, 18)
    ensures a0.unitId == a1.unitId && b0.unitId == b1.unitId && a0.unitId != b0.unitId
    ensures OnDryCell(OpenGrid(20), a0) && OnDryCell(OpenGrid(20), b0)
    ensures OnDryCell(OpenGrid(20), a1) && OnDryCell(OpenGrid(20), b1)
    ensures SpeedCheck(a0, a1) == [] && SpeedCheck(b0, b1) == []
  {
    OneStep(a0, a1);
    OneStep(b0, b1);
    assert a0.unitId != b0.unitId by {
      assert a0.unitId == "A1" && b0.unitId == "B1";
      assert "A1"[0] != "B1"[0];
    }
    OnOpenGrid(20, a0);
    OnOpenGrid(20, b0);
    OnOpenGrid(20, a1);
    OnOpenGrid(20, b1);
  }

  /** The two-frame fixture: one-tile steps on open ground raise nothing. */
  lemma SlowMovesExample(a0: Unit, b0: Unit, a1: Unit, b1: Unit)
    requires a0 == NewUnit("A1", Blue, "Infantry", 0, 0) && b0 == NewUnit("B1", Red, "Tank", 19, 19)
    requires a1 == NewUnit("A1", Blue, "Infantry", 0, 1) && b1 == NewUnit("B1", Red, "Tank", 19, 18)
    ensures var fs := ValidatedFrames(OpenGrid(20), [NewFrame("Start", [a0, b0]), NewFrame("Move", [a1, b1])]);
      fs[0].validationErrors == [] && fs[1].validationErrors == []
  {
    SlowMovesFixture(a0, b0, a1, b1);
    TwoUnitsSlow(OpenGrid(20), "Start", "Move", a0, b0, a1, b1);
  }

  /** A move of exactly 3 tiles passes. */
  lemma ExactlyThreeTilesExample(u0: Unit, u1: Unit)
    requires u0 == NewUnit("A1", Blue, "Infantry", 0, 0) && u1 == NewUnit("A1", Blue, "Infantry", 3, 0)
    ensures var fs := ValidatedFrames(OpenGrid(20), [NewFrame("Start", [u0]), NewFrame("Move", [u1])]);
      fs[0].validationErrors == [] && fs[1].validationErrors == []
  {
    OnOpenGrid(20, u0);
    OnOpenGrid(20, u1);
    OneUnitTwoFrames(OpenGrid(20), "Start", "Move", u0, u1);
  }

  /** A move of sqrt(10), just over 3 tiles, is flagged with squared distance 10. */
  lemma JustOverThreeTilesExample(u0: Unit, u1: Unit)
    requires u0 == NewUnit("A1", Blue, "Infantry", 0, 0) && u1 == NewUnit("A1", Blue, "Infantry", 3, 1)
    ensures var fs := ValidatedFrames(OpenGrid(20), [NewFrame("Start", [u0]), NewFrame("Move", [u1])]);
      fs[0].validationErrors == [] && fs[1].validationErrors == [TooFast("A1", 10)]
  {
    assert SpeedCheck(u0, u1) == [TooFast("A1", 10)] by {
      assert DistSq(u1, u0) == 10;
    }
    OnOpenGrid(20, u0);
    OnOpenGrid(20, u1);
    OneUnitTwoFrames(OpenGrid(20), "Start", "Move", u0, u1);
  }
}
