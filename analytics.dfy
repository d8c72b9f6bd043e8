/** Two summaries of a scenario: the strength of each side frame by frame,
    and how often each cell of the map is occupied over the whole scenario. */
module Analytics {
  import opened Models

  // ---------------------------------------------------------------------
  // Force correlation.
  // ---------------------------------------------------------------------

  /** One row of the force table: the 1-based frame label and the number of
      Blue and of Red units in that frame. */
  datatype ForceRecord = ForceRecord(frame: int, blue: nat, red: nat)

  /** Number of Blue units in the list. */
  function BlueCount(us: seq<Unit>): nat {
    if |us| == 0 then 0
    else BlueCount(us[..|us| - 1]) + if us[|us| - 1].side == Blue then 1 else 0
  }

  /** Number of units in the list that are not Blue; the table counts these as Red. */
  function RedCount(us: seq<Unit>): nat {
    if |us| == 0 then 0
    else RedCount(us[..|us| - 1]) + if us[|us| - 1].side == Blue then 0 else 1
  }

  /** The sides of the units, in list order. */
  function SidesOf(us: seq<Unit>): seq<Side> {
    seq(|us|, k requires 0 <= k < |us| => us[k].side)
  }

  /** Every unit is counted on exactly one side, and each count is how often
      that side occurs among the units. */
  lemma {:induction false} SideCounts(us: seq<Unit>)
    ensures BlueCount(us) + RedCount(us) == |us|
    ensures BlueCount(us) == multiset(SidesOf(us))[Blue]
    ensures RedCount(us) == multiset(SidesOf(us))[Red]
  {
    if |us| > 0 {
      var front := us[..|us| - 1];
      SideCounts(front);
      assert SidesOf(us) == SidesOf(front) + [us[|us| - 1].side];
    }
  }

  /** The force table: one record per frame, in frame order, labelled from 1,
      holding that frame's Blue and Red counts, which add up to its units. */
  method CalculateForceCorrelation(s: WargameScenario) returns (data: seq<ForceRecord>)
    ensures |data| == |s.frames|
    ensures forall i :: 0 <= i < |data| ==>
      data[i] == ForceRecord(i + 1, BlueCount(s.frames[i].units), RedCount(s.frames[i].units))
    ensures forall i :: 0 <= i < |data| ==> data[i].blue + data[i].red == |s.frames[i].units|
  {
    data := [];
    for i := 0 to |s.frames|
      invariant |data| == i
      invariant forall k :: 0 <= k < i ==>
        data[k] == ForceRecord(k + 1, BlueCount(s.frames[k].units), RedCount(s.frames[k].units))
      invariant forall k :: 0 <= k < i ==> data[k].blue + data[k].red == |s.frames[k].units|
    {
      var units := s.frames[i].units;
      var blueCount, redCount := 0, 0;
      for j := 0 to |units|
        invariant blueCount == BlueCount(units[..j]) && redCount == RedCount(units[..j])
      {
        assert units[..j + 1][..j] == units[..j];
        if units[j].side == Blue {
          blueCount := blueCount + 1;
        } else {
          redCount := redCount + 1;
        }
      }
      assert units[..|units|] == units;
      SideCounts(units);
      data := data + [ForceRecord(i + 1, blueCount, redCount)];
    }
  }

  // ---------------------------------------------------------------------
  // Heat map.
  // ---------------------------------------------------------------------

  /** Number of units of the list standing at (x, y). */
  function CountAt(us: seq<Unit>, x: int, y: int): nat {
    if |us| == 0 then 0
    else CountAt(us[..|us| - 1], x, y) + if us[|us| - 1].x == x && us[|us| - 1].y == y then 1 else 0
  }

  /** Number of (frame, unit) pairs of the frames with the unit at (x, y). */
  function Occurrences(fs: seq<Frame>, x: int, y: int): nat {
    if |fs| == 0 then 0
    else Occurrences(fs[..|fs| - 1], x, y) + CountAt(fs[|fs| - 1].units, x, y)
  }

  /** The unit stands inside a height by width grid. */
  predicate Inside(u: Unit, height: int, width: int) {
    0 <= u.y < height && 0 <= u.x < width
  }

  /** Number of units of the list inside a height by width grid. */
  function CountInside(us: seq<Unit>, height: int, width: int): nat {
    if |us| == 0 then 0
    else CountInside(us[..|us| - 1], height, width) + if Inside(us[|us| - 1], height, width) then 1 else 0
  }

  /** Number of (frame, unit) pairs of the frames with the unit inside the grid. */
  function OccurrencesInside(fs: seq<Frame>, height: int, width: int): nat {
    if |fs| == 0 then 0
    else OccurrencesInside(fs[..|fs| - 1], height, width) + CountInside(fs[|fs| - 1].units, height, width)
  }

  function RowTotal(r: seq<int>): int {
    if |r| == 0 then 0 else RowTotal(r[..|r| - 1]) + r[|r| - 1]
  }

  /** Sum of all cells of a grid. */
  function GridTotal(g: seq<seq<int>>): int {
    if |g| == 0 then 0 else GridTotal(g[..|g| - 1]) + RowTotal(g[|g| - 1])
  }

  /** Adding one to a cell adds one to the row's total. */
  lemma {:induction false} RowTotalBump(r: seq<int>, x: int)
    requires 0 <= x < |r|
    ensures RowTotal(r[x := r[x] + 1]) == RowTotal(r) + 1
  {
    var r' := r[x := r[x] + 1];
    if x < |r| - 1 {
      assert r'[..|r'| - 1] == r[..|r| - 1][x := r[x] + 1];
      RowTotalBump(r[..|r| - 1], x);
    } else {
      assert r'[..|r'| - 1] == r[..|r| - 1];
    }
  }

  /** Adding one to a cell adds one to the grid's total. */
  lemma {:induction false} GridTotalBump(g: seq<seq<int>>, y: int, x: int)
    requires 0 <= y < |g| && 0 <= x < |g[y]|
    ensures GridTotal(g[y := g[y][x := g[y][x] + 1]]) == GridTotal(g) + 1
  {
    var g' := g[y := g[y][x := g[y][x] + 1]];
    if y < |g| - 1 {
      assert g'[..|g'| - 1] == g[..|g| - 1][y := g[y][x := g[y][x] + 1]];
      GridTotalBump(g[..|g| - 1], y, x);
    } else {
      assert g'[..|g'| - 1] == g[..|g| - 1];
      RowTotalBump(g[y], x);
    }
  }

  /** A row of zeros totals zero. */
  lemma {:induction false} ZeroRowTotal(r: seq<int>)
    requires forall x :: 0 <= x < |r| ==> r[x] == 0
    ensures RowTotal(r) == 0
  {
    if |r| > 0 {
      ZeroRowTotal(r[..|r| - 1]);
    }
  }

  /** A grid of zeros totals zero. */
  lemma {:induction false} ZeroGridTotal(g: seq<seq<int>>)
    requires forall y, x :: 0 <= y < |g| && 0 <= x < |g[y]| ==> g[y][x] == 0
    ensures GridTotal(g) == 0
  {
    if |g| > 0 {
      ZeroGridTotal(g[..|g| - 1]);
      ZeroRowTotal(g[|g| - 1]);
    }
  }

  /** One more unit adds one at its own cell and nothing elsewhere. */
  lemma CountAtSnoc(us: seq<Unit>, j: nat, x: int, y: int)
    requires j < |us|
    ensures CountAt(us[..j + 1], x, y) == CountAt(us[..j], x, y) + if us[j].x == x && us[j].y == y then 1 else 0
  {
    assert us[..j + 1][..j] == us[..j];
  }

  /** One more unit adds one to the count inside the grid exactly when it is inside. */
  lemma CountInsideSnoc(us: seq<Unit>, j: nat, height: int, width: int)
    requires j < |us|
    ensures CountInside(us[..j + 1], height, width) == CountInside(us[..j], height, width) + if Inside(us[j], height, width) then 1 else 0
  {
    assert us[..j + 1][..j] == us[..j];
  }

  /** Marking unit u on a height by width heat map (when it stands inside)
      keeps the shape and adds one at u's cell only. */
  lemma MarkUnit(r: seq<seq<int>>, u: Unit, height: int, width: int) returns (r': seq<seq<int>>)
    requires |r| == height && forall y :: 0 <= y < height ==> |r[y]| == width
    ensures r' == if Inside(u, height, width) then r[u.y := r[u.y][u.x := r[u.y][u.x] + 1]] else r
    ensures |r'| == height && forall y :: 0 <= y < height ==> |r'[y]| == width
    ensures forall y, x :: 0 <= y < height && 0 <= x < width ==>
      r'[y][x] == r[y][x] + if u.x == x && u.y == y then 1 else 0
    ensures GridTotal(r') == GridTotal(r) + if Inside(u, height, width) then 1 else 0
  {
    if Inside(u, height, width) {
      GridTotalBump(r, u.y, u.x);
      r' := r[u.y := r[u.y][u.x := r[u.y][u.x] + 1]];
    } else {
      r' := r;
    }
  }

  /** Adds one frame's units to a height by width heat map: every cell grows
      by the number of units standing on it, so the total grows by the number
      of units inside the grid; units outside it change nothing. */
  method AddFrame(heatmap: seq<seq<int>>, units: seq<Unit>, height: int, width: int) returns (r: seq<seq<int>>)
    requires |heatmap| == height && forall y :: 0 <= y < height ==> |heatmap[y]| == width
    ensures |r| == height && forall y :: 0 <= y < height ==> |r[y]| == width
    ensures forall y, x :: 0 <= y < height && 0 <= x < width ==> r[y][x] == heatmap[y][x] + CountAt(units, x, y)
    ensures GridTotal(r) == GridTotal(heatmap) + CountInside(units, height, width)
  {
    r := heatmap;
    for j := 0 to |units|
      invariant |r| == height && forall y :: 0 <= y < height ==> |r[y]| == width
      invariant forall y, x :: 0 <= y < height && 0 <= x < width ==> r[y][x] == heatmap[y][x] + CountAt(units[..j], x, y)
      invariant GridTotal(r) == GridTotal(heatmap) + CountInside(units[..j], height, width)
    {
      var unit := units[j];
      ghost var before := r;
      if 0 <= unit.y < height && 0 <= unit.x < width {
        r := r[unit.y := r[unit.y][unit.x := r[unit.y][unit.x] + 1]];
      }
      ghost var marked := MarkUnit(before, unit, height, width);
      assert r == marked;
      forall y, x | 0 <= y < height && 0 <= x < width
        ensures r[y][x] == heatmap[y][x] + CountAt(units[..j + 1], x, y)
      {
        CountAtSnoc(units, j, x, y);
      }
      CountInsideSnoc(units, j, height, width);
    }
    assert units[..|units|] == units;
  }

  /** The heat map: no rows for an empty terrain; otherwise as many rows as
      the terrain and as many columns as its first row, each cell holding how
      often a unit of some frame stood there. Units outside the grid are not
      counted, so the cells add up to the occurrences inside the grid. */
  method CalculateHeatmap(s: WargameScenario) returns (heatmap: seq<seq<int>>)
    ensures |s.terrain| == 0 ==> heatmap == []
    ensures |s.terrain| > 0 ==> |heatmap| == |s.terrain|
    ensures forall y :: 0 <= y < |heatmap| ==> |heatmap[y]| == |s.terrain[0]|
    ensures forall y, x :: 0 <= y < |heatmap| && 0 <= x < |heatmap[y]| ==>
      heatmap[y][x] == Occurrences(s.frames, x, y)
    ensures |s.terrain| > 0 ==> GridTotal(heatmap) == OccurrencesInside(s.frames, |s.terrain|, |s.terrain[0]|)
  {
    if |s.terrain| == 0 {
      return [];
    }
    var height := |s.terrain|;
    var width := if height > 0 then |s.terrain[0]| else 0;
    heatmap := seq(height, _ => seq(width, _ => 0));
    ZeroGridTotal(heatmap);
    for i := 0 to |s.frames|
      invariant |heatmap| == height
      invariant forall y :: 0 <= y < height ==> |heatmap[y]| == width
      invariant forall y, x :: 0 <= y < height && 0 <= x < width ==>
        heatmap[y][x] == Occurrences(s.frames[..i], x, y)
      invariant GridTotal(heatmap) == OccurrencesInside(s.frames[..i], height, width)
    {
      assert s.frames[..i + 1][..i] == s.frames[..i];
      heatmap := AddFrame(heatmap, s.frames[i].units, height, width);
    }
    assert s.frames[..|s.frames|] == s.frames;
  }
}
