/** The Commander's Journal: a Markdown report of a scenario, built as a
    list of lines in a fixed layout and joined with newlines. */
module Exporter {
  import opened Models

  // ---------------------------------------------------------------------
  // Decimal rendering of integers.
  // ---------------------------------------------------------------------

  function DigitChar(d: int): char
    requires 0 <= d < 10
  {
    ('0' as int + d) as char
  }

  predicate IsDigit(c: char) {
    '0' <= c <= '9'
  }

  function DigitValue(c: char): int {
    c as int - '0' as int
  }

  /** The decimal digits of n, most significant first. */
  function NatToString(n: nat): string
    decreases n
  {
    if n < 10 then [DigitChar(n)] else NatToString(n / 10) + [DigitChar(n % 10)]
  }

  /** The rendering is a non-empty string of digits with no leading zero. */
  lemma {:induction false} NatToStringDigits(n: nat)
    ensures |NatToString(n)| > 0
    ensures forall k :: 0 <= k < |NatToString(n)| ==> IsDigit(NatToString(n)[k])
    ensures NatToString(n)[0] == '0' ==> n == 0
    decreases n
  {
    if n >= 10 {
      NatToStringDigits(n / 10);
    }
  }

  /** The value of a string of decimal digits. */
  function ParseNat(s: string): int {
    if |s| == 0 then 0 else ParseNat(s[..|s| - 1]) * 10 + DigitValue(s[|s| - 1])
  }

  /** Reading back the rendering of a number gives the number. */
  lemma {:induction false} NatToStringRoundTrip(n: nat)
    ensures ParseNat(NatToString(n)) == n
    decreases n
  {
    var s := NatToString(n);
    if n < 10 {
      assert s[..0] == [];
    } else {
      NatToStringRoundTrip(n / 10);
      assert s[..|s| - 1] == NatToString(n / 10);
    }
  }

  /** Different numbers render differently. */
  lemma NatToStringInjective(m: nat, n: nat)
    requires NatToString(m) == NatToString(n)
    ensures m == n
  {
    NatToStringRoundTrip(m);
    NatToStringRoundTrip(n);
  }

  /** An integer as a formatted field shows it: a minus sign, then the
      digits of its magnitude. */
  function IntToString(i: int): string {
    if i >= 0 then NatToString(i) else "-" + NatToString(-i)
  }

  // ---------------------------------------------------------------------
  // Joining lines and finding text in a report.
  // ---------------------------------------------------------------------

  /** The lines with sep between each two neighbours. */
  function Join(lines: seq<string>, sep: string): string {
    if |lines| == 0 then ""
    else if |lines| == 1 then lines[0]
    else Join(lines[..|lines| - 1], sep) + sep + lines[|lines| - 1]
  }

  /** s occurs in t starting at position k. */
  predicate OccursAt(s: string, t: string, k: int) {
    0 <= k <= |t| - |s| && t[k..k + |s|] == s
  }

  /** s occurs somewhere in t. */
  ghost predicate Occurs(s: string, t: string) {
    exists k :: OccursAt(s, t, k)
  }

  lemma OccursInLeft(s: string, a: string, b: string)
    requires Occurs(s, a)
    ensures Occurs(s, a + b)
  {
    var k :| OccursAt(s, a, k);
    assert (a + b)[k..k + |s|] == a[k..k + |s|];
    assert OccursAt(s, a + b, k);
  }

  lemma OccursInRight(s: string, a: string, b: string)
    requires Occurs(s, b)
    ensures Occurs(s, a + b)
  {
    var k :| OccursAt(s, b, k);
    assert (a + b)[|a| + k..|a| + k + |s|] == b[k..k + |s|];
    assert OccursAt(s, a + b, |a| + k);
  }

  lemma OccursInSelf(s: string)
    ensures Occurs(s, s)
  {
    assert s[0..|s|] == s;
    assert OccursAt(s, s, 0);
  }

  /** Every line occurs in the joined text. */
  lemma {:induction false} JoinContains(lines: seq<string>, sep: string, i: int)
    requires 0 <= i < |lines|
    ensures Occurs(lines[i], Join(lines, sep))
  {
    if |lines| == 1 {
      OccursInSelf(lines[i]);
    } else if i == |lines| - 1 {
      OccursInSelf(lines[i]);
      OccursInRight(lines[i], Join(lines[..|lines| - 1], sep) + sep, lines[i]);
    } else {
      JoinContains(lines[..|lines| - 1], sep, i);
      OccursInLeft(lines[i], Join(lines[..|lines| - 1], sep), sep + lines[|lines| - 1]);
      assert Join(lines[..|lines| - 1], sep) + sep + lines[|lines| - 1] ==
        Join(lines[..|lines| - 1], sep) + (sep + lines[|lines| - 1]);
    }
  }

  /** Joining two non-empty runs of lines puts sep between their joins. */
  lemma {:induction false} JoinAppend(a: seq<string>, b: seq<string>, sep: string)
    requires |a| > 0 && |b| > 0
    ensures Join(a + b, sep) == Join(a, sep) + sep + Join(b, sep)
  {
    assert (a + b)[..|a + b| - 1] == a + b[..|b| - 1];
    if |b| > 1 {
      JoinAppend(a, b[..|b| - 1], sep);
    } else {
      assert (a + b)[..|a + b| - 1] == a;
    }
  }

  // ---------------------------------------------------------------------
  // The layout.
  // ---------------------------------------------------------------------

  const JOURNAL_TITLE: string := "# Commander's Journal"
  const NO_DATA: string := "No data available."
  /** The whole report when there is nothing to report: the title, a blank
      line, and the notice. */
  const EMPTY_REPORT: string := JOURNAL_TITLE + "\n\n" + NO_DATA
  const DISPOSITIONS: string := "\n**Unit Dispositions:**"
  const TABLE_HEADER: string := "| Unit ID | Side | Position (X,Y) |"
  const TABLE_SEP: string := "|---|---|---|"
  const BLOCK_END: string := "\n---"

  /** The summary at the top of a report of n frames. */
  function Header(n: nat): seq<string> {
    [JOURNAL_TITLE, "", "## Tactical Summary", "**Total Frames:** " + NatToString(n), "---"]
  }

  /** A unit's position as the table shows it: "(x, y)". */
  function Position(u: Unit): string {
    "(" + IntToString(u.x) + ", " + IntToString(u.y) + ")"
  }

  /** A unit's table row: id, side as sideName renders it, and position. */
  function UnitRow(u: Unit, sideName: Side -> string): string {
    "| " + u.unitId + " | " + sideName(u.side) + " | " + Position(u) + " |"
  }

  /** The table rows of the units: the k-th row is the row of the k-th unit. */
  function UnitRows(us: seq<Unit>, sideName: Side -> string): seq<string> {
    seq(|us|, k requires 0 <= k < |us| => UnitRow(us[k], sideName))
  }

  /** Taking one more unit adds its row at the end. */
  lemma UnitRowsGrow(us: seq<Unit>, j: nat, sideName: Side -> string)
    requires j < |us|
    ensures UnitRows(us[..j + 1], sideName) == UnitRows(us[..j], sideName) + [UnitRow(us[j], sideName)]
  {
    var a, b := UnitRows(us[..j + 1], sideName), UnitRows(us[..j], sideName) + [UnitRow(us[j], sideName)];
    forall k | 0 <= k < |a|
      ensures a[k] == b[k]
    {
      assert us[..j + 1][k] == us[k];
      if k < j {
        assert us[..j][k] == us[k];
      }
    }
  }

  lemma SnocAssoc<T>(a: seq<T>, b: seq<T>, x: T)
    ensures a + b + [x] == a + (b + [x])
  {
  }

  function HeadingLine(n: nat): string {
    "### Frame " + NatToString(n)
  }

  function SituationLine(f: Frame): string {
    "**Situation:** " + f.description
  }

  /** The unit table of a frame: caption, header, separator and one row per
      unit; nothing at all for a frame without units. */
  function TableLines(f: Frame, sideName: Side -> string): seq<string> {
    if |f.units| > 0 then [DISPOSITIONS, TABLE_HEADER, TABLE_SEP] + UnitRows(f.units, sideName) else []
  }

  /** The lines of frame f shown as frame n: heading, situation, the unit
      table, and the closing rule. */
  function FrameBlock(n: nat, f: Frame, sideName: Side -> string): seq<string> {
    [HeadingLine(n), SituationLine(f)] + TableLines(f, sideName) + [BLOCK_END]
  }

  /** The head followed by the first i blocks, in order. */
  function Stack(head: seq<string>, blocks: seq<seq<string>>, i: nat): seq<string>
    requires i <= |blocks|
  {
    if i == 0 then head else Stack(head, blocks, i - 1) + blocks[i - 1]
  }

  /** The block of each frame, frame i shown as frame i + 1. */
  function FrameBlocks(fs: seq<Frame>, sideName: Side -> string): seq<seq<string>> {
    seq(|fs|, i requires 0 <= i < |fs| => FrameBlock(i + 1, fs[i], sideName))
  }

  /** The report's lines up to and including the block of frame i (the
      first i frames, shown as frames 1 to i), after the summary. */
  function LinesThrough(fs: seq<Frame>, i: nat, sideName: Side -> string): seq<string>
    requires i <= |fs|
  {
    Stack(Header(|fs|), FrameBlocks(fs, sideName), i)
  }

  /** The lines of the report on the frames of a scenario. */
  function ReportLines(fs: seq<Frame>, sideName: Side -> string): seq<string> {
    LinesThrough(fs, |fs|, sideName)
  }

  /** The report: the fixed notice when there is no scenario or it has no
      frames, otherwise its lines joined with newlines. */
  function Report(s: Option<WargameScenario>, sideName: Side -> string): string {
    if s.None? || |s.value.frames| == 0 then EMPTY_REPORT
    else Join(ReportLines(s.value.frames, sideName), "\n")
  }

  /** Appends one table row per unit, in list order. */
  method AppendUnitRows(lines: seq<string>, units: seq<Unit>, sideName: Side -> string) returns (r: seq<string>)
    ensures r == lines + UnitRows(units, sideName)
  {
    r := lines;
    for j := 0 to |units|
      invariant r == lines + UnitRows(units[..j], sideName)
    {
      var unit := units[j];
      var posStr := "(" + IntToString(unit.x) + ", " + IntToString(unit.y) + ")";
      var row := "| " + unit.unitId + " | " + sideName(unit.side) + " | " + posStr + " |";
      assert posStr == Position(unit);
      assert row == UnitRow(unit, sideName);
      UnitRowsGrow(units, j, sideName);
      SnocAssoc(lines, UnitRows(units[..j], sideName), row);
      r := r + [row];
    }
    assert units[..|units|] == units;
  }

  /** Appending lines one at a time appends them as one run. */
  lemma AppendOneByOne(lines: seq<string>, a: string, b: string, rest: seq<string>, last: string)
    ensures lines + [a] + [b] + rest + [last] == lines + ([a, b] + rest + [last])
  {
  }

  lemma AppendTableStart(lines: seq<string>, a: string, b: string, c: string, rows: seq<string>)
    ensures lines + [a] + [b] + [c] + rows == lines + ([a, b, c] + rows)
  {
  }

  /** Appends the lines of one frame, shown as frame n. */
  method AppendFrameBlock(lines: seq<string>, n: nat, frame: Frame, sideName: Side -> string) returns (r: seq<string>)
    ensures r == lines + FrameBlock(n, frame, sideName)
  {
    var heading := "### Frame " + NatToString(n);
    var situation := "**Situation:** " + frame.description;
    r := lines + [heading];
    r := r + [situation];
    ghost var afterHeading := r;
    ghost var table: seq<string> := [];
    if |frame.units| > 0 {
      r := r + [DISPOSITIONS];
      var header := TABLE_HEADER;
      var sep := TABLE_SEP;
      r := r + [header];
      r := r + [sep];
      r := AppendUnitRows(r, frame.units, sideName);
      table := [DISPOSITIONS, TABLE_HEADER, TABLE_SEP] + UnitRows(frame.units, sideName);
      AppendTableStart(afterHeading, DISPOSITIONS, TABLE_HEADER, TABLE_SEP, UnitRows(frame.units, sideName));
    }
    assert r == afterHeading + table;
    r := r + [BLOCK_END];
    AppendOneByOne(lines, heading, situation, table, BLOCK_END);
  }

  /** Builds the report line by line. */
  method GenerateMarkdownReport(s: Option<WargameScenario>, sideName: Side -> string) returns (report: string)
    ensures report == Report(s, sideName)
  {
    if s.None? || |s.value.frames| == 0 {
      return EMPTY_REPORT;
    }
    var frames := s.value.frames;
    var lines := [JOURNAL_TITLE, ""];
    lines := lines + ["## Tactical Summary"];
    lines := lines + ["**Total Frames:** " + NatToString(|frames|)];
    lines := lines + ["---"];
    assert lines == LinesThrough(frames, 0, sideName);
    for i := 0 to |frames|
      invariant lines == LinesThrough(frames, i, sideName)
    {
      lines := AppendFrameBlock(lines, i + 1, frames[i], sideName);
    }
    report := Join(lines, "\n");
  }
}
