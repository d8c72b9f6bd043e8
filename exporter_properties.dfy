/** What the report promises: the notice exactly when there is nothing to
    report, the summary first, one block per frame in frame order with the
    layout of a block, and every unit id and situation somewhere in the text. */
module ExporterProperties {
  import opened Models
  import opened Exporter

  // ---------------------------------------------------------------------
  // Where the lines are.
  // ---------------------------------------------------------------------

  /** A prefix of a is a prefix of a followed by anything. */
  lemma PrefixGrows<T>(p: seq<T>, a: seq<T>, b: seq<T>)
    requires |p| <= |a| && a[..|p|] == p
    ensures |p| <= |a + b| && (a + b)[..|p|] == p
  {
    assert (a + b)[..|p|] == a[..|p|];
  }

  /** What follows a in the prefix a + b of c is b. */
  lemma SliceAfterPrefix<T>(a: seq<T>, b: seq<T>, c: seq<T>)
    requires |a + b| <= |c| && c[..|a + b|] == a + b
    ensures c[|a|..|a| + |b|] == b
  {
    assert c[|a|..|a| + |b|] == (a + b)[|a|..];
  }

  /** The first i blocks on the head start the first j blocks on it. */
  lemma {:induction false} StackPrefix(head: seq<string>, blocks: seq<seq<string>>, i: nat, j: nat)
    requires i <= j <= |blocks|
    ensures |Stack(head, blocks, i)| <= |Stack(head, blocks, j)|
    ensures Stack(head, blocks, j)[..|Stack(head, blocks, i)|] == Stack(head, blocks, i)
  {
    var p := Stack(head, blocks, i);
    if i == j {
      assert Stack(head, blocks, j)[..|p|] == p;
    } else {
      StackPrefix(head, blocks, i, j - 1);
      PrefixGrows(p, Stack(head, blocks, j - 1), blocks[j - 1]);
    }
  }

  /** The lines through frame i start the lines through any later frame. */
  lemma LinesThroughPrefix(fs: seq<Frame>, i: nat, j: nat, sideName: Side -> string)
    requires i <= j <= |fs|
    ensures |LinesThrough(fs, i, sideName)| <= |LinesThrough(fs, j, sideName)|
    ensures LinesThrough(fs, j, sideName)[..|LinesThrough(fs, i, sideName)|] == LinesThrough(fs, i, sideName)
  {
    StackPrefix(Header(|fs|), FrameBlocks(fs, sideName), i, j);
  }

  /** The report's lines start with the summary: title, blank line, section
      heading, frame count, rule. */
  lemma SummaryFirst(fs: seq<Frame>, sideName: Side -> string)
    ensures |ReportLines(fs, sideName)| >= 5
    ensures ReportLines(fs, sideName)[..5] == Header(|fs|)
    ensures ReportLines(fs, sideName)[0] == "# Commander's Journal"
    ensures ReportLines(fs, sideName)[1] == "" && ReportLines(fs, sideName)[2] == "## Tactical Summary"
    ensures ReportLines(fs, sideName)[3] == "**Total Frames:** " + NatToString(|fs|)
  {
    LinesThroughPrefix(fs, 0, |fs|, sideName);
    var h := Header(|fs|);
    assert LinesThrough(fs, 0, sideName) == h;
    var r := ReportLines(fs, sideName);
    assert r[..5] == h;
    assert r[0] == r[..5][0];
    assert r[1] == r[..5][1] && r[2] == r[..5][2];
    assert r[3] == r[..5][3];
  }

  /** Frame i's block, shown as frame i + 1, follows the blocks of the frames
      before it and is followed by the blocks of the frames after it. */
  lemma FrameBlockPlace(fs: seq<Frame>, i: nat, sideName: Side -> string)
    requires i < |fs|
    ensures var start := |LinesThrough(fs, i, sideName)|;
      var block := FrameBlock(i + 1, fs[i], sideName);
      start + |block| <= |ReportLines(fs, sideName)| &&
      ReportLines(fs, sideName)[start..start + |block|] == block
  {
    var head, blocks := Header(|fs|), FrameBlocks(fs, sideName);
    assert blocks[i] == FrameBlock(i + 1, fs[i], sideName);
    StackPrefix(head, blocks, i + 1, |fs|);
    SliceAfterPrefix(Stack(head, blocks, i), blocks[i], Stack(head, blocks, |fs|));
  }

  /** Blocks come in frame order: frame i's block starts where the lines
      through the previous frame end, and ends where the next one starts. */
  lemma BlocksInOrder(fs: seq<Frame>, i: nat, sideName: Side -> string)
    requires i < |fs|
    ensures |LinesThrough(fs, i + 1, sideName)| ==
      |LinesThrough(fs, i, sideName)| + |FrameBlock(i + 1, fs[i], sideName)|
    ensures |LinesThrough(fs, i, sideName)| < |LinesThrough(fs, i + 1, sideName)|
  {
  }

  // ---------------------------------------------------------------------
  // The layout of one block.
  // ---------------------------------------------------------------------

  /** The layout of two lines, a run of lines and a last line. */
  lemma BlockLayout(h: string, s: string, t: seq<string>, e: string)
    ensures var b := [h, s] + t + [e];
      |b| == |t| + 3 && b[0] == h && b[1] == s && b[|b| - 1] == e &&
      forall k :: 0 <= k < |t| ==> b[2 + k] == t[k]
  {
  }

  /** A block is the heading, the situation, the unit table when there are
      units, and the closing rule; the table starts with the caption, the
      header and the separator. */
  lemma FrameBlockShape(n: nat, f: Frame, sideName: Side -> string)
    ensures var b := FrameBlock(n, f, sideName);
      |b| == (if |f.units| > 0 then 6 + |f.units| else 3) &&
      b[0] == HeadingLine(n) && b[1] == SituationLine(f) && b[|b| - 1] == BLOCK_END
    ensures |f.units| > 0 ==> var b := FrameBlock(n, f, sideName);
      b[2] == DISPOSITIONS && b[3] == TABLE_HEADER && b[4] == TABLE_SEP
  {
    BlockLayout(HeadingLine(n), SituationLine(f), TableLines(f, sideName), BLOCK_END);
  }

  lemma TableRowAt(a: string, b: string, c: string, rows: seq<string>, k: nat)
    requires k < |rows|
    ensures ([a, b, c] + rows)[3 + k] == rows[k]
  {
  }

  /** After the separator the table has one row per unit, in list order. */
  lemma FrameBlockRow(n: nat, f: Frame, sideName: Side -> string, k: nat)
    requires k < |f.units|
    ensures 5 + k < |FrameBlock(n, f, sideName)|
    ensures FrameBlock(n, f, sideName)[5 + k] == UnitRow(f.units[k], sideName)
  {
    var rows := UnitRows(f.units, sideName);
    TableRowAt(DISPOSITIONS, TABLE_HEADER, TABLE_SEP, rows, k);
    BlockLayout(HeadingLine(n), SituationLine(f), TableLines(f, sideName), BLOCK_END);
  }

  /** The table header is in a block exactly when the frame has units. */
  lemma TableIffUnits(n: nat, f: Frame, sideName: Side -> string)
    ensures TABLE_HEADER in FrameBlock(n, f, sideName) <==> |f.units| > 0
  {
    var b := FrameBlock(n, f, sideName);
    FrameBlockShape(n, f, sideName);
    if |f.units| == 0 {
      assert b == [b[0], b[1], b[2]];
      assert b[0][0] == '#' && b[1][0] == '*' && b[2][0] == '\n' && TABLE_HEADER[0] == '|';
    } else {
      assert b[3] == TABLE_HEADER;
    }
  }

  // ---------------------------------------------------------------------
  // What the text contains.
  // ---------------------------------------------------------------------

  /** Text inside a line inside a text is inside the text. */
  lemma OccursTransitive(s: string, line: string, t: string)
    requires Occurs(s, line) && Occurs(line, t)
    ensures Occurs(s, t)
  {
    var i :| OccursAt(s, line, i);
    var j :| OccursAt(line, t, j);
    forall m | 0 <= m < |s|
      ensures t[j + i + m] == s[m]
    {
      assert t[j + i + m] == t[j..j + |line|][i + m];
      assert s[m] == line[i..i + |s|][m];
    }
    assert t[j + i..j + i + |s|] == s;
    assert OccursAt(s, t, j + i);
  }

  /** Every line of a non-empty report occurs in its text. */
  lemma LineInReport(s: WargameScenario, sideName: Side -> string, idx: int)
    requires |s.frames| > 0
    requires 0 <= idx < |ReportLines(s.frames, sideName)|
    ensures Occurs(ReportLines(s.frames, sideName)[idx], Report(Some(s), sideName))
  {
    JoinContains(ReportLines(s.frames, sideName), "\n", idx);
  }

  /** The summary's title and frame count are in a non-empty report. */
  lemma SummaryInReport(s: WargameScenario, sideName: Side -> string)
    requires |s.frames| > 0
    ensures Occurs("# Commander's Journal", Report(Some(s), sideName))
    ensures Occurs("**Total Frames:** " + NatToString(|s.frames|), Report(Some(s), sideName))
  {
    SummaryFirst(s.frames, sideName);
    LineInReport(s, sideName, 0);
    LineInReport(s, sideName, 3);
  }

  lemma IndexInSlice<T>(c: seq<T>, start: nat, b: seq<T>, m: nat)
    requires start + |b| <= |c| && c[start..start + |b|] == b && m < |b|
    ensures c[start + m] == b[m]
  {
    assert c[start + m] == c[start..start + |b|][m];
  }

  /** Every line of frame i's block is a line of the report. */
  lemma BlockLineInReport(s: WargameScenario, sideName: Side -> string, i: nat, m: nat)
    requires i < |s.frames| && m < |FrameBlock(i + 1, s.frames[i], sideName)|
    ensures Occurs(FrameBlock(i + 1, s.frames[i], sideName)[m], Report(Some(s), sideName))
  {
    var fs := s.frames;
    var start := |LinesThrough(fs, i, sideName)|;
    FrameBlockPlace(fs, i, sideName);
    IndexInSlice(ReportLines(fs, sideName), start, FrameBlock(i + 1, fs[i], sideName), m);
    LineInReport(s, sideName, start + m);
  }

  /** Frame i's heading and situation line are lines of the report. */
  lemma SituationLinesInReport(s: WargameScenario, sideName: Side -> string, i: nat)
    requires i < |s.frames|
    ensures Occurs(HeadingLine(i + 1), Report(Some(s), sideName))
    ensures Occurs(SituationLine(s.frames[i]), Report(Some(s), sideName))
  {
    BlockLineInReport(s, sideName, i, 0);
    BlockLineInReport(s, sideName, i, 1);
  }

  lemma DescriptionInSituation(f: Frame)
    ensures Occurs(f.description, SituationLine(f))
  {
    var line := SituationLine(f);
    assert line[15..15 + |f.description|] == f.description;
    assert OccursAt(f.description, line, 15);
  }

  /** Frame i's heading and situation are in the report. */
  lemma SituationInReport(s: WargameScenario, sideName: Side -> string, i: nat)
    requires i < |s.frames|
    ensures Occurs(HeadingLine(i + 1), Report(Some(s), sideName))
    ensures Occurs(s.frames[i].description, Report(Some(s), sideName))
  {
    SituationLinesInReport(s, sideName, i);
    DescriptionInSituation(s.frames[i]);
    OccursTransitive(s.frames[i].description, SituationLine(s.frames[i]), Report(Some(s), sideName));
  }

  /** Unit k's row of frame i is a line of the report. */
  lemma RowInReport(s: WargameScenario, sideName: Side -> string, i: nat, k: nat)
    requires i < |s.frames| && k < |s.frames[i].units|
    ensures Occurs(UnitRow(s.frames[i].units[k], sideName), Report(Some(s), sideName))
  {
    FrameBlockRow(i + 1, s.frames[i], sideName, k);
    BlockLineInReport(s, sideName, i, 5 + k);
  }

  lemma IdInRow(u: Unit, sideName: Side -> string)
    ensures Occurs(u.unitId, UnitRow(u, sideName))
  {
    var row := UnitRow(u, sideName);
    assert row == "| " + u.unitId + (" | " + sideName(u.side) + " | " + Position(u) + " |");
    assert row[2..2 + |u.unitId|] == u.unitId;
    assert OccursAt(u.unitId, row, 2);
  }

  /** Every unit id of every frame is in the report. */
  lemma UnitIdInReport(s: WargameScenario, sideName: Side -> string, i: nat, k: nat)
    requires i < |s.frames| && k < |s.frames[i].units|
    ensures Occurs(s.frames[i].units[k].unitId, Report(Some(s), sideName))
  {
    var u := s.frames[i].units[k];
    RowInReport(s, sideName, i, k);
    IdInRow(u, sideName);
    OccursTransitive(u.unitId, UnitRow(u, sideName), Report(Some(s), sideName));
  }

  // ---------------------------------------------------------------------
  // The notice.
  // ---------------------------------------------------------------------

  /** Joining puts the first line, then sep, then the join of the rest. */
  lemma JoinFront(lines: seq<string>, sep: string)
    requires |lines| >= 2
    ensures Join(lines, sep) == lines[0] + sep + Join(lines[1..], sep)
  {
    assert lines == lines[..1] + lines[1..];
    JoinAppend(lines[..1], lines[1..], sep);
  }

  /** When the second line is empty and the separator one character, the
      third line starts two characters after the first line ends. */
  lemma ThirdLineStart(lines: seq<string>, sep: string)
    requires |lines| >= 4 && |lines[1]| == 0 && |lines[2]| > 0 && |sep| == 1
    ensures |Join(lines, sep)| > |lines[0]| + 2
    ensures Join(lines, sep)[|lines[0]| + 2] == lines[2][0]
  {
    JoinFront(lines, sep);
    JoinFront(lines[1..], sep);
    JoinFront(lines[2..], sep);
    assert lines[1..][0] == lines[1] && lines[1..][1..] == lines[2..] && lines[2..][0] == lines[2];
  }

  /** The report is the notice exactly when there is no scenario or it has
      no frames; a real report has the section heading where the notice has
      its text. */
  lemma NoticeIffNothingToReport(s: Option<WargameScenario>, sideName: Side -> string)
    ensures Report(s, sideName) == EMPTY_REPORT <==>
      s.None? || |s.value.frames| == 0
  {
    if s.Some? && |s.value.frames| > 0 {
      var lines := ReportLines(s.value.frames, sideName);
      SummaryFirst(s.value.frames, sideName);
      ThirdLineStart(lines, "\n");
      assert |lines[0]| == 21 && lines[2][0] == '#';
      assert |JOURNAL_TITLE + "\n\n"| == 23;
      assert EMPTY_REPORT[23] == NO_DATA[0] == 'N';
    }
  }

  /** The notice says there is no data. */
  lemma NoticeSaysNoData(s: Option<WargameScenario>, sideName: Side -> string)
    requires s.None? || |s.value.frames| == 0
    ensures Occurs("No data available.", Report(s, sideName))
  {
    OccursInSelf(NO_DATA);
    OccursInRight(NO_DATA, JOURNAL_TITLE + "\n\n", NO_DATA);
  }

  lemma FrameCountTwoText()
    ensures "**Total Frames:** " + NatToString(2) == "**Total Frames:** 2"
  {
    assert NatToString(2) == [DigitChar(2)] && DigitChar(2) == '2';
  }

  lemma HeadingOneText()
    ensures HeadingLine(1) == "### Frame 1"
  {
    assert NatToString(1) == [DigitChar(1)] && DigitChar(1) == '1';
  }

  /** A two-frame report gives its frame count as 2. */
  lemma TwoFrameCount(s: WargameScenario, sideName: Side -> string)
    requires |s.frames| == 2
    ensures Occurs("**Total Frames:** 2", Report(Some(s), sideName))
  {
    SummaryInReport(s, sideName);
    FrameCountTwoText();
  }

  /** A report has the heading of its first frame. */
  lemma FirstFrameHeading(s: WargameScenario, sideName: Side -> string)
    requires |s.frames| > 0
    ensures Occurs("### Frame 1", Report(Some(s), sideName))
  {
    SituationInReport(s, sideName, 0);
    HeadingOneText();
  }

  /** The two-frame report of tests/conftest.py, as tests/test_exporter.py
      checks it: it has the title,
      the frame count 2, the first frame's heading, its situation "Start"
      and both unit ids. */
  lemma TwoFrameReport(s: WargameScenario, sideName: Side -> string)
    requires |s.frames| == 2 && s.frames[0].description == "Start"
    requires |s.frames[0].units| == 2
    requires s.frames[0].units[0].unitId == "A1" && s.frames[0].units[1].unitId == "B1"
    ensures var r := Report(Some(s), sideName);
      Occurs("# Commander's Journal", r) && Occurs("**Total Frames:** 2", r) &&
      Occurs("### Frame 1", r) && Occurs("Start", r) && Occurs("A1", r) && Occurs("B1", r)
  {
    SummaryInReport(s, sideName);
    TwoFrameCount(s, sideName);
    FirstFrameHeading(s, sideName);
    SituationInReport(s, sideName, 0);
    UnitIdInReport(s, sideName, 0, 0);
    UnitIdInReport(s, sideName, 0, 1);
  }
}
