/**
 * The comparison tables align_columns produces for the concrete inputs of
 * its unit tests, with previous version label FV2410 and subsequent version
 * label FV2504.
 *
 * Each scenario N is proved by a chain of small lemmas, each of which unfolds
 * one step so that no proof sees much concrete data at once:
 *  - KMatching<i>x<j>: the canonical matching from positions (i, j) of the
 *    key columns, one state per lemma, built backwards from the end with
 *    MatchingHead, MatchingSkipPrev and MatchingSkipSub (K names the first
 *    scenario with those key columns; scenarios sharing them share the chain);
 *  - KWalk<i>x<j>: the edit script Linearize makes from state (i, j) on;
 *  - KScript and KStepsAt: the whole script of Align, and its steps one by one;
 *  - NSteps, NSound: the script of the two tables, and that it is sound;
 *  - NDiffer<k>, NCells<k> and NRow<k>: the differing fields of the k-th
 *    matched pair, and the k-th comparison row, cell by cell;
 *  - NRows: all rows, collected by RowsOf<n>;
 *  - N: the columns and rows put together by Assembled into the result of
 *    AlignColumns.
 * Splice<n>, <n>ColumnFields, <n>ColumnCells and <n>ColumnNames* spell out
 * rows, compared fields, cells and suffixed names for one table width.
 */
module Scenarios {
  import opened Alignment
  import opened Classifier
  import opened Assembler

  const PV: string := "FV2410"
  const SV: string := "FV2504"

  /** changed_entries when only the group differs. */
  lemma GroupEntries()
    ensures Join(Entries(["Segmentgruppe"], PV, SV)) == "Segmentgruppe_FV2410|Segmentgruppe_FV2504"
  {
  }

  /** The entries of changed_entries when the data element and the qualifier differ. */
  lemma DataQualifierEntries()
    ensures Entries(["Datenelement", "Qualifier"], PV, SV)
         == ["Datenelement_FV2410", "Datenelement_FV2504", "Qualifier_FV2410", "Qualifier_FV2504"]
  {
    assert "Datenelement" + "_" + PV == "Datenelement_FV2410";
    assert "Datenelement" + "_" + SV == "Datenelement_FV2504";
    assert "Qualifier" + "_" + PV == "Qualifier_FV2410";
    assert "Qualifier" + "_" + SV == "Qualifier_FV2504";
  }


  /** The result of align_columns from its columns and the rows of its script. */
  lemma Assembled(p: Table, q: Table, cols: seq<string>, rows: seq<seq<string>>)
    requires WellFormed(p) && WellFormed(q) && KeyField in p.columns && KeyField in q.columns
    requires SoundScript(p, q, Script(p, q))
    requires OutputColumns(p.columns, q.columns, PV, SV) == cols
    requires Rows(p, q, PV, SV, Script(p, q)) == rows
    ensures AlignColumns(p, q, PV, SV) == Success(Table(cols, rows))
  {
  }
  /** The key columns of SingleColumn. */
  predicate SingleColumnKeyColumns(a: seq<Key>, b: seq<Key>)
  {
    a == ["1", "2", "3", "4", "5", "6", "9", "10"] && b == ["1", "2", "3", "5", "6", "7", "8", "9", "10"]
  }

  lemma SingleColumnMatching7x8(a: seq<Key>, b: seq<Key>)
    requires SingleColumnKeyColumns(a, b)
    ensures Matching(a, b, 7, 8) == [(7, 8)]
  {
    MatchingHead(a, b, 7, 8);
  }

  lemma SingleColumnMatching6x7(a: seq<Key>, b: seq<Key>)
    requires SingleColumnKeyColumns(a, b)
    ensures Matching(a, b, 6, 7) == [(6, 7), (7, 8)]
  {
    SingleColumnMatching7x8(a, b);
    MatchingHead(a, b, 6, 7);
  }

  lemma SingleColumnMatching6x6(a: seq<Key>, b: seq<Key>)
    requires SingleColumnKeyColumns(a, b)
    ensures Matching(a, b, 6, 6) == [(6, 7), (7, 8)]
  {
    SingleColumnMatching6x7(a, b);
    MatchingSkipSub(a, b, 6, 6);
  }

  lemma SingleColumnMatching6x5(a: seq<Key>, b: seq<Key>)
    requires SingleColumnKeyColumns(a, b)
    ensures Matching(a, b, 6, 5) == [(6, 7), (7, 8)]
  {
    SingleColumnMatching6x6(a, b);
    MatchingSkipSub(a, b, 6, 5);
  }

  lemma SingleColumnMatching5x4(a: seq<Key>, b: seq<Key>)
    requires SingleColumnKeyColumns(a, b)
    ensures Matching(a, b, 5, 4) == [(5, 4), (6, 7), (7, 8)]
  {
    SingleColumnMatching6x5(a, b);
    MatchingHead(a, b, 5, 4);
  }

  lemma SingleColumnMatching4x3(a: seq<Key>, b: seq<Key>)
    requires SingleColumnKeyColumns(a, b)
    ensures Matching(a, b, 4, 3) == [(4, 3), (5, 4), (6, 7), (7, 8)]
  {
    SingleColumnMatching5x4(a, b);
    MatchingHead(a, b, 4, 3);
  }

  lemma SingleColumnMatching3x3(a: seq<Key>, b: seq<Key>)
    requires SingleColumnKeyColumns(a, b)
    ensures Matching(a, b, 3, 3) == [(4, 3), (5, 4), (6, 7), (7, 8)]
  {
    SingleColumnMatching4x3(a, b);
    MatchingSkipPrev(a, b, 3, 3);
  }

  lemma SingleColumnMatching2x2(a: seq<Key>, b: seq<Key>)
    requires SingleColumnKeyColumns(a, b)
    ensures Matching(a, b, 2, 2) == [(2, 2), (4, 3), (5, 4), (6, 7), (7, 8)]
  {
    SingleColumnMatching3x3(a, b);
    MatchingHead(a, b, 2, 2);
  }

  lemma SingleColumnMatching1x1(a: seq<Key>, b: seq<Key>)
    requires SingleColumnKeyColumns(a, b)
    ensures Matching(a, b, 1, 1) == [(1, 1), (2, 2), (4, 3), (5, 4), (6, 7), (7, 8)]
  {
    SingleColumnMatching2x2(a, b);
    MatchingHead(a, b, 1, 1);
  }

  lemma SingleColumnMatching0x0(a: seq<Key>, b: seq<Key>)
    requires SingleColumnKeyColumns(a, b)
    ensures Matching(a, b, 0, 0) == [(0, 0), (1, 1), (2, 2), (4, 3), (5, 4), (6, 7), (7, 8)]
  {
    SingleColumnMatching1x1(a, b);
    MatchingHead(a, b, 0, 0);
  }

  lemma SingleColumnWalk7x8(ms: seq<Pair>)
    requires ms == [(7, 8)]
    ensures InWindow(ms, 7, 8, 8, 9)
    ensures Linearize(ms, 7, 8, 8, 9) == [Match(7, 8)]
  {
  }

  lemma SingleColumnWalk6x7(ms: seq<Pair>)
    requires ms == [(6, 7), (7, 8)]
    ensures InWindow(ms, 6, 7, 8, 9)
    ensures Linearize(ms, 6, 7, 8, 9) == [Match(6, 7), Match(7, 8)]
  {
    SingleColumnWalk7x8(ms[1..]);
  }

  lemma SingleColumnWalk6x6(ms: seq<Pair>)
    requires ms == [(6, 7), (7, 8)]
    ensures InWindow(ms, 6, 6, 8, 9)
    ensures Linearize(ms, 6, 6, 8, 9) == [Insert(6), Match(6, 7), Match(7, 8)]
  {
    SingleColumnWalk6x7(ms);
  }

  lemma SingleColumnWalk6x5(ms: seq<Pair>)
    requires ms == [(6, 7), (7, 8)]
    ensures InWindow(ms, 6, 5, 8, 9)
    ensures Linearize(ms, 6, 5, 8, 9) == [Insert(5), Insert(6), Match(6, 7), Match(7, 8)]
  {
    SingleColumnWalk6x6(ms);
  }

  lemma SingleColumnWalk5x4(ms: seq<Pair>)
    requires ms == [(5, 4), (6, 7), (7, 8)]
    ensures InWindow(ms, 5, 4, 8, 9)
    ensures Linearize(ms, 5, 4, 8, 9) == [Match(5, 4), Insert(5), Insert(6), Match(6, 7), Match(7, 8)]
  {
    SingleColumnWalk6x5(ms[1..]);
  }

  lemma SingleColumnWalk4x3(ms: seq<Pair>)
    requires ms == [(4, 3), (5, 4), (6, 7), (7, 8)]
    ensures InWindow(ms, 4, 3, 8, 9)
    ensures Linearize(ms, 4, 3, 8, 9) == [Match(4, 3), Match(5, 4), Insert(5), Insert(6), Match(6, 7), Match(7, 8)]
  {
    SingleColumnWalk5x4(ms[1..]);
  }

  lemma SingleColumnWalk3x3(ms: seq<Pair>)
    requires ms == [(4, 3), (5, 4), (6, 7), (7, 8)]
    ensures InWindow(ms, 3, 3, 8, 9)
    ensures Linearize(ms, 3, 3, 8, 9) == [Delete(3), Match(4, 3), Match(5, 4), Insert(5), Insert(6), Match(6, 7), Match(7, 8)]
  {
    SingleColumnWalk4x3(ms);
  }

  lemma SingleColumnWalk2x2(ms: seq<Pair>)
    requires ms == [(2, 2), (4, 3), (5, 4), (6, 7), (7, 8)]
    ensures InWindow(ms, 2, 2, 8, 9)
    ensures Linearize(ms, 2, 2, 8, 9) == [Match(2, 2), Delete(3), Match(4, 3), Match(5, 4), Insert(5), Insert(6), Match(6, 7), Match(7, 8)]
  {
    SingleColumnWalk3x3(ms[1..]);
  }

  lemma SingleColumnWalk1x1(ms: seq<Pair>)
    requires ms == [(1, 1), (2, 2), (4, 3), (5, 4), (6, 7), (7, 8)]
    ensures InWindow(ms, 1, 1, 8, 9)
    ensures Linearize(ms, 1, 1, 8, 9) == [Match(1, 1), Match(2, 2), Delete(3), Match(4, 3), Match(5, 4), Insert(5), Insert(6), Match(6, 7), Match(7, 8)]
  {
    SingleColumnWalk2x2(ms[1..]);
  }

  lemma SingleColumnWalk0x0(ms: seq<Pair>)
    requires ms == [(0, 0), (1, 1), (2, 2), (4, 3), (5, 4), (6, 7), (7, 8)]
    ensures InWindow(ms, 0, 0, 8, 9)
    ensures Linearize(ms, 0, 0, 8, 9) == [Match(0, 0), Match(1, 1), Match(2, 2), Delete(3), Match(4, 3), Match(5, 4), Insert(5), Insert(6), Match(6, 7), Match(7, 8)]
  {
    SingleColumnWalk1x1(ms[1..]);
  }

  /** The alignment of the key columns of SingleColumn. */
  lemma SingleColumnScript(a: seq<Key>, b: seq<Key>)
    requires SingleColumnKeyColumns(a, b)
    ensures Align(a, b) == [Match(0, 0), Match(1, 1), Match(2, 2), Delete(3), Match(4, 3), Match(5, 4), Insert(5), Insert(6), Match(6, 7), Match(7, 8)]
  {
    SingleColumnMatching0x0(a, b);
    MatchingIsLongest(a, b, 0, 0);
    CommonInWindow(a, b, Matching(a, b, 0, 0), 0, 0);
    SingleColumnWalk0x0(Matching(a, b, 0, 0));
  }

  lemma SingleColumnStepsAt(s: seq<Step>)
    requires s == [Match(0, 0), Match(1, 1), Match(2, 2), Delete(3), Match(4, 3), Match(5, 4), Insert(5), Insert(6), Match(6, 7), Match(7, 8)]
    ensures |s| == 10
    ensures s[0] == Match(0, 0)
    ensures s[1] == Match(1, 1)
    ensures s[2] == Match(2, 2)
    ensures s[3] == Delete(3)
    ensures s[4] == Match(4, 3)
    ensures s[5] == Match(5, 4)
    ensures s[6] == Insert(5)
    ensures s[7] == Insert(6)
    ensures s[8] == Match(6, 7)
    ensures s[9] == Match(7, 8)
  {
  }

  // unittests/test_process_csv.py:21-62
  const SingleColumnPrev: Table := Table(["Segmentname"], [["1"], ["2"], ["3"], ["4"], ["5"], ["6"], ["9"], ["10"]])
  const SingleColumnSub: Table := Table(["Segmentname"], [["1"], ["2"], ["3"], ["5"], ["6"], ["7"], ["8"], ["9"], ["10"]])

  lemma SingleColumnKeys()
    ensures WellFormed(SingleColumnPrev) && WellFormed(SingleColumnSub) && KeyField in SingleColumnPrev.columns && KeyField in SingleColumnSub.columns
    ensures KeyColumn(SingleColumnPrev) == ["1", "2", "3", "4", "5", "6", "9", "10"] && KeyColumn(SingleColumnSub) == ["1", "2", "3", "5", "6", "7", "8", "9", "10"]
  {
  }

  lemma SingleColumnSteps()
    ensures WellFormed(SingleColumnPrev) && WellFormed(SingleColumnSub)
    ensures Script(SingleColumnPrev, SingleColumnSub) == [Match(0, 0), Match(1, 1), Match(2, 2), Delete(3), Match(4, 3), Match(5, 4), Insert(5), Insert(6), Match(6, 7), Match(7, 8)]
  {
    SingleColumnKeys();
    SingleColumnScript(KeyColumn(SingleColumnPrev), KeyColumn(SingleColumnSub));
  }

  lemma SingleColumnSound()
    ensures WellFormed(SingleColumnPrev) && WellFormed(SingleColumnSub) && SoundScript(SingleColumnPrev, SingleColumnSub, Script(SingleColumnPrev, SingleColumnSub))
  {
    SingleColumnKeys();
    AlignSound(KeyColumn(SingleColumnPrev), KeyColumn(SingleColumnSub));
  }

  /** The fields two tables with columns ["Segmentname"] are compared on. */
  lemma OneColumnFields(cols: seq<string>)
    requires cols == ["Segmentname"]
    ensures CompareFields(cols, cols) == []
  {
    SharedSchemaFields(cols);
  }

  /** A comparison row of width 4, cell by cell. */
  lemma SpliceOne(a: seq<string>, x: string, y: string, b: seq<string>)
    requires |a| == 1 && |b| == 1
    ensures a + [x, y] + b == [a[0], x, y, b[0]]
  {
  }

  lemma SingleColumnCells0(p: Table, q: Table)
    requires p == SingleColumnPrev && q == SingleColumnSub
    ensures WellFormed(p) && WellFormed(q) && SoundStep(KeyColumn(p), KeyColumn(q), Match(0, 0))
    ensures RowOf(p, q, PV, SV, Match(0, 0)) == ["1", "", "", "1"]
  {
    SingleColumnKeys();
    OneColumnFields(p.columns);
    var c := Classify(p.columns, p.rows[0], q.columns, q.rows[0], PV, SV);
    ClassifyEntries(p.columns, p.rows[0], q.columns, q.rows[0], PV, SV);
    SpliceOne(p.rows[0], Label(c.0), c.1, q.rows[0]);
  }

  lemma SingleColumnRow0(s: seq<Step>)
    requires WellFormed(SingleColumnPrev) && WellFormed(SingleColumnSub) && SoundScript(SingleColumnPrev, SingleColumnSub, s) && |s| == 10
    requires s[0] == Match(0, 0)
    ensures Rows(SingleColumnPrev, SingleColumnSub, PV, SV, s)[0] == ["1", "", "", "1"]
  {
    RowsAt(SingleColumnPrev, SingleColumnSub, PV, SV, s, 0);
    SingleColumnCells0(SingleColumnPrev, SingleColumnSub);
  }

  lemma SingleColumnCells1(p: Table, q: Table)
    requires p == SingleColumnPrev && q == SingleColumnSub
    ensures WellFormed(p) && WellFormed(q) && SoundStep(KeyColumn(p), KeyColumn(q), Match(1, 1))
    ensures RowOf(p, q, PV, SV, Match(1, 1)) == ["2", "", "", "2"]
  {
    SingleColumnKeys();
    OneColumnFields(p.columns);
    var c := Classify(p.columns, p.rows[1], q.columns, q.rows[1], PV, SV);
    ClassifyEntries(p.columns, p.rows[1], q.columns, q.rows[1], PV, SV);
    SpliceOne(p.rows[1], Label(c.0), c.1, q.rows[1]);
  }

  lemma SingleColumnRow1(s: seq<Step>)
    requires WellFormed(SingleColumnPrev) && WellFormed(SingleColumnSub) && SoundScript(SingleColumnPrev, SingleColumnSub, s) && |s| == 10
    requires s[1] == Match(1, 1)
    ensures Rows(SingleColumnPrev, SingleColumnSub, PV, SV, s)[1] == ["2", "", "", "2"]
  {
    RowsAt(SingleColumnPrev, SingleColumnSub, PV, SV, s, 1);
    SingleColumnCells1(SingleColumnPrev, SingleColumnSub);
  }

  lemma SingleColumnCells2(p: Table, q: Table)
    requires p == SingleColumnPrev && q == SingleColumnSub
    ensures WellFormed(p) && WellFormed(q) && SoundStep(KeyColumn(p), KeyColumn(q), Match(2, 2))
    ensures RowOf(p, q, PV, SV, Match(2, 2)) == ["3", "", "", "3"]
  {
    SingleColumnKeys();
    OneColumnFields(p.columns);
    var c := Classify(p.columns, p.rows[2], q.columns, q.rows[2], PV, SV);
    ClassifyEntries(p.columns, p.rows[2], q.columns, q.rows[2], PV, SV);
    SpliceOne(p.rows[2], Label(c.0), c.1, q.rows[2]);
  }

  lemma SingleColumnRow2(s: seq<Step>)
    requires WellFormed(SingleColumnPrev) && WellFormed(SingleColumnSub) && SoundScript(SingleColumnPrev, SingleColumnSub, s) && |s| == 10
    requires s[2] == Match(2, 2)
    ensures Rows(SingleColumnPrev, SingleColumnSub, PV, SV, s)[2] == ["3", "", "", "3"]
  {
    RowsAt(SingleColumnPrev, SingleColumnSub, PV, SV, s, 2);
    SingleColumnCells2(SingleColumnPrev, SingleColumnSub);
  }

  lemma SingleColumnCells3(p: Table, q: Table)
    requires p == SingleColumnPrev && q == SingleColumnSub
    ensures WellFormed(p) && WellFormed(q) && SoundStep(KeyColumn(p), KeyColumn(q), Delete(3))
    ensures RowOf(p, q, PV, SV, Delete(3)) == ["4", "ENTFÄLLT", "", ""]
  {
    SingleColumnKeys();
  }

  lemma SingleColumnRow3(s: seq<Step>)
    requires WellFormed(SingleColumnPrev) && WellFormed(SingleColumnSub) && SoundScript(SingleColumnPrev, SingleColumnSub, s) && |s| == 10
    requires s[3] == Delete(3)
    ensures Rows(SingleColumnPrev, SingleColumnSub, PV, SV, s)[3] == ["4", "ENTFÄLLT", "", ""]
  {
    RowsAt(SingleColumnPrev, SingleColumnSub, PV, SV, s, 3);
    SingleColumnCells3(SingleColumnPrev, SingleColumnSub);
  }

  lemma SingleColumnCells4(p: Table, q: Table)
    requires p == SingleColumnPrev && q == SingleColumnSub
    ensures WellFormed(p) && WellFormed(q) && SoundStep(KeyColumn(p), KeyColumn(q), Match(4, 3))
    ensures RowOf(p, q, PV, SV, Match(4, 3)) == ["5", "", "", "5"]
  {
    SingleColumnKeys();
    OneColumnFields(p.columns);
    var c := Classify(p.columns, p.rows[4], q.columns, q.rows[3], PV, SV);
    ClassifyEntries(p.columns, p.rows[4], q.columns, q.rows[3], PV, SV);
    SpliceOne(p.rows[4], Label(c.0), c.1, q.rows[3]);
  }

  lemma SingleColumnRow4(s: seq<Step>)
    requires WellFormed(SingleColumnPrev) && WellFormed(SingleColumnSub) && SoundScript(SingleColumnPrev, SingleColumnSub, s) && |s| == 10
    requires s[4] == Match(4, 3)
    ensures Rows(SingleColumnPrev, SingleColumnSub, PV, SV, s)[4] == ["5", "", "", "5"]
  {
    RowsAt(SingleColumnPrev, SingleColumnSub, PV, SV, s, 4);
    SingleColumnCells4(SingleColumnPrev, SingleColumnSub);
  }

  lemma SingleColumnCells5(p: Table, q: Table)
    requires p == SingleColumnPrev && q == SingleColumnSub
    ensures WellFormed(p) && WellFormed(q) && SoundStep(KeyColumn(p), KeyColumn(q), Match(5, 4))
    ensures RowOf(p, q, PV, SV, Match(5, 4)) == ["6", "", "", "6"]
  {
    SingleColumnKeys();
    OneColumnFields(p.columns);
    var c := Classify(p.columns, p.rows[5], q.columns, q.rows[4], PV, SV);
    ClassifyEntries(p.columns, p.rows[5], q.columns, q.rows[4], PV, SV);
    SpliceOne(p.rows[5], Label(c.0), c.1, q.rows[4]);
  }

  lemma SingleColumnRow5(s: seq<Step>)
    requires WellFormed(SingleColumnPrev) && WellFormed(SingleColumnSub) && SoundScript(SingleColumnPrev, SingleColumnSub, s) && |s| == 10
    requires s[5] == Match(5, 4)
    ensures Rows(SingleColumnPrev, SingleColumnSub, PV, SV, s)[5] == ["6", "", "", "6"]
  {
    RowsAt(SingleColumnPrev, SingleColumnSub, PV, SV, s, 5);
    SingleColumnCells5(SingleColumnPrev, SingleColumnSub);
  }

  lemma SingleColumnCells6(p: Table, q: Table)
    requires p == SingleColumnPrev && q == SingleColumnSub
    ensures WellFormed(p) && WellFormed(q) && SoundStep(KeyColumn(p), KeyColumn(q), Insert(5))
    ensures RowOf(p, q, PV, SV, Insert(5)) == ["", "NEU", "", "7"]
  {
    SingleColumnKeys();
  }

  lemma SingleColumnRow6(s: seq<Step>)
    requires WellFormed(SingleColumnPrev) && WellFormed(SingleColumnSub) && SoundScript(SingleColumnPrev, SingleColumnSub, s) && |s| == 10
    requires s[6] == Insert(5)
    ensures Rows(SingleColumnPrev, SingleColumnSub, PV, SV, s)[6] == ["", "NEU", "", "7"]
  {
    RowsAt(SingleColumnPrev, SingleColumnSub, PV, SV, s, 6);
    SingleColumnCells6(SingleColumnPrev, SingleColumnSub);
  }

  lemma SingleColumnCells7(p: Table, q: Table)
    requires p == SingleColumnPrev && q == SingleColumnSub
    ensures WellFormed(p) && WellFormed(q) && SoundStep(KeyColumn(p), KeyColumn(q), Insert(6))
    ensures RowOf(p, q, PV, SV, Insert(6)) == ["", "NEU", "", "8"]
  {
    SingleColumnKeys();
  }

  lemma SingleColumnRow7(s: seq<Step>)
    requires WellFormed(SingleColumnPrev) && WellFormed(SingleColumnSub) && SoundScript(SingleColumnPrev, SingleColumnSub, s) && |s| == 10
    requires s[7] == Insert(6)
    ensures Rows(SingleColumnPrev, SingleColumnSub, PV, SV, s)[7] == ["", "NEU", "", "8"]
  {
    RowsAt(SingleColumnPrev, SingleColumnSub, PV, SV, s, 7);
    SingleColumnCells7(SingleColumnPrev, SingleColumnSub);
  }

  lemma SingleColumnCells8(p: Table, q: Table)
    requires p == SingleColumnPrev && q == SingleColumnSub
    ensures WellFormed(p) && WellFormed(q) && SoundStep(KeyColumn(p), KeyColumn(q), Match(6, 7))
    ensures RowOf(p, q, PV, SV, Match(6, 7)) == ["9", "", "", "9"]
  {
    SingleColumnKeys();
    OneColumnFields(p.columns);
    var c := Classify(p.columns, p.rows[6], q.columns, q.rows[7], PV, SV);
    ClassifyEntries(p.columns, p.rows[6], q.columns, q.rows[7], PV, SV);
    SpliceOne(p.rows[6], Label(c.0), c.1, q.rows[7]);
  }

  lemma SingleColumnRow8(s: seq<Step>)
    requires WellFormed(SingleColumnPrev) && WellFormed(SingleColumnSub) && SoundScript(SingleColumnPrev, SingleColumnSub, s) && |s| == 10
    requires s[8] == Match(6, 7)
    ensures Rows(SingleColumnPrev, SingleColumnSub, PV, SV, s)[8] == ["9", "", "", "9"]
  {
    RowsAt(SingleColumnPrev, SingleColumnSub, PV, SV, s, 8);
    SingleColumnCells8(SingleColumnPrev, SingleColumnSub);
  }

  lemma SingleColumnCells9(p: Table, q: Table)
    requires p == SingleColumnPrev && q == SingleColumnSub
    ensures WellFormed(p) && WellFormed(q) && SoundStep(KeyColumn(p), KeyColumn(q), Match(7, 8))
    ensures RowOf(p, q, PV, SV, Match(7, 8)) == ["10", "", "", "10"]
  {
    SingleColumnKeys();
    OneColumnFields(p.columns);
    var c := Classify(p.columns, p.rows[7], q.columns, q.rows[8], PV, SV);
    ClassifyEntries(p.columns, p.rows[7], q.columns, q.rows[8], PV, SV);
    SpliceOne(p.rows[7], Label(c.0), c.1, q.rows[8]);
  }

  lemma SingleColumnRow9(s: seq<Step>)
    requires WellFormed(SingleColumnPrev) && WellFormed(SingleColumnSub) && SoundScript(SingleColumnPrev, SingleColumnSub, s) && |s| == 10
    requires s[9] == Match(7, 8)
    ensures Rows(SingleColumnPrev, SingleColumnSub, PV, SV, s)[9] == ["10", "", "", "10"]
  {
    RowsAt(SingleColumnPrev, SingleColumnSub, PV, SV, s, 9);
    SingleColumnCells9(SingleColumnPrev, SingleColumnSub);
  }

  /** A table body of 10 rows, row by row. */
  lemma RowsOfTen(r: seq<seq<string>>, x0: seq<string>, x1: seq<string>, x2: seq<string>, x3: seq<string>, x4: seq<string>, x5: seq<string>, x6: seq<string>, x7: seq<string>, x8: seq<string>, x9: seq<string>)
    requires |r| == 10 && r[0] == x0 && r[1] == x1 && r[2] == x2 && r[3] == x3 && r[4] == x4 && r[5] == x5 && r[6] == x6 && r[7] == x7 && r[8] == x8 && r[9] == x9
    ensures r == [x0, x1, x2, x3, x4, x5, x6, x7, x8, x9]
  {
  }

  lemma SingleColumnRows(s: seq<Step>)
    requires WellFormed(SingleColumnPrev) && WellFormed(SingleColumnSub) && SoundScript(SingleColumnPrev, SingleColumnSub, s) && |s| == 10
    requires s[0] == Match(0, 0)
    requires s[1] == Match(1, 1)
    requires s[2] == Match(2, 2)
    requires s[3] == Delete(3)
    requires s[4] == Match(4, 3)
    requires s[5] == Match(5, 4)
    requires s[6] == Insert(5)
    requires s[7] == Insert(6)
    requires s[8] == Match(6, 7)
    requires s[9] == Match(7, 8)
    ensures Rows(SingleColumnPrev, SingleColumnSub, PV, SV, s) == [["1", "", "", "1"], ["2", "", "", "2"], ["3", "", "", "3"], ["4", "ENTFÄLLT", "", ""], ["5", "", "", "5"], ["6", "", "", "6"], ["", "NEU", "", "7"], ["", "NEU", "", "8"], ["9", "", "", "9"], ["10", "", "", "10"]]
  {
    SingleColumnRow0(s);
    SingleColumnRow1(s);
    SingleColumnRow2(s);
    SingleColumnRow3(s);
    SingleColumnRow4(s);
    SingleColumnRow5(s);
    SingleColumnRow6(s);
    SingleColumnRow7(s);
    SingleColumnRow8(s);
    SingleColumnRow9(s);
    RowsOfTen(Rows(SingleColumnPrev, SingleColumnSub, PV, SV, s), ["1", "", "", "1"], ["2", "", "", "2"], ["3", "", "", "3"], ["4", "ENTFÄLLT", "", ""], ["5", "", "", "5"], ["6", "", "", "6"], ["", "NEU", "", "7"], ["", "NEU", "", "8"], ["9", "", "", "9"], ["10", "", "", "10"]);
  }

  /** The column names ["Segmentname"] suffixed with PV. */
  lemma OneColumnNamesPV()
    ensures Suffixed(["Segmentname"], PV) == ["Segmentname_FV2410"]
  {
    assert "Segmentname" + "_" + PV == "Segmentname_FV2410";
  }

  /** The column names ["Segmentname"] suffixed with SV. */
  lemma OneColumnNamesSV()
    ensures Suffixed(["Segmentname"], SV) == ["Segmentname_FV2504"]
  {
    assert "Segmentname" + "_" + SV == "Segmentname_FV2504";
  }

  lemma SingleColumnColumns()
    ensures OutputColumns(SingleColumnPrev.columns, SingleColumnSub.columns, PV, SV) == ["Segmentname_FV2410", "Änderung", "changed_entries", "Segmentname_FV2504"]
  {
    OneColumnNamesPV();
    OneColumnNamesSV();
  }

  /** Single key column: a removed segment and two added ones; the longest common subsequence has seven keys. */
  lemma SingleColumn()
    ensures AlignColumns(SingleColumnPrev, SingleColumnSub, PV, SV)
         == Success(Table(["Segmentname_FV2410", "Änderung", "changed_entries", "Segmentname_FV2504"],
                          [["1", "", "", "1"], ["2", "", "", "2"], ["3", "", "", "3"], ["4", "ENTFÄLLT", "", ""], ["5", "", "", "5"], ["6", "", "", "6"], ["", "NEU", "", "7"], ["", "NEU", "", "8"], ["9", "", "", "9"], ["10", "", "", "10"]]))
  {
    SingleColumnSteps();
    SingleColumnStepsAt(Script(SingleColumnPrev, SingleColumnSub));
    SingleColumnSound();
    SingleColumnColumns();
    SingleColumnRows(Script(SingleColumnPrev, SingleColumnSub));
    SingleColumnKeys();
    Assembled(SingleColumnPrev, SingleColumnSub, ["Segmentname_FV2410", "Änderung", "changed_entries", "Segmentname_FV2504"], [["1", "", "", "1"], ["2", "", "", "2"], ["3", "", "", "3"], ["4", "ENTFÄLLT", "", ""], ["5", "", "", "5"], ["6", "", "", "6"], ["", "NEU", "", "7"], ["", "NEU", "", "8"], ["9", "", "", "9"], ["10", "", "", "10"]]);
  }

  /** The key columns of SingleColumnEmpty. */
  predicate SingleColumnEmptyKeyColumns(a: seq<Key>, b: seq<Key>)
  {
    a == [] && b == []
  }

  /** The alignment of the key columns of SingleColumnEmpty. */
  lemma SingleColumnEmptyScript(a: seq<Key>, b: seq<Key>)
    requires SingleColumnEmptyKeyColumns(a, b)
    ensures Align(a, b) == []
  {
    MatchingIsLongest(a, b, 0, 0);
    CommonInWindow(a, b, Matching(a, b, 0, 0), 0, 0);
  }

  lemma SingleColumnEmptyStepsAt(s: seq<Step>)
    requires s == []
    ensures |s| == 0
  {
  }

  // unittests/test_process_csv.py:64-83
  const SingleColumnEmptyPrev: Table := Table(["Segmentname"], [])
  const SingleColumnEmptySub: Table := Table(["Segmentname"], [])

  lemma SingleColumnEmptyKeys()
    ensures WellFormed(SingleColumnEmptyPrev) && WellFormed(SingleColumnEmptySub) && KeyField in SingleColumnEmptyPrev.columns && KeyField in SingleColumnEmptySub.columns
    ensures KeyColumn(SingleColumnEmptyPrev) == [] && KeyColumn(SingleColumnEmptySub) == []
  {
  }

  lemma SingleColumnEmptySteps()
    ensures WellFormed(SingleColumnEmptyPrev) && WellFormed(SingleColumnEmptySub)
    ensures Script(SingleColumnEmptyPrev, SingleColumnEmptySub) == []
  {
    SingleColumnEmptyKeys();
    SingleColumnEmptyScript(KeyColumn(SingleColumnEmptyPrev), KeyColumn(SingleColumnEmptySub));
  }

  lemma SingleColumnEmptySound()
    ensures WellFormed(SingleColumnEmptyPrev) && WellFormed(SingleColumnEmptySub) && SoundScript(SingleColumnEmptyPrev, SingleColumnEmptySub, Script(SingleColumnEmptyPrev, SingleColumnEmptySub))
  {
    SingleColumnEmptyKeys();
    AlignSound(KeyColumn(SingleColumnEmptyPrev), KeyColumn(SingleColumnEmptySub));
  }

  lemma SingleColumnEmptyRows(s: seq<Step>)
    requires WellFormed(SingleColumnEmptyPrev) && WellFormed(SingleColumnEmptySub) && SoundScript(SingleColumnEmptyPrev, SingleColumnEmptySub, s) && |s| == 0
    ensures Rows(SingleColumnEmptyPrev, SingleColumnEmptySub, PV, SV, s) == []
  {
  }

  lemma SingleColumnEmptyColumns()
    ensures OutputColumns(SingleColumnEmptyPrev.columns, SingleColumnEmptySub.columns, PV, SV) == ["Segmentname_FV2410", "Änderung", "changed_entries", "Segmentname_FV2504"]
  {
    OneColumnNamesPV();
    OneColumnNamesSV();
  }

  /** Single key column: two empty tables give no rows. */
  lemma SingleColumnEmpty()
    ensures AlignColumns(SingleColumnEmptyPrev, SingleColumnEmptySub, PV, SV)
         == Success(Table(["Segmentname_FV2410", "Änderung", "changed_entries", "Segmentname_FV2504"],
                          []))
  {
    SingleColumnEmptySteps();
    SingleColumnEmptyStepsAt(Script(SingleColumnEmptyPrev, SingleColumnEmptySub));
    SingleColumnEmptySound();
    SingleColumnEmptyColumns();
    SingleColumnEmptyRows(Script(SingleColumnEmptyPrev, SingleColumnEmptySub));
    SingleColumnEmptyKeys();
    Assembled(SingleColumnEmptyPrev, SingleColumnEmptySub, ["Segmentname_FV2410", "Änderung", "changed_entries", "Segmentname_FV2504"], []);
  }

  /** The key columns of SingleColumnOneEmpty. */
  predicate SingleColumnOneEmptyKeyColumns(a: seq<Key>, b: seq<Key>)
  {
    a == ["1", "2", "3"] && b == []
  }

  lemma SingleColumnOneEmptyWalk2x0(ms: seq<Pair>)
    requires ms == []
    ensures InWindow(ms, 2, 0, 3, 0)
    ensures Linearize(ms, 2, 0, 3, 0) == [Delete(2)]
  {
  }

  lemma SingleColumnOneEmptyWalk1x0(ms: seq<Pair>)
    requires ms == []
    ensures InWindow(ms, 1, 0, 3, 0)
    ensures Linearize(ms, 1, 0, 3, 0) == [Delete(1), Delete(2)]
  {
    SingleColumnOneEmptyWalk2x0(ms);
  }

  lemma SingleColumnOneEmptyWalk0x0(ms: seq<Pair>)
    requires ms == []
    ensures InWindow(ms, 0, 0, 3, 0)
    ensures Linearize(ms, 0, 0, 3, 0) == [Delete(0), Delete(1), Delete(2)]
  {
    SingleColumnOneEmptyWalk1x0(ms);
  }

  /** The alignment of the key columns of SingleColumnOneEmpty. */
  lemma SingleColumnOneEmptyScript(a: seq<Key>, b: seq<Key>)
    requires SingleColumnOneEmptyKeyColumns(a, b)
    ensures Align(a, b) == [Delete(0), Delete(1), Delete(2)]
  {
    MatchingIsLongest(a, b, 0, 0);
    CommonInWindow(a, b, Matching(a, b, 0, 0), 0, 0);
    SingleColumnOneEmptyWalk0x0(Matching(a, b, 0, 0));
  }

  lemma SingleColumnOneEmptyStepsAt(s: seq<Step>)
    requires s == [Delete(0), Delete(1), Delete(2)]
    ensures |s| == 3
    ensures s[0] == Delete(0)
    ensures s[1] == Delete(1)
    ensures s[2] == Delete(2)
  {
  }

  // unittests/test_process_csv.py:85-104
  const SingleColumnOneEmptyPrev: Table := Table(["Segmentname"], [["1"], ["2"], ["3"]])
  const SingleColumnOneEmptySub: Table := Table(["Segmentname"], [])

  lemma SingleColumnOneEmptyKeys()
    ensures WellFormed(SingleColumnOneEmptyPrev) && WellFormed(SingleColumnOneEmptySub) && KeyField in SingleColumnOneEmptyPrev.columns && KeyField in SingleColumnOneEmptySub.columns
    ensures KeyColumn(SingleColumnOneEmptyPrev) == ["1", "2", "3"] && KeyColumn(SingleColumnOneEmptySub) == []
  {
  }

  lemma SingleColumnOneEmptySteps()
    ensures WellFormed(SingleColumnOneEmptyPrev) && WellFormed(SingleColumnOneEmptySub)
    ensures Script(SingleColumnOneEmptyPrev, SingleColumnOneEmptySub) == [Delete(0), Delete(1), Delete(2)]
  {
    SingleColumnOneEmptyKeys();
    SingleColumnOneEmptyScript(KeyColumn(SingleColumnOneEmptyPrev), KeyColumn(SingleColumnOneEmptySub));
  }

  lemma SingleColumnOneEmptySound()
    ensures WellFormed(SingleColumnOneEmptyPrev) && WellFormed(SingleColumnOneEmptySub) && SoundScript(SingleColumnOneEmptyPrev, SingleColumnOneEmptySub, Script(SingleColumnOneEmptyPrev, SingleColumnOneEmptySub))
  {
    SingleColumnOneEmptyKeys();
    AlignSound(KeyColumn(SingleColumnOneEmptyPrev), KeyColumn(SingleColumnOneEmptySub));
  }

  lemma SingleColumnOneEmptyCells0(p: Table, q: Table)
    requires p == SingleColumnOneEmptyPrev && q == SingleColumnOneEmptySub
    ensures WellFormed(p) && WellFormed(q) && SoundStep(KeyColumn(p), KeyColumn(q), Delete(0))
    ensures RowOf(p, q, PV, SV, Delete(0)) == ["1", "ENTFÄLLT", "", ""]
  {
    SingleColumnOneEmptyKeys();
  }

  lemma SingleColumnOneEmptyRow0(s: seq<Step>)
    requires WellFormed(SingleColumnOneEmptyPrev) && WellFormed(SingleColumnOneEmptySub) && SoundScript(SingleColumnOneEmptyPrev, SingleColumnOneEmptySub, s) && |s| == 3
    requires s[0] == Delete(0)
    ensures Rows(SingleColumnOneEmptyPrev, SingleColumnOneEmptySub, PV, SV, s)[0] == ["1", "ENTFÄLLT", "", ""]
  {
    RowsAt(SingleColumnOneEmptyPrev, SingleColumnOneEmptySub, PV, SV, s, 0);
    SingleColumnOneEmptyCells0(SingleColumnOneEmptyPrev, SingleColumnOneEmptySub);
  }

  lemma SingleColumnOneEmptyCells1(p: Table, q: Table)
    requires p == SingleColumnOneEmptyPrev && q == SingleColumnOneEmptySub
    ensures WellFormed(p) && WellFormed(q) && SoundStep(KeyColumn(p), KeyColumn(q), Delete(1))
    ensures RowOf(p, q, PV, SV, Delete(1)) == ["2", "ENTFÄLLT", "", ""]
  {
    SingleColumnOneEmptyKeys();
  }

  lemma SingleColumnOneEmptyRow1(s: seq<Step>)
    requires WellFormed(SingleColumnOneEmptyPrev) && WellFormed(SingleColumnOneEmptySub) && SoundScript(SingleColumnOneEmptyPrev, SingleColumnOneEmptySub, s) && |s| == 3
    requires s[1] == Delete(1)
    ensures Rows(SingleColumnOneEmptyPrev, SingleColumnOneEmptySub, PV, SV, s)[1] == ["2", "ENTFÄLLT", "", ""]
  {
    RowsAt(SingleColumnOneEmptyPrev, SingleColumnOneEmptySub, PV, SV, s, 1);
    SingleColumnOneEmptyCells1(SingleColumnOneEmptyPrev, SingleColumnOneEmptySub);
  }

  lemma SingleColumnOneEmptyCells2(p: Table, q: Table)
    requires p == SingleColumnOneEmptyPrev && q == SingleColumnOneEmptySub
    ensures WellFormed(p) && WellFormed(q) && SoundStep(KeyColumn(p), KeyColumn(q), Delete(2))
    ensures RowOf(p, q, PV, SV, Delete(2)) == ["3", "ENTFÄLLT", "", ""]
  {
    SingleColumnOneEmptyKeys();
  }

  lemma SingleColumnOneEmptyRow2(s: seq<Step>)
    requires WellFormed(SingleColumnOneEmptyPrev) && WellFormed(SingleColumnOneEmptySub) && SoundScript(SingleColumnOneEmptyPrev, SingleColumnOneEmptySub, s) && |s| == 3
    requires s[2] == Delete(2)
    ensures Rows(SingleColumnOneEmptyPrev, SingleColumnOneEmptySub, PV, SV, s)[2] == ["3", "ENTFÄLLT", "", ""]
  {
    RowsAt(SingleColumnOneEmptyPrev, SingleColumnOneEmptySub, PV, SV, s, 2);
    SingleColumnOneEmptyCells2(SingleColumnOneEmptyPrev, SingleColumnOneEmptySub);
  }

  /** A table body of 3 rows, row by row. */
  lemma RowsOfThree(r: seq<seq<string>>, x0: seq<string>, x1: seq<string>, x2: seq<string>)
    requires |r| == 3 && r[0] == x0 && r[1] == x1 && r[2] == x2
    ensures r == [x0, x1, x2]
  {
  }

  lemma SingleColumnOneEmptyRows(s: seq<Step>)
    requires WellFormed(SingleColumnOneEmptyPrev) && WellFormed(SingleColumnOneEmptySub) && SoundScript(SingleColumnOneEmptyPrev, SingleColumnOneEmptySub, s) && |s| == 3
    requires s[0] == Delete(0)
    requires s[1] == Delete(1)
    requires s[2] == Delete(2)
    ensures Rows(SingleColumnOneEmptyPrev, SingleColumnOneEmptySub, PV, SV, s) == [["1", "ENTFÄLLT", "", ""], ["2", "ENTFÄLLT", "", ""], ["3", "ENTFÄLLT", "", ""]]
  {
    SingleColumnOneEmptyRow0(s);
    SingleColumnOneEmptyRow1(s);
    SingleColumnOneEmptyRow2(s);
    RowsOfThree(Rows(SingleColumnOneEmptyPrev, SingleColumnOneEmptySub, PV, SV, s), ["1", "ENTFÄLLT", "", ""], ["2", "ENTFÄLLT", "", ""], ["3", "ENTFÄLLT", "", ""]);
  }

  lemma SingleColumnOneEmptyColumns()
    ensures OutputColumns(SingleColumnOneEmptyPrev.columns, SingleColumnOneEmptySub.columns, PV, SV) == ["Segmentname_FV2410", "Änderung", "changed_entries", "Segmentname_FV2504"]
  {
    OneColumnNamesPV();
    OneColumnNamesSV();
  }

  /** Single key column: against an empty table every previous row is deleted. */
  lemma SingleColumnOneEmpty()
    ensures AlignColumns(SingleColumnOneEmptyPrev, SingleColumnOneEmptySub, PV, SV)
         == Success(Table(["Segmentname_FV2410", "Änderung", "changed_entries", "Segmentname_FV2504"],
                          [["1", "ENTFÄLLT", "", ""], ["2", "ENTFÄLLT", "", ""], ["3", "ENTFÄLLT", "", ""]]))
  {
    SingleColumnOneEmptySteps();
    SingleColumnOneEmptyStepsAt(Script(SingleColumnOneEmptyPrev, SingleColumnOneEmptySub));
    SingleColumnOneEmptySound();
    SingleColumnOneEmptyColumns();
    SingleColumnOneEmptyRows(Script(SingleColumnOneEmptyPrev, SingleColumnOneEmptySub));
    SingleColumnOneEmptyKeys();
    Assembled(SingleColumnOneEmptyPrev, SingleColumnOneEmptySub, ["Segmentname_FV2410", "Änderung", "changed_entries", "Segmentname_FV2504"], [["1", "ENTFÄLLT", "", ""], ["2", "ENTFÄLLT", "", ""], ["3", "ENTFÄLLT", "", ""]]);
  }

  /** The key columns of SingleColumnFullOffset. */
  predicate SingleColumnFullOffsetKeyColumns(a: seq<Key>, b: seq<Key>)
  {
    a == ["1", "2", "3"] && b == ["4", "5", "6"]
  }

  lemma SingleColumnFullOffsetMatching2x0(a: seq<Key>, b: seq<Key>)
    requires SingleColumnFullOffsetKeyColumns(a, b)
    ensures Matching(a, b, 2, 0) == []
  {
    MatchingSkipPrev(a, b, 2, 0);
  }

  lemma SingleColumnFullOffsetMatching1x0(a: seq<Key>, b: seq<Key>)
    requires SingleColumnFullOffsetKeyColumns(a, b)
    ensures Matching(a, b, 1, 0) == []
  {
    SingleColumnFullOffsetMatching2x0(a, b);
    MatchingSkipPrev(a, b, 1, 0);
  }

  lemma SingleColumnFullOffsetMatching0x0(a: seq<Key>, b: seq<Key>)
    requires SingleColumnFullOffsetKeyColumns(a, b)
    ensures Matching(a, b, 0, 0) == []
  {
    SingleColumnFullOffsetMatching1x0(a, b);
    MatchingSkipPrev(a, b, 0, 0);
  }

  lemma SingleColumnFullOffsetWalk3x2(ms: seq<Pair>)
    requires ms == []
    ensures InWindow(ms, 3, 2, 3, 3)
    ensures Linearize(ms, 3, 2, 3, 3) == [Insert(2)]
  {
  }

  lemma SingleColumnFullOffsetWalk3x1(ms: seq<Pair>)
    requires ms == []
    ensures InWindow(ms, 3, 1, 3, 3)
    ensures Linearize(ms, 3, 1, 3, 3) == [Insert(1), Insert(2)]
  {
    SingleColumnFullOffsetWalk3x2(ms);
  }

  lemma SingleColumnFullOffsetWalk3x0(ms: seq<Pair>)
    requires ms == []
    ensures InWindow(ms, 3, 0, 3, 3)
    ensures Linearize(ms, 3, 0, 3, 3) == [Insert(0), Insert(1), Insert(2)]
  {
    SingleColumnFullOffsetWalk3x1(ms);
  }

  lemma SingleColumnFullOffsetWalk2x0(ms: seq<Pair>)
    requires ms == []
    ensures InWindow(ms, 2, 0, 3, 3)
    ensures Linearize(ms, 2, 0, 3, 3) == [Delete(2), Insert(0), Insert(1), Insert(2)]
  {
    SingleColumnFullOffsetWalk3x0(ms);
  }

  lemma SingleColumnFullOffsetWalk1x0(ms: seq<Pair>)
    requires ms == []
    ensures InWindow(ms, 1, 0, 3, 3)
    ensures Linearize(ms, 1, 0, 3, 3) == [Delete(1), Delete(2), Insert(0), Insert(1), Insert(2)]
  {
    SingleColumnFullOffsetWalk2x0(ms);
  }

  lemma SingleColumnFullOffsetWalk0x0(ms: seq<Pair>)
    requires ms == []
    ensures InWindow(ms, 0, 0, 3, 3)
    ensures Linearize(ms, 0, 0, 3, 3) == [Delete(0), Delete(1), Delete(2), Insert(0), Insert(1), Insert(2)]
  {
    SingleColumnFullOffsetWalk1x0(ms);
  }

  /** The alignment of the key columns of SingleColumnFullOffset. */
  lemma SingleColumnFullOffsetScript(a: seq<Key>, b: seq<Key>)
    requires SingleColumnFullOffsetKeyColumns(a, b)
    ensures Align(a, b) == [Delete(0), Delete(1), Delete(2), Insert(0), Insert(1), Insert(2)]
  {
    SingleColumnFullOffsetMatching0x0(a, b);
    MatchingIsLongest(a, b, 0, 0);
    CommonInWindow(a, b, Matching(a, b, 0, 0), 0, 0);
    SingleColumnFullOffsetWalk0x0(Matching(a, b, 0, 0));
  }

  lemma SingleColumnFullOffsetStepsAt(s: seq<Step>)
    requires s == [Delete(0), Delete(1), Delete(2), Insert(0), Insert(1), Insert(2)]
    ensures |s| == 6
    ensures s[0] == Delete(0)
    ensures s[1] == Delete(1)
    ensures s[2] == Delete(2)
    ensures s[3] == Insert(0)
    ensures s[4] == Insert(1)
    ensures s[5] == Insert(2)
  {
  }

  // unittests/test_process_csv.py:106-125
  const SingleColumnFullOffsetPrev: Table := Table(["Segmentname"], [["1"], ["2"], ["3"]])
  const SingleColumnFullOffsetSub: Table := Table(["Segmentname"], [["4"], ["5"], ["6"]])

  lemma SingleColumnFullOffsetKeys()
    ensures WellFormed(SingleColumnFullOffsetPrev) && WellFormed(SingleColumnFullOffsetSub) && KeyField in SingleColumnFullOffsetPrev.columns && KeyField in SingleColumnFullOffsetSub.columns
    ensures KeyColumn(SingleColumnFullOffsetPrev) == ["1", "2", "3"] && KeyColumn(SingleColumnFullOffsetSub) == ["4", "5", "6"]
  {
  }

  lemma SingleColumnFullOffsetSteps()
    ensures WellFormed(SingleColumnFullOffsetPrev) && WellFormed(SingleColumnFullOffsetSub)
    ensures Script(SingleColumnFullOffsetPrev, SingleColumnFullOffsetSub) == [Delete(0), Delete(1), Delete(2), Insert(0), Insert(1), Insert(2)]
  {
    SingleColumnFullOffsetKeys();
    SingleColumnFullOffsetScript(KeyColumn(SingleColumnFullOffsetPrev), KeyColumn(SingleColumnFullOffsetSub));
  }

  lemma SingleColumnFullOffsetSound()
    ensures WellFormed(SingleColumnFullOffsetPrev) && WellFormed(SingleColumnFullOffsetSub) && SoundScript(SingleColumnFullOffsetPrev, SingleColumnFullOffsetSub, Script(SingleColumnFullOffsetPrev, SingleColumnFullOffsetSub))
  {
    SingleColumnFullOffsetKeys();
    AlignSound(KeyColumn(SingleColumnFullOffsetPrev), KeyColumn(SingleColumnFullOffsetSub));
  }

  lemma SingleColumnFullOffsetCells0(p: Table, q: Table)
    requires p == SingleColumnFullOffsetPrev && q == SingleColumnFullOffsetSub
    ensures WellFormed(p) && WellFormed(q) && SoundStep(KeyColumn(p), KeyColumn(q), Delete(0))
    ensures RowOf(p, q, PV, SV, Delete(0)) == ["1", "ENTFÄLLT", "", ""]
  {
    SingleColumnFullOffsetKeys();
  }

  lemma SingleColumnFullOffsetRow0(s: seq<Step>)
    requires WellFormed(SingleColumnFullOffsetPrev) && WellFormed(SingleColumnFullOffsetSub) && SoundScript(SingleColumnFullOffsetPrev, SingleColumnFullOffsetSub, s) && |s| == 6
    requires s[0] == Delete(0)
    ensures Rows(SingleColumnFullOffsetPrev, SingleColumnFullOffsetSub, PV, SV, s)[0] == ["1", "ENTFÄLLT", "", ""]
  {
    RowsAt(SingleColumnFullOffsetPrev, SingleColumnFullOffsetSub, PV, SV, s, 0);
    SingleColumnFullOffsetCells0(SingleColumnFullOffsetPrev, SingleColumnFullOffsetSub);
  }

  lemma SingleColumnFullOffsetCells1(p: Table, q: Table)
    requires p == SingleColumnFullOffsetPrev && q == SingleColumnFullOffsetSub
    ensures WellFormed(p) && WellFormed(q) && SoundStep(KeyColumn(p), KeyColumn(q), Delete(1))
    ensures RowOf(p, q, PV, SV, Delete(1)) == ["2", "ENTFÄLLT", "", ""]
  {
    SingleColumnFullOffsetKeys();
  }

  lemma SingleColumnFullOffsetRow1(s: seq<Step>)
    requires WellFormed(SingleColumnFullOffsetPrev) && WellFormed(SingleColumnFullOffsetSub) && SoundScript(SingleColumnFullOffsetPrev, SingleColumnFullOffsetSub, s) && |s| == 6
    requires s[1] == Delete(1)
    ensures Rows(SingleColumnFullOffsetPrev, SingleColumnFullOffsetSub, PV, SV, s)[1] == ["2", "ENTFÄLLT", "", ""]
  {
    RowsAt(SingleColumnFullOffsetPrev, SingleColumnFullOffsetSub, PV, SV, s, 1);
    SingleColumnFullOffsetCells1(SingleColumnFullOffsetPrev, SingleColumnFullOffsetSub);
  }

  lemma SingleColumnFullOffsetCells2(p: Table, q: Table)
    requires p == SingleColumnFullOffsetPrev && q == SingleColumnFullOffsetSub
    ensures WellFormed(p) && WellFormed(q) && SoundStep(KeyColumn(p), KeyColumn(q), Delete(2))
    ensures RowOf(p, q, PV, SV, Delete(2)) == ["3", "ENTFÄLLT", "", ""]
  {
    SingleColumnFullOffsetKeys();
  }

  lemma SingleColumnFullOffsetRow2(s: seq<Step>)
    requires WellFormed(SingleColumnFullOffsetPrev) && WellFormed(SingleColumnFullOffsetSub) && SoundScript(SingleColumnFullOffsetPrev, SingleColumnFullOffsetSub, s) && |s| == 6
    requires s[2] == Delete(2)
    ensures Rows(SingleColumnFullOffsetPrev, SingleColumnFullOffsetSub, PV, SV, s)[2] == ["3", "ENTFÄLLT", "", ""]
  {
    RowsAt(SingleColumnFullOffsetPrev, SingleColumnFullOffsetSub, PV, SV, s, 2);
    SingleColumnFullOffsetCells2(SingleColumnFullOffsetPrev, SingleColumnFullOffsetSub);
  }

  lemma SingleColumnFullOffsetCells3(p: Table, q: Table)
    requires p == SingleColumnFullOffsetPrev && q == SingleColumnFullOffsetSub
    ensures WellFormed(p) && WellFormed(q) && SoundStep(KeyColumn(p), KeyColumn(q), Insert(0))
    ensures RowOf(p, q, PV, SV, Insert(0)) == ["", "NEU", "", "4"]
  {
    SingleColumnFullOffsetKeys();
  }

  lemma SingleColumnFullOffsetRow3(s: seq<Step>)
    requires WellFormed(SingleColumnFullOffsetPrev) && WellFormed(SingleColumnFullOffsetSub) && SoundScript(SingleColumnFullOffsetPrev, SingleColumnFullOffsetSub, s) && |s| == 6
    requires s[3] == Insert(0)
    ensures Rows(SingleColumnFullOffsetPrev, SingleColumnFullOffsetSub, PV, SV, s)[3] == ["", "NEU", "", "4"]
  {
    RowsAt(SingleColumnFullOffsetPrev, SingleColumnFullOffsetSub, PV, SV, s, 3);
    SingleColumnFullOffsetCells3(SingleColumnFullOffsetPrev, SingleColumnFullOffsetSub);
  }

  lemma SingleColumnFullOffsetCells4(p: Table, q: Table)
    requires p == SingleColumnFullOffsetPrev && q == SingleColumnFullOffsetSub
    ensures WellFormed(p) && WellFormed(q) && SoundStep(KeyColumn(p), KeyColumn(q), Insert(1))
    ensures RowOf(p, q, PV, SV, Insert(1)) == ["", "NEU", "", "5"]
  {
    SingleColumnFullOffsetKeys();
  }

  lemma SingleColumnFullOffsetRow4(s: seq<Step>)
    requires WellFormed(SingleColumnFullOffsetPrev) && WellFormed(SingleColumnFullOffsetSub) && SoundScript(SingleColumnFullOffsetPrev, SingleColumnFullOffsetSub, s) && |s| == 6
    requires s[4] == Insert(1)
    ensures Rows(SingleColumnFullOffsetPrev, SingleColumnFullOffsetSub, PV, SV, s)[4] == ["", "NEU", "", "5"]
  {
    RowsAt(SingleColumnFullOffsetPrev, SingleColumnFullOffsetSub, PV, SV, s, 4);
    SingleColumnFullOffsetCells4(SingleColumnFullOffsetPrev, SingleColumnFullOffsetSub);
  }

  lemma SingleColumnFullOffsetCells5(p: Table, q: Table)
    requires p == SingleColumnFullOffsetPrev && q == SingleColumnFullOffsetSub
    ensures WellFormed(p) && WellFormed(q) && SoundStep(KeyColumn(p), KeyColumn(q), Insert(2))
    ensures RowOf(p, q, PV, SV, Insert(2)) == ["", "NEU", "", "6"]
  {
    SingleColumnFullOffsetKeys();
  }

  lemma SingleColumnFullOffsetRow5(s: seq<Step>)
    requires WellFormed(SingleColumnFullOffsetPrev) && WellFormed(SingleColumnFullOffsetSub) && SoundScript(SingleColumnFullOffsetPrev, SingleColumnFullOffsetSub, s) && |s| == 6
    requires s[5] == Insert(2)
    ensures Rows(SingleColumnFullOffsetPrev, SingleColumnFullOffsetSub, PV, SV, s)[5] == ["", "NEU", "", "6"]
  {
    RowsAt(SingleColumnFullOffsetPrev, SingleColumnFullOffsetSub, PV, SV, s, 5);
    SingleColumnFullOffsetCells5(SingleColumnFullOffsetPrev, SingleColumnFullOffsetSub);
  }

  /** A table body of 6 rows, row by row. */
  lemma RowsOfSix(r: seq<seq<string>>, x0: seq<string>, x1: seq<string>, x2: seq<string>, x3: seq<string>, x4: seq<string>, x5: seq<string>)
    requires |r| == 6 && r[0] == x0 && r[1] == x1 && r[2] == x2 && r[3] == x3 && r[4] == x4 && r[5] == x5
    ensures r == [x0, x1, x2, x3, x4, x5]
  {
  }

  lemma SingleColumnFullOffsetRows(s: seq<Step>)
    requires WellFormed(SingleColumnFullOffsetPrev) && WellFormed(SingleColumnFullOffsetSub) && SoundScript(SingleColumnFullOffsetPrev, SingleColumnFullOffsetSub, s) && |s| == 6
    requires s[0] == Delete(0)
    requires s[1] == Delete(1)
    requires s[2] == Delete(2)
    requires s[3] == Insert(0)
    requires s[4] == Insert(1)
    requires s[5] == Insert(2)
    ensures Rows(SingleColumnFullOffsetPrev, SingleColumnFullOffsetSub, PV, SV, s) == [["1", "ENTFÄLLT", "", ""], ["2", "ENTFÄLLT", "", ""], ["3", "ENTFÄLLT", "", ""], ["", "NEU", "", "4"], ["", "NEU", "", "5"], ["", "NEU", "", "6"]]
  {
    SingleColumnFullOffsetRow0(s);
    SingleColumnFullOffsetRow1(s);
    SingleColumnFullOffsetRow2(s);
    SingleColumnFullOffsetRow3(s);
    SingleColumnFullOffsetRow4(s);
    SingleColumnFullOffsetRow5(s);
    RowsOfSix(Rows(SingleColumnFullOffsetPrev, SingleColumnFullOffsetSub, PV, SV, s), ["1", "ENTFÄLLT", "", ""], ["2", "ENTFÄLLT", "", ""], ["3", "ENTFÄLLT", "", ""], ["", "NEU", "", "4"], ["", "NEU", "", "5"], ["", "NEU", "", "6"]);
  }

  lemma SingleColumnFullOffsetColumns()
    ensures OutputColumns(SingleColumnFullOffsetPrev.columns, SingleColumnFullOffsetSub.columns, PV, SV) == ["Segmentname_FV2410", "Änderung", "changed_entries", "Segmentname_FV2504"]
  {
    OneColumnNamesPV();
    OneColumnNamesSV();
  }

  /** Single key column: no key in common, so all deletions come before all insertions. */
  lemma SingleColumnFullOffset()
    ensures AlignColumns(SingleColumnFullOffsetPrev, SingleColumnFullOffsetSub, PV, SV)
         == Success(Table(["Segmentname_FV2410", "Änderung", "changed_entries", "Segmentname_FV2504"],
                          [["1", "ENTFÄLLT", "", ""], ["2", "ENTFÄLLT", "", ""], ["3", "ENTFÄLLT", "", ""], ["", "NEU", "", "4"], ["", "NEU", "", "5"], ["", "NEU", "", "6"]]))
  {
    SingleColumnFullOffsetSteps();
    SingleColumnFullOffsetStepsAt(Script(SingleColumnFullOffsetPrev, SingleColumnFullOffsetSub));
    SingleColumnFullOffsetSound();
    SingleColumnFullOffsetColumns();
    SingleColumnFullOffsetRows(Script(SingleColumnFullOffsetPrev, SingleColumnFullOffsetSub));
    SingleColumnFullOffsetKeys();
    Assembled(SingleColumnFullOffsetPrev, SingleColumnFullOffsetSub, ["Segmentname_FV2410", "Änderung", "changed_entries", "Segmentname_FV2504"], [["1", "ENTFÄLLT", "", ""], ["2", "ENTFÄLLT", "", ""], ["3", "ENTFÄLLT", "", ""], ["", "NEU", "", "4"], ["", "NEU", "", "5"], ["", "NEU", "", "6"]]);
  }

  /** The key columns of SingleColumnDuplicates. */
  predicate SingleColumnDuplicatesKeyColumns(a: seq<Key>, b: seq<Key>)
  {
    a == ["1", "2", "2"] && b == ["1", "2", "4"]
  }

  lemma SingleColumnDuplicatesMatching2x2(a: seq<Key>, b: seq<Key>)
    requires SingleColumnDuplicatesKeyColumns(a, b)
    ensures Matching(a, b, 2, 2) == []
  {
    MatchingSkipPrev(a, b, 2, 2);
  }

  lemma SingleColumnDuplicatesMatching1x1(a: seq<Key>, b: seq<Key>)
    requires SingleColumnDuplicatesKeyColumns(a, b)
    ensures Matching(a, b, 1, 1) == [(1, 1)]
  {
    SingleColumnDuplicatesMatching2x2(a, b);
    MatchingHead(a, b, 1, 1);
  }

  lemma SingleColumnDuplicatesMatching0x0(a: seq<Key>, b: seq<Key>)
    requires SingleColumnDuplicatesKeyColumns(a, b)
    ensures Matching(a, b, 0, 0) == [(0, 0), (1, 1)]
  {
    SingleColumnDuplicatesMatching1x1(a, b);
    MatchingHead(a, b, 0, 0);
  }

  lemma SingleColumnDuplicatesWalk3x2(ms: seq<Pair>)
    requires ms == []
    ensures InWindow(ms, 3, 2, 3, 3)
    ensures Linearize(ms, 3, 2, 3, 3) == [Insert(2)]
  {
  }

  lemma SingleColumnDuplicatesWalk2x2(ms: seq<Pair>)
    requires ms == []
    ensures InWindow(ms, 2, 2, 3, 3)
    ensures Linearize(ms, 2, 2, 3, 3) == [Delete(2), Insert(2)]
  {
    SingleColumnDuplicatesWalk3x2(ms);
  }

  lemma SingleColumnDuplicatesWalk1x1(ms: seq<Pair>)
    requires ms == [(1, 1)]
    ensures InWindow(ms, 1, 1, 3, 3)
    ensures Linearize(ms, 1, 1, 3, 3) == [Match(1, 1), Delete(2), Insert(2)]
  {
    SingleColumnDuplicatesWalk2x2(ms[1..]);
  }

  lemma SingleColumnDuplicatesWalk0x0(ms: seq<Pair>)
    requires ms == [(0, 0), (1, 1)]
    ensures InWindow(ms, 0, 0, 3, 3)
    ensures Linearize(ms, 0, 0, 3, 3) == [Match(0, 0), Match(1, 1), Delete(2), Insert(2)]
  {
    SingleColumnDuplicatesWalk1x1(ms[1..]);
  }

  /** The alignment of the key columns of SingleColumnDuplicates. */
  lemma SingleColumnDuplicatesScript(a: seq<Key>, b: seq<Key>)
    requires SingleColumnDuplicatesKeyColumns(a, b)
    ensures Align(a, b) == [Match(0, 0), Match(1, 1), Delete(2), Insert(2)]
  {
    SingleColumnDuplicatesMatching0x0(a, b);
    MatchingIsLongest(a, b, 0, 0);
    CommonInWindow(a, b, Matching(a, b, 0, 0), 0, 0);
    SingleColumnDuplicatesWalk0x0(Matching(a, b, 0, 0));
  }

  lemma SingleColumnDuplicatesStepsAt(s: seq<Step>)
    requires s == [Match(0, 0), Match(1, 1), Delete(2), Insert(2)]
    ensures |s| == 4
    ensures s[0] == Match(0, 0)
    ensures s[1] == Match(1, 1)
    ensures s[2] == Delete(2)
    ensures s[3] == Insert(2)
  {
  }

  // unittests/test_process_csv.py:127-146
  const SingleColumnDuplicatesPrev: Table := Table(["Segmentname"], [["1"], ["2"], ["2"]])
  const SingleColumnDuplicatesSub: Table := Table(["Segmentname"], [["1"], ["2"], ["4"]])

  lemma SingleColumnDuplicatesKeys()
    ensures WellFormed(SingleColumnDuplicatesPrev) && WellFormed(SingleColumnDuplicatesSub) && KeyField in SingleColumnDuplicatesPrev.columns && KeyField in SingleColumnDuplicatesSub.columns
    ensures KeyColumn(SingleColumnDuplicatesPrev) == ["1", "2", "2"] && KeyColumn(SingleColumnDuplicatesSub) == ["1", "2", "4"]
  {
  }

  lemma SingleColumnDuplicatesSteps()
    ensures WellFormed(SingleColumnDuplicatesPrev) && WellFormed(SingleColumnDuplicatesSub)
    ensures Script(SingleColumnDuplicatesPrev, SingleColumnDuplicatesSub) == [Match(0, 0), Match(1, 1), Delete(2), Insert(2)]
  {
    SingleColumnDuplicatesKeys();
    SingleColumnDuplicatesScript(KeyColumn(SingleColumnDuplicatesPrev), KeyColumn(SingleColumnDuplicatesSub));
  }

  lemma SingleColumnDuplicatesSound()
    ensures WellFormed(SingleColumnDuplicatesPrev) && WellFormed(SingleColumnDuplicatesSub) && SoundScript(SingleColumnDuplicatesPrev, SingleColumnDuplicatesSub, Script(SingleColumnDuplicatesPrev, SingleColumnDuplicatesSub))
  {
    SingleColumnDuplicatesKeys();
    AlignSound(KeyColumn(SingleColumnDuplicatesPrev), KeyColumn(SingleColumnDuplicatesSub));
  }

  lemma SingleColumnDuplicatesCells0(p: Table, q: Table)
    requires p == SingleColumnDuplicatesPrev && q == SingleColumnDuplicatesSub
    ensures WellFormed(p) && WellFormed(q) && SoundStep(KeyColumn(p), KeyColumn(q), Match(0, 0))
    ensures RowOf(p, q, PV, SV, Match(0, 0)) == ["1", "", "", "1"]
  {
    SingleColumnDuplicatesKeys();
    OneColumnFields(p.columns);
    var c := Classify(p.columns, p.rows[0], q.columns, q.rows[0], PV, SV);
    ClassifyEntries(p.columns, p.rows[0], q.columns, q.rows[0], PV, SV);
    SpliceOne(p.rows[0], Label(c.0), c.1, q.rows[0]);
  }

  lemma SingleColumnDuplicatesRow0(s: seq<Step>)
    requires WellFormed(SingleColumnDuplicatesPrev) && WellFormed(SingleColumnDuplicatesSub) && SoundScript(SingleColumnDuplicatesPrev, SingleColumnDuplicatesSub, s) && |s| == 4
    requires s[0] == Match(0, 0)
    ensures Rows(SingleColumnDuplicatesPrev, SingleColumnDuplicatesSub, PV, SV, s)[0] == ["1", "", "", "1"]
  {
    RowsAt(SingleColumnDuplicatesPrev, SingleColumnDuplicatesSub, PV, SV, s, 0);
    SingleColumnDuplicatesCells0(SingleColumnDuplicatesPrev, SingleColumnDuplicatesSub);
  }

  lemma SingleColumnDuplicatesCells1(p: Table, q: Table)
    requires p == SingleColumnDuplicatesPrev && q == SingleColumnDuplicatesSub
    ensures WellFormed(p) && WellFormed(q) && SoundStep(KeyColumn(p), KeyColumn(q), Match(1, 1))
    ensures RowOf(p, q, PV, SV, Match(1, 1)) == ["2", "", "", "2"]
  {
    SingleColumnDuplicatesKeys();
    OneColumnFields(p.columns);
    var c := Classify(p.columns, p.rows[1], q.columns, q.rows[1], PV, SV);
    ClassifyEntries(p.columns, p.rows[1], q.columns, q.rows[1], PV, SV);
    SpliceOne(p.rows[1], Label(c.0), c.1, q.rows[1]);
  }

  lemma SingleColumnDuplicatesRow1(s: seq<Step>)
    requires WellFormed(SingleColumnDuplicatesPrev) && WellFormed(SingleColumnDuplicatesSub) && SoundScript(SingleColumnDuplicatesPrev, SingleColumnDuplicatesSub, s) && |s| == 4
    requires s[1] == Match(1, 1)
    ensures Rows(SingleColumnDuplicatesPrev, SingleColumnDuplicatesSub, PV, SV, s)[1] == ["2", "", "", "2"]
  {
    RowsAt(SingleColumnDuplicatesPrev, SingleColumnDuplicatesSub, PV, SV, s, 1);
    SingleColumnDuplicatesCells1(SingleColumnDuplicatesPrev, SingleColumnDuplicatesSub);
  }

  lemma SingleColumnDuplicatesCells2(p: Table, q: Table)
    requires p == SingleColumnDuplicatesPrev && q == SingleColumnDuplicatesSub
    ensures WellFormed(p) && WellFormed(q) && SoundStep(KeyColumn(p), KeyColumn(q), Delete(2))
    ensures RowOf(p, q, PV, SV, Delete(2)) == ["2", "ENTFÄLLT", "", ""]
  {
    SingleColumnDuplicatesKeys();
  }

  lemma SingleColumnDuplicatesRow2(s: seq<Step>)
    requires WellFormed(SingleColumnDuplicatesPrev) && WellFormed(SingleColumnDuplicatesSub) && SoundScript(SingleColumnDuplicatesPrev, SingleColumnDuplicatesSub, s) && |s| == 4
    requires s[2] == Delete(2)
    ensures Rows(SingleColumnDuplicatesPrev, SingleColumnDuplicatesSub, PV, SV, s)[2] == ["2", "ENTFÄLLT", "", ""]
  {
    RowsAt(SingleColumnDuplicatesPrev, SingleColumnDuplicatesSub, PV, SV, s, 2);
    SingleColumnDuplicatesCells2(SingleColumnDuplicatesPrev, SingleColumnDuplicatesSub);
  }

  lemma SingleColumnDuplicatesCells3(p: Table, q: Table)
    requires p == SingleColumnDuplicatesPrev && q == SingleColumnDuplicatesSub
    ensures WellFormed(p) && WellFormed(q) && SoundStep(KeyColumn(p), KeyColumn(q), Insert(2))
    ensures RowOf(p, q, PV, SV, Insert(2)) == ["", "NEU", "", "4"]
  {
    SingleColumnDuplicatesKeys();
  }

  lemma SingleColumnDuplicatesRow3(s: seq<Step>)
    requires WellFormed(SingleColumnDuplicatesPrev) && WellFormed(SingleColumnDuplicatesSub) && SoundScript(SingleColumnDuplicatesPrev, SingleColumnDuplicatesSub, s) && |s| == 4
    requires s[3] == Insert(2)
    ensures Rows(SingleColumnDuplicatesPrev, SingleColumnDuplicatesSub, PV, SV, s)[3] == ["", "NEU", "", "4"]
  {
    RowsAt(SingleColumnDuplicatesPrev, SingleColumnDuplicatesSub, PV, SV, s, 3);
    SingleColumnDuplicatesCells3(SingleColumnDuplicatesPrev, SingleColumnDuplicatesSub);
  }

  /** A table body of 4 rows, row by row. */
  lemma RowsOfFour(r: seq<seq<string>>, x0: seq<string>, x1: seq<string>, x2: seq<string>, x3: seq<string>)
    requires |r| == 4 && r[0] == x0 && r[1] == x1 && r[2] == x2 && r[3] == x3
    ensures r == [x0, x1, x2, x3]
  {
  }

  lemma SingleColumnDuplicatesRows(s: seq<Step>)
    requires WellFormed(SingleColumnDuplicatesPrev) && WellFormed(SingleColumnDuplicatesSub) && SoundScript(SingleColumnDuplicatesPrev, SingleColumnDuplicatesSub, s) && |s| == 4
    requires s[0] == Match(0, 0)
    requires s[1] == Match(1, 1)
    requires s[2] == Delete(2)
    requires s[3] == Insert(2)
    ensures Rows(SingleColumnDuplicatesPrev, SingleColumnDuplicatesSub, PV, SV, s) == [["1", "", "", "1"], ["2", "", "", "2"], ["2", "ENTFÄLLT", "", ""], ["", "NEU", "", "4"]]
  {
    SingleColumnDuplicatesRow0(s);
    SingleColumnDuplicatesRow1(s);
    SingleColumnDuplicatesRow2(s);
    SingleColumnDuplicatesRow3(s);
    RowsOfFour(Rows(SingleColumnDuplicatesPrev, SingleColumnDuplicatesSub, PV, SV, s), ["1", "", "", "1"], ["2", "", "", "2"], ["2", "ENTFÄLLT", "", ""], ["", "NEU", "", "4"]);
  }

  lemma SingleColumnDuplicatesColumns()
    ensures OutputColumns(SingleColumnDuplicatesPrev.columns, SingleColumnDuplicatesSub.columns, PV, SV) == ["Segmentname_FV2410", "Änderung", "changed_entries", "Segmentname_FV2504"]
  {
    OneColumnNamesPV();
    OneColumnNamesSV();
  }

  /** Single key column: of two equal keys the earlier one is matched. */
  lemma SingleColumnDuplicates()
    ensures AlignColumns(SingleColumnDuplicatesPrev, SingleColumnDuplicatesSub, PV, SV)
         == Success(Table(["Segmentname_FV2410", "Änderung", "changed_entries", "Segmentname_FV2504"],
                          [["1", "", "", "1"], ["2", "", "", "2"], ["2", "ENTFÄLLT", "", ""], ["", "NEU", "", "4"]]))
  {
    SingleColumnDuplicatesSteps();
    SingleColumnDuplicatesStepsAt(Script(SingleColumnDuplicatesPrev, SingleColumnDuplicatesSub));
    SingleColumnDuplicatesSound();
    SingleColumnDuplicatesColumns();
    SingleColumnDuplicatesRows(Script(SingleColumnDuplicatesPrev, SingleColumnDuplicatesSub));
    SingleColumnDuplicatesKeys();
    Assembled(SingleColumnDuplicatesPrev, SingleColumnDuplicatesSub, ["Segmentname_FV2410", "Änderung", "changed_entries", "Segmentname_FV2504"], [["1", "", "", "1"], ["2", "", "", "2"], ["2", "ENTFÄLLT", "", ""], ["", "NEU", "", "4"]]);
  }

  /** The key columns of SingleColumnRepeating. */
  predicate SingleColumnRepeatingKeyColumns(a: seq<Key>, b: seq<Key>)
  {
    a == ["1", "2", "3", "3", "2"] && b == ["1", "2", "3", "4"]
  }

  lemma SingleColumnRepeatingMatching4x3(a: seq<Key>, b: seq<Key>)
    requires SingleColumnRepeatingKeyColumns(a, b)
    ensures Matching(a, b, 4, 3) == []
  {
    MatchingSkipPrev(a, b, 4, 3);
  }

  lemma SingleColumnRepeatingMatching3x3(a: seq<Key>, b: seq<Key>)
    requires SingleColumnRepeatingKeyColumns(a, b)
    ensures Matching(a, b, 3, 3) == []
  {
    SingleColumnRepeatingMatching4x3(a, b);
    MatchingSkipPrev(a, b, 3, 3);
  }

  lemma SingleColumnRepeatingMatching2x2(a: seq<Key>, b: seq<Key>)
    requires SingleColumnRepeatingKeyColumns(a, b)
    ensures Matching(a, b, 2, 2) == [(2, 2)]
  {
    SingleColumnRepeatingMatching3x3(a, b);
    MatchingHead(a, b, 2, 2);
  }

  lemma SingleColumnRepeatingMatching1x1(a: seq<Key>, b: seq<Key>)
    requires SingleColumnRepeatingKeyColumns(a, b)
    ensures Matching(a, b, 1, 1) == [(1, 1), (2, 2)]
  {
    SingleColumnRepeatingMatching2x2(a, b);
    MatchingHead(a, b, 1, 1);
  }

  lemma SingleColumnRepeatingMatching0x0(a: seq<Key>, b: seq<Key>)
    requires SingleColumnRepeatingKeyColumns(a, b)
    ensures Matching(a, b, 0, 0) == [(0, 0), (1, 1), (2, 2)]
  {
    SingleColumnRepeatingMatching1x1(a, b);
    MatchingHead(a, b, 0, 0);
  }

  lemma SingleColumnRepeatingWalk5x3(ms: seq<Pair>)
    requires ms == []
    ensures InWindow(ms, 5, 3, 5, 4)
    ensures Linearize(ms, 5, 3, 5, 4) == [Insert(3)]
  {
  }

  lemma SingleColumnRepeatingWalk4x3(ms: seq<Pair>)
    requires ms == []
    ensures InWindow(ms, 4, 3, 5, 4)
    ensures Linearize(ms, 4, 3, 5, 4) == [Delete(4), Insert(3)]
  {
    SingleColumnRepeatingWalk5x3(ms);
  }

  lemma SingleColumnRepeatingWalk3x3(ms: seq<Pair>)
    requires ms == []
    ensures InWindow(ms, 3, 3, 5, 4)
    ensures Linearize(ms, 3, 3, 5, 4) == [Delete(3), Delete(4), Insert(3)]
  {
    SingleColumnRepeatingWalk4x3(ms);
  }

  lemma SingleColumnRepeatingWalk2x2(ms: seq<Pair>)
    requires ms == [(2, 2)]
    ensures InWindow(ms, 2, 2, 5, 4)
    ensures Linearize(ms, 2, 2, 5, 4) == [Match(2, 2), Delete(3), Delete(4), Insert(3)]
  {
    SingleColumnRepeatingWalk3x3(ms[1..]);
  }

  lemma SingleColumnRepeatingWalk1x1(ms: seq<Pair>)
    requires ms == [(1, 1), (2, 2)]
    ensures InWindow(ms, 1, 1, 5, 4)
    ensures Linearize(ms, 1, 1, 5, 4) == [Match(1, 1), Match(2, 2), Delete(3), Delete(4), Insert(3)]
  {
    SingleColumnRepeatingWalk2x2(ms[1..]);
  }

  lemma SingleColumnRepeatingWalk0x0(ms: seq<Pair>)
    requires ms == [(0, 0), (1, 1), (2, 2)]
    ensures InWindow(ms, 0, 0, 5, 4)
    ensures Linearize(ms, 0, 0, 5, 4) == [Match(0, 0), Match(1, 1), Match(2, 2), Delete(3), Delete(4), Insert(3)]
  {
    SingleColumnRepeatingWalk1x1(ms[1..]);
  }

  /** The alignment of the key columns of SingleColumnRepeating. */
  lemma SingleColumnRepeatingScript(a: seq<Key>, b: seq<Key>)
    requires SingleColumnRepeatingKeyColumns(a, b)
    ensures Align(a, b) == [Match(0, 0), Match(1, 1), Match(2, 2), Delete(3), Delete(4), Insert(3)]
  {
    SingleColumnRepeatingMatching0x0(a, b);
    MatchingIsLongest(a, b, 0, 0);
    CommonInWindow(a, b, Matching(a, b, 0, 0), 0, 0);
    SingleColumnRepeatingWalk0x0(Matching(a, b, 0, 0));
  }

  lemma SingleColumnRepeatingStepsAt(s: seq<Step>)
    requires s == [Match(0, 0), Match(1, 1), Match(2, 2), Delete(3), Delete(4), Insert(3)]
    ensures |s| == 6
    ensures s[0] == Match(0, 0)
    ensures s[1] == Match(1, 1)
    ensures s[2] == Match(2, 2)
    ensures s[3] == Delete(3)
    ensures s[4] == Delete(4)
    ensures s[5] == Insert(3)
  {
  }

  // unittests/test_process_csv.py:148-167
  const SingleColumnRepeatingPrev: Table := Table(["Segmentname"], [["1"], ["2"], ["3"], ["3"], ["2"]])
  const SingleColumnRepeatingSub: Table := Table(["Segmentname"], [["1"], ["2"], ["3"], ["4"]])

  lemma SingleColumnRepeatingKeys()
    ensures WellFormed(SingleColumnRepeatingPrev) && WellFormed(SingleColumnRepeatingSub) && KeyField in SingleColumnRepeatingPrev.columns && KeyField in SingleColumnRepeatingSub.columns
    ensures KeyColumn(SingleColumnRepeatingPrev) == ["1", "2", "3", "3", "2"] && KeyColumn(SingleColumnRepeatingSub) == ["1", "2", "3", "4"]
  {
  }

  lemma SingleColumnRepeatingSteps()
    ensures WellFormed(SingleColumnRepeatingPrev) && WellFormed(SingleColumnRepeatingSub)
    ensures Script(SingleColumnRepeatingPrev, SingleColumnRepeatingSub) == [Match(0, 0), Match(1, 1), Match(2, 2), Delete(3), Delete(4), Insert(3)]
  {
    SingleColumnRepeatingKeys();
    SingleColumnRepeatingScript(KeyColumn(SingleColumnRepeatingPrev), KeyColumn(SingleColumnRepeatingSub));
  }

  lemma SingleColumnRepeatingSound()
    ensures WellFormed(SingleColumnRepeatingPrev) && WellFormed(SingleColumnRepeatingSub) && SoundScript(SingleColumnRepeatingPrev, SingleColumnRepeatingSub, Script(SingleColumnRepeatingPrev, SingleColumnRepeatingSub))
  {
    SingleColumnRepeatingKeys();
    AlignSound(KeyColumn(SingleColumnRepeatingPrev), KeyColumn(SingleColumnRepeatingSub));
  }

  lemma SingleColumnRepeatingCells0(p: Table, q: Table)
    requires p == SingleColumnRepeatingPrev && q == SingleColumnRepeatingSub
    ensures WellFormed(p) && WellFormed(q) && SoundStep(KeyColumn(p), KeyColumn(q), Match(0, 0))
    ensures RowOf(p, q, PV, SV, Match(0, 0)) == ["1", "", "", "1"]
  {
    SingleColumnRepeatingKeys();
    OneColumnFields(p.columns);
    var c := Classify(p.columns, p.rows[0], q.columns, q.rows[0], PV, SV);
    ClassifyEntries(p.columns, p.rows[0], q.columns, q.rows[0], PV, SV);
    SpliceOne(p.rows[0], Label(c.0), c.1, q.rows[0]);
  }

  lemma SingleColumnRepeatingRow0(s: seq<Step>)
    requires WellFormed(SingleColumnRepeatingPrev) && WellFormed(SingleColumnRepeatingSub) && SoundScript(SingleColumnRepeatingPrev, SingleColumnRepeatingSub, s) && |s| == 6
    requires s[0] == Match(0, 0)
    ensures Rows(SingleColumnRepeatingPrev, SingleColumnRepeatingSub, PV, SV, s)[0] == ["1", "", "", "1"]
  {
    RowsAt(SingleColumnRepeatingPrev, SingleColumnRepeatingSub, PV, SV, s, 0);
    SingleColumnRepeatingCells0(SingleColumnRepeatingPrev, SingleColumnRepeatingSub);
  }

  lemma SingleColumnRepeatingCells1(p: Table, q: Table)
    requires p == SingleColumnRepeatingPrev && q == SingleColumnRepeatingSub
    ensures WellFormed(p) && WellFormed(q) && SoundStep(KeyColumn(p), KeyColumn(q), Match(1, 1))
    ensures RowOf(p, q, PV, SV, Match(1, 1)) == ["2", "", "", "2"]
  {
    SingleColumnRepeatingKeys();
    OneColumnFields(p.columns);
    var c := Classify(p.columns, p.rows[1], q.columns, q.rows[1], PV, SV);
    ClassifyEntries(p.columns, p.rows[1], q.columns, q.rows[1], PV, SV);
    SpliceOne(p.rows[1], Label(c.0), c.1, q.rows[1]);
  }

  lemma SingleColumnRepeatingRow1(s: seq<Step>)
    requires WellFormed(SingleColumnRepeatingPrev) && WellFormed(SingleColumnRepeatingSub) && SoundScript(SingleColumnRepeatingPrev, SingleColumnRepeatingSub, s) && |s| == 6
    requires s[1] == Match(1, 1)
    ensures Rows(SingleColumnRepeatingPrev, SingleColumnRepeatingSub, PV, SV, s)[1] == ["2", "", "", "2"]
  {
    RowsAt(SingleColumnRepeatingPrev, SingleColumnRepeatingSub, PV, SV, s, 1);
    SingleColumnRepeatingCells1(SingleColumnRepeatingPrev, SingleColumnRepeatingSub);
  }

  lemma SingleColumnRepeatingCells2(p: Table, q: Table)
    requires p == SingleColumnRepeatingPrev && q == SingleColumnRepeatingSub
    ensures WellFormed(p) && WellFormed(q) && SoundStep(KeyColumn(p), KeyColumn(q), Match(2, 2))
    ensures RowOf(p, q, PV, SV, Match(2, 2)) == ["3", "", "", "3"]
  {
    SingleColumnRepeatingKeys();
    OneColumnFields(p.columns);
    var c := Classify(p.columns, p.rows[2], q.columns, q.rows[2], PV, SV);
    ClassifyEntries(p.columns, p.rows[2], q.columns, q.rows[2], PV, SV);
    SpliceOne(p.rows[2], Label(c.0), c.1, q.rows[2]);
  }

  lemma SingleColumnRepeatingRow2(s: seq<Step>)
    requires WellFormed(SingleColumnRepeatingPrev) && WellFormed(SingleColumnRepeatingSub) && SoundScript(SingleColumnRepeatingPrev, SingleColumnRepeatingSub, s) && |s| == 6
    requires s[2] == Match(2, 2)
    ensures Rows(SingleColumnRepeatingPrev, SingleColumnRepeatingSub, PV, SV, s)[2] == ["3", "", "", "3"]
  {
    RowsAt(SingleColumnRepeatingPrev, SingleColumnRepeatingSub, PV, SV, s, 2);
    SingleColumnRepeatingCells2(SingleColumnRepeatingPrev, SingleColumnRepeatingSub);
  }

  lemma SingleColumnRepeatingCells3(p: Table, q: Table)
    requires p == SingleColumnRepeatingPrev && q == SingleColumnRepeatingSub
    ensures WellFormed(p) && WellFormed(q) && SoundStep(KeyColumn(p), KeyColumn(q), Delete(3))
    ensures RowOf(p, q, PV, SV, Delete(3)) == ["3", "ENTFÄLLT", "", ""]
  {
    SingleColumnRepeatingKeys();
  }

  lemma SingleColumnRepeatingRow3(s: seq<Step>)
    requires WellFormed(SingleColumnRepeatingPrev) && WellFormed(SingleColumnRepeatingSub) && SoundScript(SingleColumnRepeatingPrev, SingleColumnRepeatingSub, s) && |s| == 6
    requires s[3] == Delete(3)
    ensures Rows(SingleColumnRepeatingPrev, SingleColumnRepeatingSub, PV, SV, s)[3] == ["3", "ENTFÄLLT", "", ""]
  {
    RowsAt(SingleColumnRepeatingPrev, SingleColumnRepeatingSub, PV, SV, s, 3);
    SingleColumnRepeatingCells3(SingleColumnRepeatingPrev, SingleColumnRepeatingSub);
  }

  lemma SingleColumnRepeatingCells4(p: Table, q: Table)
    requires p == SingleColumnRepeatingPrev && q == SingleColumnRepeatingSub
    ensures WellFormed(p) && WellFormed(q) && SoundStep(KeyColumn(p), KeyColumn(q), Delete(4))
    ensures RowOf(p, q, PV, SV, Delete(4)) == ["2", "ENTFÄLLT", "", ""]
  {
    SingleColumnRepeatingKeys();
  }

  lemma SingleColumnRepeatingRow4(s: seq<Step>)
    requires WellFormed(SingleColumnRepeatingPrev) && WellFormed(SingleColumnRepeatingSub) && SoundScript(SingleColumnRepeatingPrev, SingleColumnRepeatingSub, s) && |s| == 6
    requires s[4] == Delete(4)
    ensures Rows(SingleColumnRepeatingPrev, SingleColumnRepeatingSub, PV, SV, s)[4] == ["2", "ENTFÄLLT", "", ""]
  {
    RowsAt(SingleColumnRepeatingPrev, SingleColumnRepeatingSub, PV, SV, s, 4);
    SingleColumnRepeatingCells4(SingleColumnRepeatingPrev, SingleColumnRepeatingSub);
  }

  lemma SingleColumnRepeatingCells5(p: Table, q: Table)
    requires p == SingleColumnRepeatingPrev && q == SingleColumnRepeatingSub
    ensures WellFormed(p) && WellFormed(q) && SoundStep(KeyColumn(p), KeyColumn(q), Insert(3))
    ensures RowOf(p, q, PV, SV, Insert(3)) == ["", "NEU", "", "4"]
  {
    SingleColumnRepeatingKeys();
  }

  lemma SingleColumnRepeatingRow5(s: seq<Step>)
    requires WellFormed(SingleColumnRepeatingPrev) && WellFormed(SingleColumnRepeatingSub) && SoundScript(SingleColumnRepeatingPrev, SingleColumnRepeatingSub, s) && |s| == 6
    requires s[5] == Insert(3)
    ensures Rows(SingleColumnRepeatingPrev, SingleColumnRepeatingSub, PV, SV, s)[5] == ["", "NEU", "", "4"]
  {
    RowsAt(SingleColumnRepeatingPrev, SingleColumnRepeatingSub, PV, SV, s, 5);
    SingleColumnRepeatingCells5(SingleColumnRepeatingPrev, SingleColumnRepeatingSub);
  }

  lemma SingleColumnRepeatingRows(s: seq<Step>)
    requires WellFormed(SingleColumnRepeatingPrev) && WellFormed(SingleColumnRepeatingSub) && SoundScript(SingleColumnRepeatingPrev, SingleColumnRepeatingSub, s) && |s| == 6
    requires s[0] == Match(0, 0)
    requires s[1] == Match(1, 1)
    requires s[2] == Match(2, 2)
    requires s[3] == Delete(3)
    requires s[4] == Delete(4)
    requires s[5] == Insert(3)
    ensures Rows(SingleColumnRepeatingPrev, SingleColumnRepeatingSub, PV, SV, s) == [["1", "", "", "1"], ["2", "", "", "2"], ["3", "", "", "3"], ["3", "ENTFÄLLT", "", ""], ["2", "ENTFÄLLT", "", ""], ["", "NEU", "", "4"]]
  {
    SingleColumnRepeatingRow0(s);
    SingleColumnRepeatingRow1(s);
    SingleColumnRepeatingRow2(s);
    SingleColumnRepeatingRow3(s);
    SingleColumnRepeatingRow4(s);
    SingleColumnRepeatingRow5(s);
    RowsOfSix(Rows(SingleColumnRepeatingPrev, SingleColumnRepeatingSub, PV, SV, s), ["1", "", "", "1"], ["2", "", "", "2"], ["3", "", "", "3"], ["3", "ENTFÄLLT", "", ""], ["2", "ENTFÄLLT", "", ""], ["", "NEU", "", "4"]);
  }

  lemma SingleColumnRepeatingColumns()
    ensures OutputColumns(SingleColumnRepeatingPrev.columns, SingleColumnRepeatingSub.columns, PV, SV) == ["Segmentname_FV2410", "Änderung", "changed_entries", "Segmentname_FV2504"]
  {
    OneColumnNamesPV();
    OneColumnNamesSV();
  }

  /** Single key column: repeated keys after the common prefix are deleted before the new key is inserted. */
  lemma SingleColumnRepeating()
    ensures AlignColumns(SingleColumnRepeatingPrev, SingleColumnRepeatingSub, PV, SV)
         == Success(Table(["Segmentname_FV2410", "Änderung", "changed_entries", "Segmentname_FV2504"],
                          [["1", "", "", "1"], ["2", "", "", "2"], ["3", "", "", "3"], ["3", "ENTFÄLLT", "", ""], ["2", "ENTFÄLLT", "", ""], ["", "NEU", "", "4"]]))
  {
    SingleColumnRepeatingSteps();
    SingleColumnRepeatingStepsAt(Script(SingleColumnRepeatingPrev, SingleColumnRepeatingSub));
    SingleColumnRepeatingSound();
    SingleColumnRepeatingColumns();
    SingleColumnRepeatingRows(Script(SingleColumnRepeatingPrev, SingleColumnRepeatingSub));
    SingleColumnRepeatingKeys();
    Assembled(SingleColumnRepeatingPrev, SingleColumnRepeatingSub, ["Segmentname_FV2410", "Änderung", "changed_entries", "Segmentname_FV2504"], [["1", "", "", "1"], ["2", "", "", "2"], ["3", "", "", "3"], ["3", "ENTFÄLLT", "", ""], ["2", "ENTFÄLLT", "", ""], ["", "NEU", "", "4"]]);
  }

  // unittests/test_process_csv.py:181-278
  const MultiColumnPrev: Table := Table(["Segmentname", "Segmentgruppe"], [["1", "a"], ["2", "b"], ["3", "c"], ["4", ""], ["5", "e"], ["6", "f"], ["9", "g"], ["10", "h"]])
  const MultiColumnSub: Table := Table(["Segmentname", "Segmentgruppe"], [["1", "a"], ["2", "b"], ["3", "d"], ["5", "d"], ["6", "d"], ["7", "e"], ["8", "f"], ["9", "a"], ["10", "b"]])

  lemma MultiColumnKeys()
    ensures WellFormed(MultiColumnPrev) && WellFormed(MultiColumnSub) && KeyField in MultiColumnPrev.columns && KeyField in MultiColumnSub.columns
    ensures KeyColumn(MultiColumnPrev) == ["1", "2", "3", "4", "5", "6", "9", "10"] && KeyColumn(MultiColumnSub) == ["1", "2", "3", "5", "6", "7", "8", "9", "10"]
  {
  }

  lemma MultiColumnSteps()
    ensures WellFormed(MultiColumnPrev) && WellFormed(MultiColumnSub)
    ensures Script(MultiColumnPrev, MultiColumnSub) == [Match(0, 0), Match(1, 1), Match(2, 2), Delete(3), Match(4, 3), Match(5, 4), Insert(5), Insert(6), Match(6, 7), Match(7, 8)]
  {
    MultiColumnKeys();
    SingleColumnScript(KeyColumn(MultiColumnPrev), KeyColumn(MultiColumnSub));
  }

  lemma MultiColumnSound()
    ensures WellFormed(MultiColumnPrev) && WellFormed(MultiColumnSub) && SoundScript(MultiColumnPrev, MultiColumnSub, Script(MultiColumnPrev, MultiColumnSub))
  {
    MultiColumnKeys();
    AlignSound(KeyColumn(MultiColumnPrev), KeyColumn(MultiColumnSub));
  }

  /** The fields two tables with columns ["Segmentname", "Segmentgruppe"] are compared on. */
  lemma TwoColumnFields(cols: seq<string>)
    requires cols == ["Segmentname", "Segmentgruppe"]
    ensures CompareFields(cols, cols) == ["Segmentgruppe"]
  {
    SharedSchemaFields(cols);
    assert Without(cols[1..], KeyField) == ["Segmentgruppe"];
  }

  /** A comparison row of width 6, cell by cell. */
  lemma SpliceTwo(a: seq<string>, x: string, y: string, b: seq<string>)
    requires |a| == 2 && |b| == 2
    ensures a + [x, y] + b == [a[0], a[1], x, y, b[0], b[1]]
  {
  }

  /** The fields of a row with columns ["Segmentname", "Segmentgruppe"], by name. */
  lemma TwoColumnCells(cols: seq<string>, row: seq<string>)
    requires cols == ["Segmentname", "Segmentgruppe"] && |row| == |cols|
    ensures Cell(cols, row, "Segmentgruppe") == row[1]
  {
    assert IndexOf(cols, "Segmentgruppe") == 1;
  }

  lemma MultiColumnDiffer0(cols: seq<string>, p: seq<string>, s: seq<string>)
    requires cols == ["Segmentname", "Segmentgruppe"] && p == ["1", "a"] && s == ["1", "a"]
    ensures DifferingFields(["Segmentgruppe"], cols, p, cols, s) == []
  {
    TwoColumnCells(cols, p);
    TwoColumnCells(cols, s);
  }

  lemma MultiColumnCells0(p: Table, q: Table)
    requires p == MultiColumnPrev && q == MultiColumnSub
    ensures WellFormed(p) && WellFormed(q) && SoundStep(KeyColumn(p), KeyColumn(q), Match(0, 0))
    ensures RowOf(p, q, PV, SV, Match(0, 0)) == ["1", "a", "", "", "1", "a"]
  {
    MultiColumnKeys();
    TwoColumnFields(p.columns);
    MultiColumnDiffer0(p.columns, p.rows[0], q.rows[0]);
    var c := Classify(p.columns, p.rows[0], q.columns, q.rows[0], PV, SV);
    ClassifyEntries(p.columns, p.rows[0], q.columns, q.rows[0], PV, SV);
    SpliceTwo(p.rows[0], Label(c.0), c.1, q.rows[0]);
  }

  lemma MultiColumnRow0(s: seq<Step>)
    requires WellFormed(MultiColumnPrev) && WellFormed(MultiColumnSub) && SoundScript(MultiColumnPrev, MultiColumnSub, s) && |s| == 10
    requires s[0] == Match(0, 0)
    ensures Rows(MultiColumnPrev, MultiColumnSub, PV, SV, s)[0] == ["1", "a", "", "", "1", "a"]
  {
    RowsAt(MultiColumnPrev, MultiColumnSub, PV, SV, s, 0);
    MultiColumnCells0(MultiColumnPrev, MultiColumnSub);
  }

  lemma MultiColumnDiffer1(cols: seq<string>, p: seq<string>, s: seq<string>)
    requires cols == ["Segmentname", "Segmentgruppe"] && p == ["2", "b"] && s == ["2", "b"]
    ensures DifferingFields(["Segmentgruppe"], cols, p, cols, s) == []
  {
    TwoColumnCells(cols, p);
    TwoColumnCells(cols, s);
  }

  lemma MultiColumnCells1(p: Table, q: Table)
    requires p == MultiColumnPrev && q == MultiColumnSub
    ensures WellFormed(p) && WellFormed(q) && SoundStep(KeyColumn(p), KeyColumn(q), Match(1, 1))
    ensures RowOf(p, q, PV, SV, Match(1, 1)) == ["2", "b", "", "", "2", "b"]
  {
    MultiColumnKeys();
    TwoColumnFields(p.columns);
    MultiColumnDiffer1(p.columns, p.rows[1], q.rows[1]);
    var c := Classify(p.columns, p.rows[1], q.columns, q.rows[1], PV, SV);
    ClassifyEntries(p.columns, p.rows[1], q.columns, q.rows[1], PV, SV);
    SpliceTwo(p.rows[1], Label(c.0), c.1, q.rows[1]);
  }

  lemma MultiColumnRow1(s: seq<Step>)
    requires WellFormed(MultiColumnPrev) && WellFormed(MultiColumnSub) && SoundScript(MultiColumnPrev, MultiColumnSub, s) && |s| == 10
    requires s[1] == Match(1, 1)
    ensures Rows(MultiColumnPrev, MultiColumnSub, PV, SV, s)[1] == ["2", "b", "", "", "2", "b"]
  {
    RowsAt(MultiColumnPrev, MultiColumnSub, PV, SV, s, 1);
    MultiColumnCells1(MultiColumnPrev, MultiColumnSub);
  }

  lemma MultiColumnDiffer2(cols: seq<string>, p: seq<string>, s: seq<string>)
    requires cols == ["Segmentname", "Segmentgruppe"] && p == ["3", "c"] && s == ["3", "d"]
    ensures DifferingFields(["Segmentgruppe"], cols, p, cols, s) == ["Segmentgruppe"]
  {
    TwoColumnCells(cols, p);
    TwoColumnCells(cols, s);
  }

  lemma MultiColumnCells2(p: Table, q: Table)
    requires p == MultiColumnPrev && q == MultiColumnSub
    ensures WellFormed(p) && WellFormed(q) && SoundStep(KeyColumn(p), KeyColumn(q), Match(2, 2))
    ensures RowOf(p, q, PV, SV, Match(2, 2)) == ["3", "c", "ÄNDERUNG", "Segmentgruppe_FV2410|Segmentgruppe_FV2504", "3", "d"]
  {
    MultiColumnKeys();
    TwoColumnFields(p.columns);
    MultiColumnDiffer2(p.columns, p.rows[2], q.rows[2]);
    var c := Classify(p.columns, p.rows[2], q.columns, q.rows[2], PV, SV);
    ClassifyEntries(p.columns, p.rows[2], q.columns, q.rows[2], PV, SV);
    GroupEntries();
    SpliceTwo(p.rows[2], Label(c.0), c.1, q.rows[2]);
  }

  lemma MultiColumnRow2(s: seq<Step>)
    requires WellFormed(MultiColumnPrev) && WellFormed(MultiColumnSub) && SoundScript(MultiColumnPrev, MultiColumnSub, s) && |s| == 10
    requires s[2] == Match(2, 2)
    ensures Rows(MultiColumnPrev, MultiColumnSub, PV, SV, s)[2] == ["3", "c", "ÄNDERUNG", "Segmentgruppe_FV2410|Segmentgruppe_FV2504", "3", "d"]
  {
    RowsAt(MultiColumnPrev, MultiColumnSub, PV, SV, s, 2);
    MultiColumnCells2(MultiColumnPrev, MultiColumnSub);
  }

  lemma MultiColumnCells3(p: Table, q: Table)
    requires p == MultiColumnPrev && q == MultiColumnSub
    ensures WellFormed(p) && WellFormed(q) && SoundStep(KeyColumn(p), KeyColumn(q), Delete(3))
    ensures RowOf(p, q, PV, SV, Delete(3)) == ["4", "", "ENTFÄLLT", "", "", ""]
  {
    MultiColumnKeys();
  }

  lemma MultiColumnRow3(s: seq<Step>)
    requires WellFormed(MultiColumnPrev) && WellFormed(MultiColumnSub) && SoundScript(MultiColumnPrev, MultiColumnSub, s) && |s| == 10
    requires s[3] == Delete(3)
    ensures Rows(MultiColumnPrev, MultiColumnSub, PV, SV, s)[3] == ["4", "", "ENTFÄLLT", "", "", ""]
  {
    RowsAt(MultiColumnPrev, MultiColumnSub, PV, SV, s, 3);
    MultiColumnCells3(MultiColumnPrev, MultiColumnSub);
  }

  lemma MultiColumnDiffer4(cols: seq<string>, p: seq<string>, s: seq<string>)
    requires cols == ["Segmentname", "Segmentgruppe"] && p == ["5", "e"] && s == ["5", "d"]
    ensures DifferingFields(["Segmentgruppe"], cols, p, cols, s) == ["Segmentgruppe"]
  {
    TwoColumnCells(cols, p);
    TwoColumnCells(cols, s);
  }

  lemma MultiColumnCells4(p: Table, q: Table)
    requires p == MultiColumnPrev && q == MultiColumnSub
    ensures WellFormed(p) && WellFormed(q) && SoundStep(KeyColumn(p), KeyColumn(q), Match(4, 3))
    ensures RowOf(p, q, PV, SV, Match(4, 3)) == ["5", "e", "ÄNDERUNG", "Segmentgruppe_FV2410|Segmentgruppe_FV2504", "5", "d"]
  {
    MultiColumnKeys();
    TwoColumnFields(p.columns);
    MultiColumnDiffer4(p.columns, p.rows[4], q.rows[3]);
    var c := Classify(p.columns, p.rows[4], q.columns, q.rows[3], PV, SV);
    ClassifyEntries(p.columns, p.rows[4], q.columns, q.rows[3], PV, SV);
    GroupEntries();
    SpliceTwo(p.rows[4], Label(c.0), c.1, q.rows[3]);
  }

  lemma MultiColumnRow4(s: seq<Step>)
    requires WellFormed(MultiColumnPrev) && WellFormed(MultiColumnSub) && SoundScript(MultiColumnPrev, MultiColumnSub, s) && |s| == 10
    requires s[4] == Match(4, 3)
    ensures Rows(MultiColumnPrev, MultiColumnSub, PV, SV, s)[4] == ["5", "e", "ÄNDERUNG", "Segmentgruppe_FV2410|Segmentgruppe_FV2504", "5", "d"]
  {
    RowsAt(MultiColumnPrev, MultiColumnSub, PV, SV, s, 4);
    MultiColumnCells4(MultiColumnPrev, MultiColumnSub);
  }

  lemma MultiColumnDiffer5(cols: seq<string>, p: seq<string>, s: seq<string>)
    requires cols == ["Segmentname", "Segmentgruppe"] && p == ["6", "f"] && s == ["6", "d"]
    ensures DifferingFields(["Segmentgruppe"], cols, p, cols, s) == ["Segmentgruppe"]
  {
    TwoColumnCells(cols, p);
    TwoColumnCells(cols, s);
  }

  lemma MultiColumnCells5(p: Table, q: Table)
    requires p == MultiColumnPrev && q == MultiColumnSub
    ensures WellFormed(p) && WellFormed(q) && SoundStep(KeyColumn(p), KeyColumn(q), Match(5, 4))
    ensures RowOf(p, q, PV, SV, Match(5, 4)) == ["6", "f", "ÄNDERUNG", "Segmentgruppe_FV2410|Segmentgruppe_FV2504", "6", "d"]
  {
    MultiColumnKeys();
    TwoColumnFields(p.columns);
    MultiColumnDiffer5(p.columns, p.rows[5], q.rows[4]);
    var c := Classify(p.columns, p.rows[5], q.columns, q.rows[4], PV, SV);
    ClassifyEntries(p.columns, p.rows[5], q.columns, q.rows[4], PV, SV);
    GroupEntries();
    SpliceTwo(p.rows[5], Label(c.0), c.1, q.rows[4]);
  }

  lemma MultiColumnRow5(s: seq<Step>)
    requires WellFormed(MultiColumnPrev) && WellFormed(MultiColumnSub) && SoundScript(MultiColumnPrev, MultiColumnSub, s) && |s| == 10
    requires s[5] == Match(5, 4)
    ensures Rows(MultiColumnPrev, MultiColumnSub, PV, SV, s)[5] == ["6", "f", "ÄNDERUNG", "Segmentgruppe_FV2410|Segmentgruppe_FV2504", "6", "d"]
  {
    RowsAt(MultiColumnPrev, MultiColumnSub, PV, SV, s, 5);
    MultiColumnCells5(MultiColumnPrev, MultiColumnSub);
  }

  lemma MultiColumnCells6(p: Table, q: Table)
    requires p == MultiColumnPrev && q == MultiColumnSub
    ensures WellFormed(p) && WellFormed(q) && SoundStep(KeyColumn(p), KeyColumn(q), Insert(5))
    ensures RowOf(p, q, PV, SV, Insert(5)) == ["", "", "NEU", "", "7", "e"]
  {
    MultiColumnKeys();
  }

  lemma MultiColumnRow6(s: seq<Step>)
    requires WellFormed(MultiColumnPrev) && WellFormed(MultiColumnSub) && SoundScript(MultiColumnPrev, MultiColumnSub, s) && |s| == 10
    requires s[6] == Insert(5)
    ensures Rows(MultiColumnPrev, MultiColumnSub, PV, SV, s)[6] == ["", "", "NEU", "", "7", "e"]
  {
    RowsAt(MultiColumnPrev, MultiColumnSub, PV, SV, s, 6);
    MultiColumnCells6(MultiColumnPrev, MultiColumnSub);
  }

  lemma MultiColumnCells7(p: Table, q: Table)
    requires p == MultiColumnPrev && q == MultiColumnSub
    ensures WellFormed(p) && WellFormed(q) && SoundStep(KeyColumn(p), KeyColumn(q), Insert(6))
    ensures RowOf(p, q, PV, SV, Insert(6)) == ["", "", "NEU", "", "8", "f"]
  {
    MultiColumnKeys();
  }

  lemma MultiColumnRow7(s: seq<Step>)
    requires WellFormed(MultiColumnPrev) && WellFormed(MultiColumnSub) && SoundScript(MultiColumnPrev, MultiColumnSub, s) && |s| == 10
    requires s[7] == Insert(6)
    ensures Rows(MultiColumnPrev, MultiColumnSub, PV, SV, s)[7] == ["", "", "NEU", "", "8", "f"]
  {
    RowsAt(MultiColumnPrev, MultiColumnSub, PV, SV, s, 7);
    MultiColumnCells7(MultiColumnPrev, MultiColumnSub);
  }

  lemma MultiColumnDiffer8(cols: seq<string>, p: seq<string>, s: seq<string>)
    requires cols == ["Segmentname", "Segmentgruppe"] && p == ["9", "g"] && s == ["9", "a"]
    ensures DifferingFields(["Segmentgruppe"], cols, p, cols, s) == ["Segmentgruppe"]
  {
    TwoColumnCells(cols, p);
    TwoColumnCells(cols, s);
  }

  lemma MultiColumnCells8(p: Table, q: Table)
    requires p == MultiColumnPrev && q == MultiColumnSub
    ensures WellFormed(p) && WellFormed(q) && SoundStep(KeyColumn(p), KeyColumn(q), Match(6, 7))
    ensures RowOf(p, q, PV, SV, Match(6, 7)) == ["9", "g", "ÄNDERUNG", "Segmentgruppe_FV2410|Segmentgruppe_FV2504", "9", "a"]
  {
    MultiColumnKeys();
    TwoColumnFields(p.columns);
    MultiColumnDiffer8(p.columns, p.rows[6], q.rows[7]);
    var c := Classify(p.columns, p.rows[6], q.columns, q.rows[7], PV, SV);
    ClassifyEntries(p.columns, p.rows[6], q.columns, q.rows[7], PV, SV);
    GroupEntries();
    SpliceTwo(p.rows[6], Label(c.0), c.1, q.rows[7]);
  }

  lemma MultiColumnRow8(s: seq<Step>)
    requires WellFormed(MultiColumnPrev) && WellFormed(MultiColumnSub) && SoundScript(MultiColumnPrev, MultiColumnSub, s) && |s| == 10
    requires s[8] == Match(6, 7)
    ensures Rows(MultiColumnPrev, MultiColumnSub, PV, SV, s)[8] == ["9", "g", "ÄNDERUNG", "Segmentgruppe_FV2410|Segmentgruppe_FV2504", "9", "a"]
  {
    RowsAt(MultiColumnPrev, MultiColumnSub, PV, SV, s, 8);
    MultiColumnCells8(MultiColumnPrev, MultiColumnSub);
  }

  lemma MultiColumnDiffer9(cols: seq<string>, p: seq<string>, s: seq<string>)
    requires cols == ["Segmentname", "Segmentgruppe"] && p == ["10", "h"] && s == ["10", "b"]
    ensures DifferingFields(["Segmentgruppe"], cols, p, cols, s) == ["Segmentgruppe"]
  {
    TwoColumnCells(cols, p);
    TwoColumnCells(cols, s);
  }

  lemma MultiColumnCells9(p: Table, q: Table)
    requires p == MultiColumnPrev && q == MultiColumnSub
    ensures WellFormed(p) && WellFormed(q) && SoundStep(KeyColumn(p), KeyColumn(q), Match(7, 8))
    ensures RowOf(p, q, PV, SV, Match(7, 8)) == ["10", "h", "ÄNDERUNG", "Segmentgruppe_FV2410|Segmentgruppe_FV2504", "10", "b"]
  {
    MultiColumnKeys();
    TwoColumnFields(p.columns);
    MultiColumnDiffer9(p.columns, p.rows[7], q.rows[8]);
    var c := Classify(p.columns, p.rows[7], q.columns, q.rows[8], PV, SV);
    ClassifyEntries(p.columns, p.rows[7], q.columns, q.rows[8], PV, SV);
    GroupEntries();
    SpliceTwo(p.rows[7], Label(c.0), c.1, q.rows[8]);
  }

  lemma MultiColumnRow9(s: seq<Step>)
    requires WellFormed(MultiColumnPrev) && WellFormed(MultiColumnSub) && SoundScript(MultiColumnPrev, MultiColumnSub, s) && |s| == 10
    requires s[9] == Match(7, 8)
    ensures Rows(MultiColumnPrev, MultiColumnSub, PV, SV, s)[9] == ["10", "h", "ÄNDERUNG", "Segmentgruppe_FV2410|Segmentgruppe_FV2504", "10", "b"]
  {
    RowsAt(MultiColumnPrev, MultiColumnSub, PV, SV, s, 9);
    MultiColumnCells9(MultiColumnPrev, MultiColumnSub);
  }

  lemma MultiColumnRows(s: seq<Step>)
    requires WellFormed(MultiColumnPrev) && WellFormed(MultiColumnSub) && SoundScript(MultiColumnPrev, MultiColumnSub, s) && |s| == 10
    requires s[0] == Match(0, 0)
    requires s[1] == Match(1, 1)
    requires s[2] == Match(2, 2)
    requires s[3] == Delete(3)
    requires s[4] == Match(4, 3)
    requires s[5] == Match(5, 4)
    requires s[6] == Insert(5)
    requires s[7] == Insert(6)
    requires s[8] == Match(6, 7)
    requires s[9] == Match(7, 8)
    ensures Rows(MultiColumnPrev, MultiColumnSub, PV, SV, s) == [["1", "a", "", "", "1", "a"], ["2", "b", "", "", "2", "b"], ["3", "c", "ÄNDERUNG", "Segmentgruppe_FV2410|Segmentgruppe_FV2504", "3", "d"], ["4", "", "ENTFÄLLT", "", "", ""], ["5", "e", "ÄNDERUNG", "Segmentgruppe_FV2410|Segmentgruppe_FV2504", "5", "d"], ["6", "f", "ÄNDERUNG", "Segmentgruppe_FV2410|Segmentgruppe_FV2504", "6", "d"], ["", "", "NEU", "", "7", "e"], ["", "", "NEU", "", "8", "f"], ["9", "g", "ÄNDERUNG", "Segmentgruppe_FV2410|Segmentgruppe_FV2504", "9", "a"], ["10", "h", "ÄNDERUNG", "Segmentgruppe_FV2410|Segmentgruppe_FV2504", "10", "b"]]
  {
    MultiColumnRow0(s);
    MultiColumnRow1(s);
    MultiColumnRow2(s);
    MultiColumnRow3(s);
    MultiColumnRow4(s);
    MultiColumnRow5(s);
    MultiColumnRow6(s);
    MultiColumnRow7(s);
    MultiColumnRow8(s);
    MultiColumnRow9(s);
    RowsOfTen(Rows(MultiColumnPrev, MultiColumnSub, PV, SV, s), ["1", "a", "", "", "1", "a"], ["2", "b", "", "", "2", "b"], ["3", "c", "ÄNDERUNG", "Segmentgruppe_FV2410|Segmentgruppe_FV2504", "3", "d"], ["4", "", "ENTFÄLLT", "", "", ""], ["5", "e", "ÄNDERUNG", "Segmentgruppe_FV2410|Segmentgruppe_FV2504", "5", "d"], ["6", "f", "ÄNDERUNG", "Segmentgruppe_FV2410|Segmentgruppe_FV2504", "6", "d"], ["", "", "NEU", "", "7", "e"], ["", "", "NEU", "", "8", "f"], ["9", "g", "ÄNDERUNG", "Segmentgruppe_FV2410|Segmentgruppe_FV2504", "9", "a"], ["10", "h", "ÄNDERUNG", "Segmentgruppe_FV2410|Segmentgruppe_FV2504", "10", "b"]);
  }

  /** The column names ["Segmentname", "Segmentgruppe"] suffixed with PV. */
  lemma TwoColumnNamesPV()
    ensures Suffixed(["Segmentname", "Segmentgruppe"], PV) == ["Segmentname_FV2410", "Segmentgruppe_FV2410"]
  {
    assert "Segmentname" + "_" + PV == "Segmentname_FV2410";
    assert "Segmentgruppe" + "_" + PV == "Segmentgruppe_FV2410";
  }

  /** The column names ["Segmentname", "Segmentgruppe"] suffixed with SV. */
  lemma TwoColumnNamesSV()
    ensures Suffixed(["Segmentname", "Segmentgruppe"], SV) == ["Segmentname_FV2504", "Segmentgruppe_FV2504"]
  {
    assert "Segmentname" + "_" + SV == "Segmentname_FV2504";
    assert "Segmentgruppe" + "_" + SV == "Segmentgruppe_FV2504";
  }

  lemma MultiColumnColumns()
    ensures OutputColumns(MultiColumnPrev.columns, MultiColumnSub.columns, PV, SV) == ["Segmentname_FV2410", "Segmentgruppe_FV2410", "Änderung", "changed_entries", "Segmentname_FV2504", "Segmentgruppe_FV2504"]
  {
    TwoColumnNamesPV();
    TwoColumnNamesSV();
  }

  /** Two columns: matched rows whose group differs are marked changed and name the group in changed_entries. */
  lemma MultiColumn()
    ensures AlignColumns(MultiColumnPrev, MultiColumnSub, PV, SV)
         == Success(Table(["Segmentname_FV2410", "Segmentgruppe_FV2410", "Änderung", "changed_entries", "Segmentname_FV2504", "Segmentgruppe_FV2504"],
                          [["1", "a", "", "", "1", "a"], ["2", "b", "", "", "2", "b"], ["3", "c", "ÄNDERUNG", "Segmentgruppe_FV2410|Segmentgruppe_FV2504", "3", "d"], ["4", "", "ENTFÄLLT", "", "", ""], ["5", "e", "ÄNDERUNG", "Segmentgruppe_FV2410|Segmentgruppe_FV2504", "5", "d"], ["6", "f", "ÄNDERUNG", "Segmentgruppe_FV2410|Segmentgruppe_FV2504", "6", "d"], ["", "", "NEU", "", "7", "e"], ["", "", "NEU", "", "8", "f"], ["9", "g", "ÄNDERUNG", "Segmentgruppe_FV2410|Segmentgruppe_FV2504", "9", "a"], ["10", "h", "ÄNDERUNG", "Segmentgruppe_FV2410|Segmentgruppe_FV2504", "10", "b"]]))
  {
    MultiColumnSteps();
    SingleColumnStepsAt(Script(MultiColumnPrev, MultiColumnSub));
    MultiColumnSound();
    MultiColumnColumns();
    MultiColumnRows(Script(MultiColumnPrev, MultiColumnSub));
    MultiColumnKeys();
    Assembled(MultiColumnPrev, MultiColumnSub, ["Segmentname_FV2410", "Segmentgruppe_FV2410", "Änderung", "changed_entries", "Segmentname_FV2504", "Segmentgruppe_FV2504"], [["1", "a", "", "", "1", "a"], ["2", "b", "", "", "2", "b"], ["3", "c", "ÄNDERUNG", "Segmentgruppe_FV2410|Segmentgruppe_FV2504", "3", "d"], ["4", "", "ENTFÄLLT", "", "", ""], ["5", "e", "ÄNDERUNG", "Segmentgruppe_FV2410|Segmentgruppe_FV2504", "5", "d"], ["6", "f", "ÄNDERUNG", "Segmentgruppe_FV2410|Segmentgruppe_FV2504", "6", "d"], ["", "", "NEU", "", "7", "e"], ["", "", "NEU", "", "8", "f"], ["9", "g", "ÄNDERUNG", "Segmentgruppe_FV2410|Segmentgruppe_FV2504", "9", "a"], ["10", "h", "ÄNDERUNG", "Segmentgruppe_FV2410|Segmentgruppe_FV2504", "10", "b"]]);
  }

  // unittests/test_process_csv.py:280-301
  const MultiColumnEmptyPrev: Table := Table(["Segmentname", "Segmentgruppe"], [])
  const MultiColumnEmptySub: Table := Table(["Segmentname", "Segmentgruppe"], [])

  lemma MultiColumnEmptyKeys()
    ensures WellFormed(MultiColumnEmptyPrev) && WellFormed(MultiColumnEmptySub) && KeyField in MultiColumnEmptyPrev.columns && KeyField in MultiColumnEmptySub.columns
    ensures KeyColumn(MultiColumnEmptyPrev) == [] && KeyColumn(MultiColumnEmptySub) == []
  {
  }

  lemma MultiColumnEmptySteps()
    ensures WellFormed(MultiColumnEmptyPrev) && WellFormed(MultiColumnEmptySub)
    ensures Script(MultiColumnEmptyPrev, MultiColumnEmptySub) == []
  {
    MultiColumnEmptyKeys();
    SingleColumnEmptyScript(KeyColumn(MultiColumnEmptyPrev), KeyColumn(MultiColumnEmptySub));
  }

  lemma MultiColumnEmptySound()
    ensures WellFormed(MultiColumnEmptyPrev) && WellFormed(MultiColumnEmptySub) && SoundScript(MultiColumnEmptyPrev, MultiColumnEmptySub, Script(MultiColumnEmptyPrev, MultiColumnEmptySub))
  {
    MultiColumnEmptyKeys();
    AlignSound(KeyColumn(MultiColumnEmptyPrev), KeyColumn(MultiColumnEmptySub));
  }

  lemma MultiColumnEmptyRows(s: seq<Step>)
    requires WellFormed(MultiColumnEmptyPrev) && WellFormed(MultiColumnEmptySub) && SoundScript(MultiColumnEmptyPrev, MultiColumnEmptySub, s) && |s| == 0
    ensures Rows(MultiColumnEmptyPrev, MultiColumnEmptySub, PV, SV, s) == []
  {
  }

  lemma MultiColumnEmptyColumns()
    ensures OutputColumns(MultiColumnEmptyPrev.columns, MultiColumnEmptySub.columns, PV, SV) == ["Segmentname_FV2410", "Segmentgruppe_FV2410", "Änderung", "changed_entries", "Segmentname_FV2504", "Segmentgruppe_FV2504"]
  {
    TwoColumnNamesPV();
    TwoColumnNamesSV();
  }

  /** Two columns: two empty tables give no rows. */
  lemma MultiColumnEmpty()
    ensures AlignColumns(MultiColumnEmptyPrev, MultiColumnEmptySub, PV, SV)
         == Success(Table(["Segmentname_FV2410", "Segmentgruppe_FV2410", "Änderung", "changed_entries", "Segmentname_FV2504", "Segmentgruppe_FV2504"],
                          []))
  {
    MultiColumnEmptySteps();
    SingleColumnEmptyStepsAt(Script(MultiColumnEmptyPrev, MultiColumnEmptySub));
    MultiColumnEmptySound();
    MultiColumnEmptyColumns();
    MultiColumnEmptyRows(Script(MultiColumnEmptyPrev, MultiColumnEmptySub));
    MultiColumnEmptyKeys();
    Assembled(MultiColumnEmptyPrev, MultiColumnEmptySub, ["Segmentname_FV2410", "Segmentgruppe_FV2410", "Änderung", "changed_entries", "Segmentname_FV2504", "Segmentgruppe_FV2504"], []);
  }

  // unittests/test_process_csv.py:303-324
  const MultiColumnOneEmptyPrev: Table := Table(["Segmentname", "Segmentgruppe"], [["1", "a"], ["2", "b"], ["3", "c"]])
  const MultiColumnOneEmptySub: Table := Table(["Segmentname", "Segmentgruppe"], [])

  lemma MultiColumnOneEmptyKeys()
    ensures WellFormed(MultiColumnOneEmptyPrev) && WellFormed(MultiColumnOneEmptySub) && KeyField in MultiColumnOneEmptyPrev.columns && KeyField in MultiColumnOneEmptySub.columns
    ensures KeyColumn(MultiColumnOneEmptyPrev) == ["1", "2", "3"] && KeyColumn(MultiColumnOneEmptySub) == []
  {
  }

  lemma MultiColumnOneEmptySteps()
    ensures WellFormed(MultiColumnOneEmptyPrev) && WellFormed(MultiColumnOneEmptySub)
    ensures Script(MultiColumnOneEmptyPrev, MultiColumnOneEmptySub) == [Delete(0), Delete(1), Delete(2)]
  {
    MultiColumnOneEmptyKeys();
    SingleColumnOneEmptyScript(KeyColumn(MultiColumnOneEmptyPrev), KeyColumn(MultiColumnOneEmptySub));
  }

  lemma MultiColumnOneEmptySound()
    ensures WellFormed(MultiColumnOneEmptyPrev) && WellFormed(MultiColumnOneEmptySub) && SoundScript(MultiColumnOneEmptyPrev, MultiColumnOneEmptySub, Script(MultiColumnOneEmptyPrev, MultiColumnOneEmptySub))
  {
    MultiColumnOneEmptyKeys();
    AlignSound(KeyColumn(MultiColumnOneEmptyPrev), KeyColumn(MultiColumnOneEmptySub));
  }

  lemma MultiColumnOneEmptyCells0(p: Table, q: Table)
    requires p == MultiColumnOneEmptyPrev && q == MultiColumnOneEmptySub
    ensures WellFormed(p) && WellFormed(q) && SoundStep(KeyColumn(p), KeyColumn(q), Delete(0))
    ensures RowOf(p, q, PV, SV, Delete(0)) == ["1", "a", "ENTFÄLLT", "", "", ""]
  {
    MultiColumnOneEmptyKeys();
  }

  lemma MultiColumnOneEmptyRow0(s: seq<Step>)
    requires WellFormed(MultiColumnOneEmptyPrev) && WellFormed(MultiColumnOneEmptySub) && SoundScript(MultiColumnOneEmptyPrev, MultiColumnOneEmptySub, s) && |s| == 3
    requires s[0] == Delete(0)
    ensures Rows(MultiColumnOneEmptyPrev, MultiColumnOneEmptySub, PV, SV, s)[0] == ["1", "a", "ENTFÄLLT", "", "", ""]
  {
    RowsAt(MultiColumnOneEmptyPrev, MultiColumnOneEmptySub, PV, SV, s, 0);
    MultiColumnOneEmptyCells0(MultiColumnOneEmptyPrev, MultiColumnOneEmptySub);
  }

  lemma MultiColumnOneEmptyCells1(p: Table, q: Table)
    requires p == MultiColumnOneEmptyPrev && q == MultiColumnOneEmptySub
    ensures WellFormed(p) && WellFormed(q) && SoundStep(KeyColumn(p), KeyColumn(q), Delete(1))
    ensures RowOf(p, q, PV, SV, Delete(1)) == ["2", "b", "ENTFÄLLT", "", "", ""]
  {
    MultiColumnOneEmptyKeys();
  }

  lemma MultiColumnOneEmptyRow1(s: seq<Step>)
    requires WellFormed(MultiColumnOneEmptyPrev) && WellFormed(MultiColumnOneEmptySub) && SoundScript(MultiColumnOneEmptyPrev, MultiColumnOneEmptySub, s) && |s| == 3
    requires s[1] == Delete(1)
    ensures Rows(MultiColumnOneEmptyPrev, MultiColumnOneEmptySub, PV, SV, s)[1] == ["2", "b", "ENTFÄLLT", "", "", ""]
  {
    RowsAt(MultiColumnOneEmptyPrev, MultiColumnOneEmptySub, PV, SV, s, 1);
    MultiColumnOneEmptyCells1(MultiColumnOneEmptyPrev, MultiColumnOneEmptySub);
  }

  lemma MultiColumnOneEmptyCells2(p: Table, q: Table)
    requires p == MultiColumnOneEmptyPrev && q == MultiColumnOneEmptySub
    ensures WellFormed(p) && WellFormed(q) && SoundStep(KeyColumn(p), KeyColumn(q), Delete(2))
    ensures RowOf(p, q, PV, SV, Delete(2)) == ["3", "c", "ENTFÄLLT", "", "", ""]
  {
    MultiColumnOneEmptyKeys();
  }

  lemma MultiColumnOneEmptyRow2(s: seq<Step>)
    requires WellFormed(MultiColumnOneEmptyPrev) && WellFormed(MultiColumnOneEmptySub) && SoundScript(MultiColumnOneEmptyPrev, MultiColumnOneEmptySub, s) && |s| == 3
    requires s[2] == Delete(2)
    ensures Rows(MultiColumnOneEmptyPrev, MultiColumnOneEmptySub, PV, SV, s)[2] == ["3", "c", "ENTFÄLLT", "", "", ""]
  {
    RowsAt(MultiColumnOneEmptyPrev, MultiColumnOneEmptySub, PV, SV, s, 2);
    MultiColumnOneEmptyCells2(MultiColumnOneEmptyPrev, MultiColumnOneEmptySub);
  }

  lemma MultiColumnOneEmptyRows(s: seq<Step>)
    requires WellFormed(MultiColumnOneEmptyPrev) && WellFormed(MultiColumnOneEmptySub) && SoundScript(MultiColumnOneEmptyPrev, MultiColumnOneEmptySub, s) && |s| == 3
    requires s[0] == Delete(0)
    requires s[1] == Delete(1)
    requires s[2] == Delete(2)
    ensures Rows(MultiColumnOneEmptyPrev, MultiColumnOneEmptySub, PV, SV, s) == [["1", "a", "ENTFÄLLT", "", "", ""], ["2", "b", "ENTFÄLLT", "", "", ""], ["3", "c", "ENTFÄLLT", "", "", ""]]
  {
    MultiColumnOneEmptyRow0(s);
    MultiColumnOneEmptyRow1(s);
    MultiColumnOneEmptyRow2(s);
    RowsOfThree(Rows(MultiColumnOneEmptyPrev, MultiColumnOneEmptySub, PV, SV, s), ["1", "a", "ENTFÄLLT", "", "", ""], ["2", "b", "ENTFÄLLT", "", "", ""], ["3", "c", "ENTFÄLLT", "", "", ""]);
  }

  lemma MultiColumnOneEmptyColumns()
    ensures OutputColumns(MultiColumnOneEmptyPrev.columns, MultiColumnOneEmptySub.columns, PV, SV) == ["Segmentname_FV2410", "Segmentgruppe_FV2410", "Änderung", "changed_entries", "Segmentname_FV2504", "Segmentgruppe_FV2504"]
  {
    TwoColumnNamesPV();
    TwoColumnNamesSV();
  }

  /** Two columns: against an empty table every previous row is deleted. */
  lemma MultiColumnOneEmpty()
    ensures AlignColumns(MultiColumnOneEmptyPrev, MultiColumnOneEmptySub, PV, SV)
         == Success(Table(["Segmentname_FV2410", "Segmentgruppe_FV2410", "Änderung", "changed_entries", "Segmentname_FV2504", "Segmentgruppe_FV2504"],
                          [["1", "a", "ENTFÄLLT", "", "", ""], ["2", "b", "ENTFÄLLT", "", "", ""], ["3", "c", "ENTFÄLLT", "", "", ""]]))
  {
    MultiColumnOneEmptySteps();
    SingleColumnOneEmptyStepsAt(Script(MultiColumnOneEmptyPrev, MultiColumnOneEmptySub));
    MultiColumnOneEmptySound();
    MultiColumnOneEmptyColumns();
    MultiColumnOneEmptyRows(Script(MultiColumnOneEmptyPrev, MultiColumnOneEmptySub));
    MultiColumnOneEmptyKeys();
    Assembled(MultiColumnOneEmptyPrev, MultiColumnOneEmptySub, ["Segmentname_FV2410", "Segmentgruppe_FV2410", "Änderung", "changed_entries", "Segmentname_FV2504", "Segmentgruppe_FV2504"], [["1", "a", "ENTFÄLLT", "", "", ""], ["2", "b", "ENTFÄLLT", "", "", ""], ["3", "c", "ENTFÄLLT", "", "", ""]]);
  }

  // unittests/test_process_csv.py:326-347
  const MultiColumnFullOffsetPrev: Table := Table(["Segmentname", "Segmentgruppe"], [["1", "a"], ["2", "b"], ["3", "c"]])
  const MultiColumnFullOffsetSub: Table := Table(["Segmentname", "Segmentgruppe"], [["4", "d"], ["5", "e"], ["6", "f"]])

  lemma MultiColumnFullOffsetKeys()
    ensures WellFormed(MultiColumnFullOffsetPrev) && WellFormed(MultiColumnFullOffsetSub) && KeyField in MultiColumnFullOffsetPrev.columns && KeyField in MultiColumnFullOffsetSub.columns
    ensures KeyColumn(MultiColumnFullOffsetPrev) == ["1", "2", "3"] && KeyColumn(MultiColumnFullOffsetSub) == ["4", "5", "6"]
  {
  }

  lemma MultiColumnFullOffsetSteps()
    ensures WellFormed(MultiColumnFullOffsetPrev) && WellFormed(MultiColumnFullOffsetSub)
    ensures Script(MultiColumnFullOffsetPrev, MultiColumnFullOffsetSub) == [Delete(0), Delete(1), Delete(2), Insert(0), Insert(1), Insert(2)]
  {
    MultiColumnFullOffsetKeys();
    SingleColumnFullOffsetScript(KeyColumn(MultiColumnFullOffsetPrev), KeyColumn(MultiColumnFullOffsetSub));
  }

  lemma MultiColumnFullOffsetSound()
    ensures WellFormed(MultiColumnFullOffsetPrev) && WellFormed(MultiColumnFullOffsetSub) && SoundScript(MultiColumnFullOffsetPrev, MultiColumnFullOffsetSub, Script(MultiColumnFullOffsetPrev, MultiColumnFullOffsetSub))
  {
    MultiColumnFullOffsetKeys();
    AlignSound(KeyColumn(MultiColumnFullOffsetPrev), KeyColumn(MultiColumnFullOffsetSub));
  }

  lemma MultiColumnFullOffsetCells0(p: Table, q: Table)
    requires p == MultiColumnFullOffsetPrev && q == MultiColumnFullOffsetSub
    ensures WellFormed(p) && WellFormed(q) && SoundStep(KeyColumn(p), KeyColumn(q), Delete(0))
    ensures RowOf(p, q, PV, SV, Delete(0)) == ["1", "a", "ENTFÄLLT", "", "", ""]
  {
    MultiColumnFullOffsetKeys();
  }

  lemma MultiColumnFullOffsetRow0(s: seq<Step>)
    requires WellFormed(MultiColumnFullOffsetPrev) && WellFormed(MultiColumnFullOffsetSub) && SoundScript(MultiColumnFullOffsetPrev, MultiColumnFullOffsetSub, s) && |s| == 6
    requires s[0] == Delete(0)
    ensures Rows(MultiColumnFullOffsetPrev, MultiColumnFullOffsetSub, PV, SV, s)[0] == ["1", "a", "ENTFÄLLT", "", "", ""]
  {
    RowsAt(MultiColumnFullOffsetPrev, MultiColumnFullOffsetSub, PV, SV, s, 0);
    MultiColumnFullOffsetCells0(MultiColumnFullOffsetPrev, MultiColumnFullOffsetSub);
  }

  lemma MultiColumnFullOffsetCells1(p: Table, q: Table)
    requires p == MultiColumnFullOffsetPrev && q == MultiColumnFullOffsetSub
    ensures WellFormed(p) && WellFormed(q) && SoundStep(KeyColumn(p), KeyColumn(q), Delete(1))
    ensures RowOf(p, q, PV, SV, Delete(1)) == ["2", "b", "ENTFÄLLT", "", "", ""]
  {
    MultiColumnFullOffsetKeys();
  }

  lemma MultiColumnFullOffsetRow1(s: seq<Step>)
    requires WellFormed(MultiColumnFullOffsetPrev) && WellFormed(MultiColumnFullOffsetSub) && SoundScript(MultiColumnFullOffsetPrev, MultiColumnFullOffsetSub, s) && |s| == 6
    requires s[1] == Delete(1)
    ensures Rows(MultiColumnFullOffsetPrev, MultiColumnFullOffsetSub, PV, SV, s)[1] == ["2", "b", "ENTFÄLLT", "", "", ""]
  {
    RowsAt(MultiColumnFullOffsetPrev, MultiColumnFullOffsetSub, PV, SV, s, 1);
    MultiColumnFullOffsetCells1(MultiColumnFullOffsetPrev, MultiColumnFullOffsetSub);
  }

  lemma MultiColumnFullOffsetCells2(p: Table, q: Table)
    requires p == MultiColumnFullOffsetPrev && q == MultiColumnFullOffsetSub
    ensures WellFormed(p) && WellFormed(q) && SoundStep(KeyColumn(p), KeyColumn(q), Delete(2))
    ensures RowOf(p, q, PV, SV, Delete(2)) == ["3", "c", "ENTFÄLLT", "", "", ""]
  {
    MultiColumnFullOffsetKeys();
  }

  lemma MultiColumnFullOffsetRow2(s: seq<Step>)
    requires WellFormed(MultiColumnFullOffsetPrev) && WellFormed(MultiColumnFullOffsetSub) && SoundScript(MultiColumnFullOffsetPrev, MultiColumnFullOffsetSub, s) && |s| == 6
    requires s[2] == Delete(2)
    ensures Rows(MultiColumnFullOffsetPrev, MultiColumnFullOffsetSub, PV, SV, s)[2] == ["3", "c", "ENTFÄLLT", "", "", ""]
  {
    RowsAt(MultiColumnFullOffsetPrev, MultiColumnFullOffsetSub, PV, SV, s, 2);
    MultiColumnFullOffsetCells2(MultiColumnFullOffsetPrev, MultiColumnFullOffsetSub);
  }

  lemma MultiColumnFullOffsetCells3(p: Table, q: Table)
    requires p == MultiColumnFullOffsetPrev && q == MultiColumnFullOffsetSub
    ensures WellFormed(p) && WellFormed(q) && SoundStep(KeyColumn(p), KeyColumn(q), Insert(0))
    ensures RowOf(p, q, PV, SV, Insert(0)) == ["", "", "NEU", "", "4", "d"]
  {
    MultiColumnFullOffsetKeys();
  }

  lemma MultiColumnFullOffsetRow3(s: seq<Step>)
    requires WellFormed(MultiColumnFullOffsetPrev) && WellFormed(MultiColumnFullOffsetSub) && SoundScript(MultiColumnFullOffsetPrev, MultiColumnFullOffsetSub, s) && |s| == 6
    requires s[3] == Insert(0)
    ensures Rows(MultiColumnFullOffsetPrev, MultiColumnFullOffsetSub, PV, SV, s)[3] == ["", "", "NEU", "", "4", "d"]
  {
    RowsAt(MultiColumnFullOffsetPrev, MultiColumnFullOffsetSub, PV, SV, s, 3);
    MultiColumnFullOffsetCells3(MultiColumnFullOffsetPrev, MultiColumnFullOffsetSub);
  }

  lemma MultiColumnFullOffsetCells4(p: Table, q: Table)
    requires p == MultiColumnFullOffsetPrev && q == MultiColumnFullOffsetSub
    ensures WellFormed(p) && WellFormed(q) && SoundStep(KeyColumn(p), KeyColumn(q), Insert(1))
    ensures RowOf(p, q, PV, SV, Insert(1)) == ["", "", "NEU", "", "5", "e"]
  {
    MultiColumnFullOffsetKeys();
  }

  lemma MultiColumnFullOffsetRow4(s: seq<Step>)
    requires WellFormed(MultiColumnFullOffsetPrev) && WellFormed(MultiColumnFullOffsetSub) && SoundScript(MultiColumnFullOffsetPrev, MultiColumnFullOffsetSub, s) && |s| == 6
    requires s[4] == Insert(1)
    ensures Rows(MultiColumnFullOffsetPrev, MultiColumnFullOffsetSub, PV, SV, s)[4] == ["", "", "NEU", "", "5", "e"]
  {
    RowsAt(MultiColumnFullOffsetPrev, MultiColumnFullOffsetSub, PV, SV, s, 4);
    MultiColumnFullOffsetCells4(MultiColumnFullOffsetPrev, MultiColumnFullOffsetSub);
  }

  lemma MultiColumnFullOffsetCells5(p: Table, q: Table)
    requires p == MultiColumnFullOffsetPrev && q == MultiColumnFullOffsetSub
    ensures WellFormed(p) && WellFormed(q) && SoundStep(KeyColumn(p), KeyColumn(q), Insert(2))
    ensures RowOf(p, q, PV, SV, Insert(2)) == ["", "", "NEU", "", "6", "f"]
  {
    MultiColumnFullOffsetKeys();
  }

  lemma MultiColumnFullOffsetRow5(s: seq<Step>)
    requires WellFormed(MultiColumnFullOffsetPrev) && WellFormed(MultiColumnFullOffsetSub) && SoundScript(MultiColumnFullOffsetPrev, MultiColumnFullOffsetSub, s) && |s| == 6
    requires s[5] == Insert(2)
    ensures Rows(MultiColumnFullOffsetPrev, MultiColumnFullOffsetSub, PV, SV, s)[5] == ["", "", "NEU", "", "6", "f"]
  {
    RowsAt(MultiColumnFullOffsetPrev, MultiColumnFullOffsetSub, PV, SV, s, 5);
    MultiColumnFullOffsetCells5(MultiColumnFullOffsetPrev, MultiColumnFullOffsetSub);
  }

  lemma MultiColumnFullOffsetRows(s: seq<Step>)
    requires WellFormed(MultiColumnFullOffsetPrev) && WellFormed(MultiColumnFullOffsetSub) && SoundScript(MultiColumnFullOffsetPrev, MultiColumnFullOffsetSub, s) && |s| == 6
    requires s[0] == Delete(0)
    requires s[1] == Delete(1)
    requires s[2] == Delete(2)
    requires s[3] == Insert(0)
    requires s[4] == Insert(1)
    requires s[5] == Insert(2)
    ensures Rows(MultiColumnFullOffsetPrev, MultiColumnFullOffsetSub, PV, SV, s) == [["1", "a", "ENTFÄLLT", "", "", ""], ["2", "b", "ENTFÄLLT", "", "", ""], ["3", "c", "ENTFÄLLT", "", "", ""], ["", "", "NEU", "", "4", "d"], ["", "", "NEU", "", "5", "e"], ["", "", "NEU", "", "6", "f"]]
  {
    MultiColumnFullOffsetRow0(s);
    MultiColumnFullOffsetRow1(s);
    MultiColumnFullOffsetRow2(s);
    MultiColumnFullOffsetRow3(s);
    MultiColumnFullOffsetRow4(s);
    MultiColumnFullOffsetRow5(s);
    RowsOfSix(Rows(MultiColumnFullOffsetPrev, MultiColumnFullOffsetSub, PV, SV, s), ["1", "a", "ENTFÄLLT", "", "", ""], ["2", "b", "ENTFÄLLT", "", "", ""], ["3", "c", "ENTFÄLLT", "", "", ""], ["", "", "NEU", "", "4", "d"], ["", "", "NEU", "", "5", "e"], ["", "", "NEU", "", "6", "f"]);
  }

  lemma MultiColumnFullOffsetColumns()
    ensures OutputColumns(MultiColumnFullOffsetPrev.columns, MultiColumnFullOffsetSub.columns, PV, SV) == ["Segmentname_FV2410", "Segmentgruppe_FV2410", "Änderung", "changed_entries", "Segmentname_FV2504", "Segmentgruppe_FV2504"]
  {
    TwoColumnNamesPV();
    TwoColumnNamesSV();
  }

  /** Two columns: no key in common, so all deletions come before all insertions. */
  lemma MultiColumnFullOffset()
    ensures AlignColumns(MultiColumnFullOffsetPrev, MultiColumnFullOffsetSub, PV, SV)
         == Success(Table(["Segmentname_FV2410", "Segmentgruppe_FV2410", "Änderung", "changed_entries", "Segmentname_FV2504", "Segmentgruppe_FV2504"],
                          [["1", "a", "ENTFÄLLT", "", "", ""], ["2", "b", "ENTFÄLLT", "", "", ""], ["3", "c", "ENTFÄLLT", "", "", ""], ["", "", "NEU", "", "4", "d"], ["", "", "NEU", "", "5", "e"], ["", "", "NEU", "", "6", "f"]]))
  {
    MultiColumnFullOffsetSteps();
    SingleColumnFullOffsetStepsAt(Script(MultiColumnFullOffsetPrev, MultiColumnFullOffsetSub));
    MultiColumnFullOffsetSound();
    MultiColumnFullOffsetColumns();
    MultiColumnFullOffsetRows(Script(MultiColumnFullOffsetPrev, MultiColumnFullOffsetSub));
    MultiColumnFullOffsetKeys();
    Assembled(MultiColumnFullOffsetPrev, MultiColumnFullOffsetSub, ["Segmentname_FV2410", "Segmentgruppe_FV2410", "Änderung", "changed_entries", "Segmentname_FV2504", "Segmentgruppe_FV2504"], [["1", "a", "ENTFÄLLT", "", "", ""], ["2", "b", "ENTFÄLLT", "", "", ""], ["3", "c", "ENTFÄLLT", "", "", ""], ["", "", "NEU", "", "4", "d"], ["", "", "NEU", "", "5", "e"], ["", "", "NEU", "", "6", "f"]]);
  }

  // unittests/test_process_csv.py:349-370
  const MultiColumnDuplicatesPrev: Table := Table(["Segmentname", "Segmentgruppe"], [["1", "a"], ["2", "b"], ["2", "c"]])
  const MultiColumnDuplicatesSub: Table := Table(["Segmentname", "Segmentgruppe"], [["1", "a"], ["2", "b"], ["4", "d"]])

  lemma MultiColumnDuplicatesKeys()
    ensures WellFormed(MultiColumnDuplicatesPrev) && WellFormed(MultiColumnDuplicatesSub) && KeyField in MultiColumnDuplicatesPrev.columns && KeyField in MultiColumnDuplicatesSub.columns
    ensures KeyColumn(MultiColumnDuplicatesPrev) == ["1", "2", "2"] && KeyColumn(MultiColumnDuplicatesSub) == ["1", "2", "4"]
  {
  }

  lemma MultiColumnDuplicatesSteps()
    ensures WellFormed(MultiColumnDuplicatesPrev) && WellFormed(MultiColumnDuplicatesSub)
    ensures Script(MultiColumnDuplicatesPrev, MultiColumnDuplicatesSub) == [Match(0, 0), Match(1, 1), Delete(2), Insert(2)]
  {
    MultiColumnDuplicatesKeys();
    SingleColumnDuplicatesScript(KeyColumn(MultiColumnDuplicatesPrev), KeyColumn(MultiColumnDuplicatesSub));
  }

  lemma MultiColumnDuplicatesSound()
    ensures WellFormed(MultiColumnDuplicatesPrev) && WellFormed(MultiColumnDuplicatesSub) && SoundScript(MultiColumnDuplicatesPrev, MultiColumnDuplicatesSub, Script(MultiColumnDuplicatesPrev, MultiColumnDuplicatesSub))
  {
    MultiColumnDuplicatesKeys();
    AlignSound(KeyColumn(MultiColumnDuplicatesPrev), KeyColumn(MultiColumnDuplicatesSub));
  }

  lemma MultiColumnDuplicatesDiffer0(cols: seq<string>, p: seq<string>, s: seq<string>)
    requires cols == ["Segmentname", "Segmentgruppe"] && p == ["1", "a"] && s == ["1", "a"]
    ensures DifferingFields(["Segmentgruppe"], cols, p, cols, s) == []
  {
    TwoColumnCells(cols, p);
    TwoColumnCells(cols, s);
  }

  lemma MultiColumnDuplicatesCells0(p: Table, q: Table)
    requires p == MultiColumnDuplicatesPrev && q == MultiColumnDuplicatesSub
    ensures WellFormed(p) && WellFormed(q) && SoundStep(KeyColumn(p), KeyColumn(q), Match(0, 0))
    ensures RowOf(p, q, PV, SV, Match(0, 0)) == ["1", "a", "", "", "1", "a"]
  {
    MultiColumnDuplicatesKeys();
    TwoColumnFields(p.columns);
    MultiColumnDuplicatesDiffer0(p.columns, p.rows[0], q.rows[0]);
    var c := Classify(p.columns, p.rows[0], q.columns, q.rows[0], PV, SV);
    ClassifyEntries(p.columns, p.rows[0], q.columns, q.rows[0], PV, SV);
    SpliceTwo(p.rows[0], Label(c.0), c.1, q.rows[0]);
  }

  lemma MultiColumnDuplicatesRow0(s: seq<Step>)
    requires WellFormed(MultiColumnDuplicatesPrev) && WellFormed(MultiColumnDuplicatesSub) && SoundScript(MultiColumnDuplicatesPrev, MultiColumnDuplicatesSub, s) && |s| == 4
    requires s[0] == Match(0, 0)
    ensures Rows(MultiColumnDuplicatesPrev, MultiColumnDuplicatesSub, PV, SV, s)[0] == ["1", "a", "", "", "1", "a"]
  {
    RowsAt(MultiColumnDuplicatesPrev, MultiColumnDuplicatesSub, PV, SV, s, 0);
    MultiColumnDuplicatesCells0(MultiColumnDuplicatesPrev, MultiColumnDuplicatesSub);
  }

  lemma MultiColumnDuplicatesDiffer1(cols: seq<string>, p: seq<string>, s: seq<string>)
    requires cols == ["Segmentname", "Segmentgruppe"] && p == ["2", "b"] && s == ["2", "b"]
    ensures DifferingFields(["Segmentgruppe"], cols, p, cols, s) == []
  {
    TwoColumnCells(cols, p);
    TwoColumnCells(cols, s);
  }

  lemma MultiColumnDuplicatesCells1(p: Table, q: Table)
    requires p == MultiColumnDuplicatesPrev && q == MultiColumnDuplicatesSub
    ensures WellFormed(p) && WellFormed(q) && SoundStep(KeyColumn(p), KeyColumn(q), Match(1, 1))
    ensures RowOf(p, q, PV, SV, Match(1, 1)) == ["2", "b", "", "", "2", "b"]
  {
    MultiColumnDuplicatesKeys();
    TwoColumnFields(p.columns);
    MultiColumnDuplicatesDiffer1(p.columns, p.rows[1], q.rows[1]);
    var c := Classify(p.columns, p.rows[1], q.columns, q.rows[1], PV, SV);
    ClassifyEntries(p.columns, p.rows[1], q.columns, q.rows[1], PV, SV);
    SpliceTwo(p.rows[1], Label(c.0), c.1, q.rows[1]);
  }

  lemma MultiColumnDuplicatesRow1(s: seq<Step>)
    requires WellFormed(MultiColumnDuplicatesPrev) && WellFormed(MultiColumnDuplicatesSub) && SoundScript(MultiColumnDuplicatesPrev, MultiColumnDuplicatesSub, s) && |s| == 4
    requires s[1] == Match(1, 1)
    ensures Rows(MultiColumnDuplicatesPrev, MultiColumnDuplicatesSub, PV, SV, s)[1] == ["2", "b", "", "", "2", "b"]
  {
    RowsAt(MultiColumnDuplicatesPrev, MultiColumnDuplicatesSub, PV, SV, s, 1);
    MultiColumnDuplicatesCells1(MultiColumnDuplicatesPrev, MultiColumnDuplicatesSub);
  }

  lemma MultiColumnDuplicatesCells2(p: Table, q: Table)
    requires p == MultiColumnDuplicatesPrev && q == MultiColumnDuplicatesSub
    ensures WellFormed(p) && WellFormed(q) && SoundStep(KeyColumn(p), KeyColumn(q), Delete(2))
    ensures RowOf(p, q, PV, SV, Delete(2)) == ["2", "c", "ENTFÄLLT", "", "", ""]
  {
    MultiColumnDuplicatesKeys();
  }

  lemma MultiColumnDuplicatesRow2(s: seq<Step>)
    requires WellFormed(MultiColumnDuplicatesPrev) && WellFormed(MultiColumnDuplicatesSub) && SoundScript(MultiColumnDuplicatesPrev, MultiColumnDuplicatesSub, s) && |s| == 4
    requires s[2] == Delete(2)
    ensures Rows(MultiColumnDuplicatesPrev, MultiColumnDuplicatesSub, PV, SV, s)[2] == ["2", "c", "ENTFÄLLT", "", "", ""]
  {
    RowsAt(MultiColumnDuplicatesPrev, MultiColumnDuplicatesSub, PV, SV, s, 2);
    MultiColumnDuplicatesCells2(MultiColumnDuplicatesPrev, MultiColumnDuplicatesSub);
  }

  lemma MultiColumnDuplicatesCells3(p: Table, q: Table)
    requires p == MultiColumnDuplicatesPrev && q == MultiColumnDuplicatesSub
    ensures WellFormed(p) && WellFormed(q) && SoundStep(KeyColumn(p), KeyColumn(q), Insert(2))
    ensures RowOf(p, q, PV, SV, Insert(2)) == ["", "", "NEU", "", "4", "d"]
  {
    MultiColumnDuplicatesKeys();
  }

  lemma MultiColumnDuplicatesRow3(s: seq<Step>)
    requires WellFormed(MultiColumnDuplicatesPrev) && WellFormed(MultiColumnDuplicatesSub) && SoundScript(MultiColumnDuplicatesPrev, MultiColumnDuplicatesSub, s) && |s| == 4
    requires s[3] == Insert(2)
    ensures Rows(MultiColumnDuplicatesPrev, MultiColumnDuplicatesSub, PV, SV, s)[3] == ["", "", "NEU", "", "4", "d"]
  {
    RowsAt(MultiColumnDuplicatesPrev, MultiColumnDuplicatesSub, PV, SV, s, 3);
    MultiColumnDuplicatesCells3(MultiColumnDuplicatesPrev, MultiColumnDuplicatesSub);
  }

  lemma MultiColumnDuplicatesRows(s: seq<Step>)
    requires WellFormed(MultiColumnDuplicatesPrev) && WellFormed(MultiColumnDuplicatesSub) && SoundScript(MultiColumnDuplicatesPrev, MultiColumnDuplicatesSub, s) && |s| == 4
    requires s[0] == Match(0, 0)
    requires s[1] == Match(1, 1)
    requires s[2] == Delete(2)
    requires s[3] == Insert(2)
    ensures Rows(MultiColumnDuplicatesPrev, MultiColumnDuplicatesSub, PV, SV, s) == [["1", "a", "", "", "1", "a"], ["2", "b", "", "", "2", "b"], ["2", "c", "ENTFÄLLT", "", "", ""], ["", "", "NEU", "", "4", "d"]]
  {
    MultiColumnDuplicatesRow0(s);
    MultiColumnDuplicatesRow1(s);
    MultiColumnDuplicatesRow2(s);
    MultiColumnDuplicatesRow3(s);
    RowsOfFour(Rows(MultiColumnDuplicatesPrev, MultiColumnDuplicatesSub, PV, SV, s), ["1", "a", "", "", "1", "a"], ["2", "b", "", "", "2", "b"], ["2", "c", "ENTFÄLLT", "", "", ""], ["", "", "NEU", "", "4", "d"]);
  }

  lemma MultiColumnDuplicatesColumns()
    ensures OutputColumns(MultiColumnDuplicatesPrev.columns, MultiColumnDuplicatesSub.columns, PV, SV) == ["Segmentname_FV2410", "Segmentgruppe_FV2410", "Änderung", "changed_entries", "Segmentname_FV2504", "Segmentgruppe_FV2504"]
  {
    TwoColumnNamesPV();
    TwoColumnNamesSV();
  }

  /** Two columns: of two equal keys the earlier one is matched. */
  lemma MultiColumnDuplicates()
    ensures AlignColumns(MultiColumnDuplicatesPrev, MultiColumnDuplicatesSub, PV, SV)
         == Success(Table(["Segmentname_FV2410", "Segmentgruppe_FV2410", "Änderung", "changed_entries", "Segmentname_FV2504", "Segmentgruppe_FV2504"],
                          [["1", "a", "", "", "1", "a"], ["2", "b", "", "", "2", "b"], ["2", "c", "ENTFÄLLT", "", "", ""], ["", "", "NEU", "", "4", "d"]]))
  {
    MultiColumnDuplicatesSteps();
    SingleColumnDuplicatesStepsAt(Script(MultiColumnDuplicatesPrev, MultiColumnDuplicatesSub));
    MultiColumnDuplicatesSound();
    MultiColumnDuplicatesColumns();
    MultiColumnDuplicatesRows(Script(MultiColumnDuplicatesPrev, MultiColumnDuplicatesSub));
    MultiColumnDuplicatesKeys();
    Assembled(MultiColumnDuplicatesPrev, MultiColumnDuplicatesSub, ["Segmentname_FV2410", "Segmentgruppe_FV2410", "Änderung", "changed_entries", "Segmentname_FV2504", "Segmentgruppe_FV2504"], [["1", "a", "", "", "1", "a"], ["2", "b", "", "", "2", "b"], ["2", "c", "ENTFÄLLT", "", "", ""], ["", "", "NEU", "", "4", "d"]]);
  }

  // unittests/test_process_csv.py:372-397
  const MultiColumnRepeatingPrev: Table := Table(["Segmentname", "Segmentgruppe"], [["1", "a"], ["2", "b"], ["3", "c"], ["3", "d"], ["2", "e"]])
  const MultiColumnRepeatingSub: Table := Table(["Segmentname", "Segmentgruppe"], [["1", "a"], ["2", "b"], ["3", "c"], ["4", "d"]])

  lemma MultiColumnRepeatingKeys()
    ensures WellFormed(MultiColumnRepeatingPrev) && WellFormed(MultiColumnRepeatingSub) && KeyField in MultiColumnRepeatingPrev.columns && KeyField in MultiColumnRepeatingSub.columns
    ensures KeyColumn(MultiColumnRepeatingPrev) == ["1", "2", "3", "3", "2"] && KeyColumn(MultiColumnRepeatingSub) == ["1", "2", "3", "4"]
  {
  }

  lemma MultiColumnRepeatingSteps()
    ensures WellFormed(MultiColumnRepeatingPrev) && WellFormed(MultiColumnRepeatingSub)
    ensures Script(MultiColumnRepeatingPrev, MultiColumnRepeatingSub) == [Match(0, 0), Match(1, 1), Match(2, 2), Delete(3), Delete(4), Insert(3)]
  {
    MultiColumnRepeatingKeys();
    SingleColumnRepeatingScript(KeyColumn(MultiColumnRepeatingPrev), KeyColumn(MultiColumnRepeatingSub));
  }

  lemma MultiColumnRepeatingSound()
    ensures WellFormed(MultiColumnRepeatingPrev) && WellFormed(MultiColumnRepeatingSub) && SoundScript(MultiColumnRepeatingPrev, MultiColumnRepeatingSub, Script(MultiColumnRepeatingPrev, MultiColumnRepeatingSub))
  {
    MultiColumnRepeatingKeys();
    AlignSound(KeyColumn(MultiColumnRepeatingPrev), KeyColumn(MultiColumnRepeatingSub));
  }

  lemma MultiColumnRepeatingDiffer0(cols: seq<string>, p: seq<string>, s: seq<string>)
    requires cols == ["Segmentname", "Segmentgruppe"] && p == ["1", "a"] && s == ["1", "a"]
    ensures DifferingFields(["Segmentgruppe"], cols, p, cols, s) == []
  {
    TwoColumnCells(cols, p);
    TwoColumnCells(cols, s);
  }

  lemma MultiColumnRepeatingCells0(p: Table, q: Table)
    requires p == MultiColumnRepeatingPrev && q == MultiColumnRepeatingSub
    ensures WellFormed(p) && WellFormed(q) && SoundStep(KeyColumn(p), KeyColumn(q), Match(0, 0))
    ensures RowOf(p, q, PV, SV, Match(0, 0)) == ["1", "a", "", "", "1", "a"]
  {
    MultiColumnRepeatingKeys();
    TwoColumnFields(p.columns);
    MultiColumnRepeatingDiffer0(p.columns, p.rows[0], q.rows[0]);
    var c := Classify(p.columns, p.rows[0], q.columns, q.rows[0], PV, SV);
    ClassifyEntries(p.columns, p.rows[0], q.columns, q.rows[0], PV, SV);
    SpliceTwo(p.rows[0], Label(c.0), c.1, q.rows[0]);
  }

  lemma MultiColumnRepeatingRow0(s: seq<Step>)
    requires WellFormed(MultiColumnRepeatingPrev) && WellFormed(MultiColumnRepeatingSub) && SoundScript(MultiColumnRepeatingPrev, MultiColumnRepeatingSub, s) && |s| == 6
    requires s[0] == Match(0, 0)
    ensures Rows(MultiColumnRepeatingPrev, MultiColumnRepeatingSub, PV, SV, s)[0] == ["1", "a", "", "", "1", "a"]
  {
    RowsAt(MultiColumnRepeatingPrev, MultiColumnRepeatingSub, PV, SV, s, 0);
    MultiColumnRepeatingCells0(MultiColumnRepeatingPrev, MultiColumnRepeatingSub);
  }

  lemma MultiColumnRepeatingDiffer1(cols: seq<string>, p: seq<string>, s: seq<string>)
    requires cols == ["Segmentname", "Segmentgruppe"] && p == ["2", "b"] && s == ["2", "b"]
    ensures DifferingFields(["Segmentgruppe"], cols, p, cols, s) == []
  {
    TwoColumnCells(cols, p);
    TwoColumnCells(cols, s);
  }

  lemma MultiColumnRepeatingCells1(p: Table, q: Table)
    requires p == MultiColumnRepeatingPrev && q == MultiColumnRepeatingSub
    ensures WellFormed(p) && WellFormed(q) && SoundStep(KeyColumn(p), KeyColumn(q), Match(1, 1))
    ensures RowOf(p, q, PV, SV, Match(1, 1)) == ["2", "b", "", "", "2", "b"]
  {
    MultiColumnRepeatingKeys();
    TwoColumnFields(p.columns);
    MultiColumnRepeatingDiffer1(p.columns, p.rows[1], q.rows[1]);
    var c := Classify(p.columns, p.rows[1], q.columns, q.rows[1], PV, SV);
    ClassifyEntries(p.columns, p.rows[1], q.columns, q.rows[1], PV, SV);
    SpliceTwo(p.rows[1], Label(c.0), c.1, q.rows[1]);
  }

  lemma MultiColumnRepeatingRow1(s: seq<Step>)
    requires WellFormed(MultiColumnRepeatingPrev) && WellFormed(MultiColumnRepeatingSub) && SoundScript(MultiColumnRepeatingPrev, MultiColumnRepeatingSub, s) && |s| == 6
    requires s[1] == Match(1, 1)
    ensures Rows(MultiColumnRepeatingPrev, MultiColumnRepeatingSub, PV, SV, s)[1] == ["2", "b", "", "", "2", "b"]
  {
    RowsAt(MultiColumnRepeatingPrev, MultiColumnRepeatingSub, PV, SV, s, 1);
    MultiColumnRepeatingCells1(MultiColumnRepeatingPrev, MultiColumnRepeatingSub);
  }

  lemma MultiColumnRepeatingDiffer2(cols: seq<string>, p: seq<string>, s: seq<string>)
    requires cols == ["Segmentname", "Segmentgruppe"] && p == ["3", "c"] && s == ["3", "c"]
    ensures DifferingFields(["Segmentgruppe"], cols, p, cols, s) == []
  {
    TwoColumnCells(cols, p);
    TwoColumnCells(cols, s);
  }

  lemma MultiColumnRepeatingCells2(p: Table, q: Table)
    requires p == MultiColumnRepeatingPrev && q == MultiColumnRepeatingSub
    ensures WellFormed(p) && WellFormed(q) && SoundStep(KeyColumn(p), KeyColumn(q), Match(2, 2))
    ensures RowOf(p, q, PV, SV, Match(2, 2)) == ["3", "c", "", "", "3", "c"]
  {
    MultiColumnRepeatingKeys();
    TwoColumnFields(p.columns);
    MultiColumnRepeatingDiffer2(p.columns, p.rows[2], q.rows[2]);
    var c := Classify(p.columns, p.rows[2], q.columns, q.rows[2], PV, SV);
    ClassifyEntries(p.columns, p.rows[2], q.columns, q.rows[2], PV, SV);
    SpliceTwo(p.rows[2], Label(c.0), c.1, q.rows[2]);
  }

  lemma MultiColumnRepeatingRow2(s: seq<Step>)
    requires WellFormed(MultiColumnRepeatingPrev) && WellFormed(MultiColumnRepeatingSub) && SoundScript(MultiColumnRepeatingPrev, MultiColumnRepeatingSub, s) && |s| == 6
    requires s[2] == Match(2, 2)
    ensures Rows(MultiColumnRepeatingPrev, MultiColumnRepeatingSub, PV, SV, s)[2] == ["3", "c", "", "", "3", "c"]
  {
    RowsAt(MultiColumnRepeatingPrev, MultiColumnRepeatingSub, PV, SV, s, 2);
    MultiColumnRepeatingCells2(MultiColumnRepeatingPrev, MultiColumnRepeatingSub);
  }

  lemma MultiColumnRepeatingCells3(p: Table, q: Table)
    requires p == MultiColumnRepeatingPrev && q == MultiColumnRepeatingSub
    ensures WellFormed(p) && WellFormed(q) && SoundStep(KeyColumn(p), KeyColumn(q), Delete(3))
    ensures RowOf(p, q, PV, SV, Delete(3)) == ["3", "d", "ENTFÄLLT", "", "", ""]
  {
    MultiColumnRepeatingKeys();
  }

  lemma MultiColumnRepeatingRow3(s: seq<Step>)
    requires WellFormed(MultiColumnRepeatingPrev) && WellFormed(MultiColumnRepeatingSub) && SoundScript(MultiColumnRepeatingPrev, MultiColumnRepeatingSub, s) && |s| == 6
    requires s[3] == Delete(3)
    ensures Rows(MultiColumnRepeatingPrev, MultiColumnRepeatingSub, PV, SV, s)[3] == ["3", "d", "ENTFÄLLT", "", "", ""]
  {
    RowsAt(MultiColumnRepeatingPrev, MultiColumnRepeatingSub, PV, SV, s, 3);
    MultiColumnRepeatingCells3(MultiColumnRepeatingPrev, MultiColumnRepeatingSub);
  }

  lemma MultiColumnRepeatingCells4(p: Table, q: Table)
    requires p == MultiColumnRepeatingPrev && q == MultiColumnRepeatingSub
    ensures WellFormed(p) && WellFormed(q) && SoundStep(KeyColumn(p), KeyColumn(q), Delete(4))
    ensures RowOf(p, q, PV, SV, Delete(4)) == ["2", "e", "ENTFÄLLT", "", "", ""]
  {
    MultiColumnRepeatingKeys();
  }

  lemma MultiColumnRepeatingRow4(s: seq<Step>)
    requires WellFormed(MultiColumnRepeatingPrev) && WellFormed(MultiColumnRepeatingSub) && SoundScript(MultiColumnRepeatingPrev, MultiColumnRepeatingSub, s) && |s| == 6
    requires s[4] == Delete(4)
    ensures Rows(MultiColumnRepeatingPrev, MultiColumnRepeatingSub, PV, SV, s)[4] == ["2", "e", "ENTFÄLLT", "", "", ""]
  {
    RowsAt(MultiColumnRepeatingPrev, MultiColumnRepeatingSub, PV, SV, s, 4);
    MultiColumnRepeatingCells4(MultiColumnRepeatingPrev, MultiColumnRepeatingSub);
  }

  lemma MultiColumnRepeatingCells5(p: Table, q: Table)
    requires p == MultiColumnRepeatingPrev && q == MultiColumnRepeatingSub
    ensures WellFormed(p) && WellFormed(q) && SoundStep(KeyColumn(p), KeyColumn(q), Insert(3))
    ensures RowOf(p, q, PV, SV, Insert(3)) == ["", "", "NEU", "", "4", "d"]
  {
    MultiColumnRepeatingKeys();
  }

  lemma MultiColumnRepeatingRow5(s: seq<Step>)
    requires WellFormed(MultiColumnRepeatingPrev) && WellFormed(MultiColumnRepeatingSub) && SoundScript(MultiColumnRepeatingPrev, MultiColumnRepeatingSub, s) && |s| == 6
    requires s[5] == Insert(3)
    ensures Rows(MultiColumnRepeatingPrev, MultiColumnRepeatingSub, PV, SV, s)[5] == ["", "", "NEU", "", "4", "d"]
  {
    RowsAt(MultiColumnRepeatingPrev, MultiColumnRepeatingSub, PV, SV, s, 5);
    MultiColumnRepeatingCells5(MultiColumnRepeatingPrev, MultiColumnRepeatingSub);
  }

  lemma MultiColumnRepeatingRows(s: seq<Step>)
    requires WellFormed(MultiColumnRepeatingPrev) && WellFormed(MultiColumnRepeatingSub) && SoundScript(MultiColumnRepeatingPrev, MultiColumnRepeatingSub, s) && |s| == 6
    requires s[0] == Match(0, 0)
    requires s[1] == Match(1, 1)
    requires s[2] == Match(2, 2)
    requires s[3] == Delete(3)
    requires s[4] == Delete(4)
    requires s[5] == Insert(3)
    ensures Rows(MultiColumnRepeatingPrev, MultiColumnRepeatingSub, PV, SV, s) == [["1", "a", "", "", "1", "a"], ["2", "b", "", "", "2", "b"], ["3", "c", "", "", "3", "c"], ["3", "d", "ENTFÄLLT", "", "", ""], ["2", "e", "ENTFÄLLT", "", "", ""], ["", "", "NEU", "", "4", "d"]]
  {
    MultiColumnRepeatingRow0(s);
    MultiColumnRepeatingRow1(s);
    MultiColumnRepeatingRow2(s);
    MultiColumnRepeatingRow3(s);
    MultiColumnRepeatingRow4(s);
    MultiColumnRepeatingRow5(s);
    RowsOfSix(Rows(MultiColumnRepeatingPrev, MultiColumnRepeatingSub, PV, SV, s), ["1", "a", "", "", "1", "a"], ["2", "b", "", "", "2", "b"], ["3", "c", "", "", "3", "c"], ["3", "d", "ENTFÄLLT", "", "", ""], ["2", "e", "ENTFÄLLT", "", "", ""], ["", "", "NEU", "", "4", "d"]);
  }

  lemma MultiColumnRepeatingColumns()
    ensures OutputColumns(MultiColumnRepeatingPrev.columns, MultiColumnRepeatingSub.columns, PV, SV) == ["Segmentname_FV2410", "Segmentgruppe_FV2410", "Änderung", "changed_entries", "Segmentname_FV2504", "Segmentgruppe_FV2504"]
  {
    TwoColumnNamesPV();
    TwoColumnNamesSV();
  }

  /** Two columns: repeated keys after the common prefix are deleted before the new key is inserted. */
  lemma MultiColumnRepeating()
    ensures AlignColumns(MultiColumnRepeatingPrev, MultiColumnRepeatingSub, PV, SV)
         == Success(Table(["Segmentname_FV2410", "Segmentgruppe_FV2410", "Änderung", "changed_entries", "Segmentname_FV2504", "Segmentgruppe_FV2504"],
                          [["1", "a", "", "", "1", "a"], ["2", "b", "", "", "2", "b"], ["3", "c", "", "", "3", "c"], ["3", "d", "ENTFÄLLT", "", "", ""], ["2", "e", "ENTFÄLLT", "", "", ""], ["", "", "NEU", "", "4", "d"]]))
  {
    MultiColumnRepeatingSteps();
    SingleColumnRepeatingStepsAt(Script(MultiColumnRepeatingPrev, MultiColumnRepeatingSub));
    MultiColumnRepeatingSound();
    MultiColumnRepeatingColumns();
    MultiColumnRepeatingRows(Script(MultiColumnRepeatingPrev, MultiColumnRepeatingSub));
    MultiColumnRepeatingKeys();
    Assembled(MultiColumnRepeatingPrev, MultiColumnRepeatingSub, ["Segmentname_FV2410", "Segmentgruppe_FV2410", "Änderung", "changed_entries", "Segmentname_FV2504", "Segmentgruppe_FV2504"], [["1", "a", "", "", "1", "a"], ["2", "b", "", "", "2", "b"], ["3", "c", "", "", "3", "c"], ["3", "d", "ENTFÄLLT", "", "", ""], ["2", "e", "ENTFÄLLT", "", "", ""], ["", "", "NEU", "", "4", "d"]]);
  }

  /** The key columns of FourColumns. */
  predicate FourColumnsKeyColumns(a: seq<Key>, b: seq<Key>)
  {
    a == ["1", "2"] && b == ["2", "3"]
  }

  lemma FourColumnsMatching1x0(a: seq<Key>, b: seq<Key>)
    requires FourColumnsKeyColumns(a, b)
    ensures Matching(a, b, 1, 0) == [(1, 0)]
  {
    MatchingHead(a, b, 1, 0);
  }

  lemma FourColumnsMatching0x0(a: seq<Key>, b: seq<Key>)
    requires FourColumnsKeyColumns(a, b)
    ensures Matching(a, b, 0, 0) == [(1, 0)]
  {
    FourColumnsMatching1x0(a, b);
    MatchingSkipPrev(a, b, 0, 0);
  }

  lemma FourColumnsWalk2x1(ms: seq<Pair>)
    requires ms == []
    ensures InWindow(ms, 2, 1, 2, 2)
    ensures Linearize(ms, 2, 1, 2, 2) == [Insert(1)]
  {
  }

  lemma FourColumnsWalk1x0(ms: seq<Pair>)
    requires ms == [(1, 0)]
    ensures InWindow(ms, 1, 0, 2, 2)
    ensures Linearize(ms, 1, 0, 2, 2) == [Match(1, 0), Insert(1)]
  {
    FourColumnsWalk2x1(ms[1..]);
  }

  lemma FourColumnsWalk0x0(ms: seq<Pair>)
    requires ms == [(1, 0)]
    ensures InWindow(ms, 0, 0, 2, 2)
    ensures Linearize(ms, 0, 0, 2, 2) == [Delete(0), Match(1, 0), Insert(1)]
  {
    FourColumnsWalk1x0(ms);
  }

  /** The alignment of the key columns of FourColumns. */
  lemma FourColumnsScript(a: seq<Key>, b: seq<Key>)
    requires FourColumnsKeyColumns(a, b)
    ensures Align(a, b) == [Delete(0), Match(1, 0), Insert(1)]
  {
    FourColumnsMatching0x0(a, b);
    MatchingIsLongest(a, b, 0, 0);
    CommonInWindow(a, b, Matching(a, b, 0, 0), 0, 0);
    FourColumnsWalk0x0(Matching(a, b, 0, 0));
  }

  lemma FourColumnsStepsAt(s: seq<Step>)
    requires s == [Delete(0), Match(1, 0), Insert(1)]
    ensures |s| == 3
    ensures s[0] == Delete(0)
    ensures s[1] == Match(1, 0)
    ensures s[2] == Insert(1)
  {
  }

  // unittests/test_process_csv.py:399-442
  const FourColumnsPrev: Table := Table(["Segmentname", "Segmentgruppe", "Datenelement", "Qualifier"], [["1", "a", "x", "XY"], ["2", "b", "y", "YZ"]])
  const FourColumnsSub: Table := Table(["Segmentname", "Segmentgruppe", "Datenelement", "Qualifier"], [["2", "b", "m", "XY"], ["3", "c", "n", ""]])

  lemma FourColumnsKeys()
    ensures WellFormed(FourColumnsPrev) && WellFormed(FourColumnsSub) && KeyField in FourColumnsPrev.columns && KeyField in FourColumnsSub.columns
    ensures KeyColumn(FourColumnsPrev) == ["1", "2"] && KeyColumn(FourColumnsSub) == ["2", "3"]
  {
  }

  lemma FourColumnsSteps()
    ensures WellFormed(FourColumnsPrev) && WellFormed(FourColumnsSub)
    ensures Script(FourColumnsPrev, FourColumnsSub) == [Delete(0), Match(1, 0), Insert(1)]
  {
    FourColumnsKeys();
    FourColumnsScript(KeyColumn(FourColumnsPrev), KeyColumn(FourColumnsSub));
  }

  lemma FourColumnsSound()
    ensures WellFormed(FourColumnsPrev) && WellFormed(FourColumnsSub) && SoundScript(FourColumnsPrev, FourColumnsSub, Script(FourColumnsPrev, FourColumnsSub))
  {
    FourColumnsKeys();
    AlignSound(KeyColumn(FourColumnsPrev), KeyColumn(FourColumnsSub));
  }

  /** The fields two tables with columns ["Segmentname", "Segmentgruppe", "Datenelement", "Qualifier"] are compared on. */
  lemma FourColumnFields(cols: seq<string>)
    requires cols == ["Segmentname", "Segmentgruppe", "Datenelement", "Qualifier"]
    ensures CompareFields(cols, cols) == ["Segmentgruppe", "Datenelement", "Qualifier"]
  {
    SharedSchemaFields(cols);
    assert Without(cols[3..], KeyField) == ["Qualifier"];
    assert Without(cols[2..], KeyField) == ["Datenelement", "Qualifier"];
    assert Without(cols[1..], KeyField) == ["Segmentgruppe", "Datenelement", "Qualifier"];
  }

  /** A comparison row of width 10, cell by cell. */
  lemma SpliceFour(a: seq<string>, x: string, y: string, b: seq<string>)
    requires |a| == 4 && |b| == 4
    ensures a + [x, y] + b == [a[0], a[1], a[2], a[3], x, y, b[0], b[1], b[2], b[3]]
  {
  }

  lemma FourColumnsCells0(p: Table, q: Table)
    requires p == FourColumnsPrev && q == FourColumnsSub
    ensures WellFormed(p) && WellFormed(q) && SoundStep(KeyColumn(p), KeyColumn(q), Delete(0))
    ensures RowOf(p, q, PV, SV, Delete(0)) == ["1", "a", "x", "XY", "ENTFÄLLT", "", "", "", "", ""]
  {
    FourColumnsKeys();
  }

  lemma FourColumnsRow0(s: seq<Step>)
    requires WellFormed(FourColumnsPrev) && WellFormed(FourColumnsSub) && SoundScript(FourColumnsPrev, FourColumnsSub, s) && |s| == 3
    requires s[0] == Delete(0)
    ensures Rows(FourColumnsPrev, FourColumnsSub, PV, SV, s)[0] == ["1", "a", "x", "XY", "ENTFÄLLT", "", "", "", "", ""]
  {
    RowsAt(FourColumnsPrev, FourColumnsSub, PV, SV, s, 0);
    FourColumnsCells0(FourColumnsPrev, FourColumnsSub);
  }

  /** The fields of a row with columns ["Segmentname", "Segmentgruppe", "Datenelement", "Qualifier"], by name. */
  lemma FourColumnCells(cols: seq<string>, row: seq<string>)
    requires cols == ["Segmentname", "Segmentgruppe", "Datenelement", "Qualifier"] && |row| == |cols|
    ensures Cell(cols, row, "Segmentgruppe") == row[1]
    ensures Cell(cols, row, "Datenelement") == row[2]
    ensures Cell(cols, row, "Qualifier") == row[3]
  {
    assert IndexOf(cols, "Segmentgruppe") == 1;
    assert IndexOf(cols, "Datenelement") == 2;
    assert IndexOf(cols, "Qualifier") == 3;
  }

  lemma FourColumnsDiffer1(cols: seq<string>, p: seq<string>, s: seq<string>)
    requires cols == ["Segmentname", "Segmentgruppe", "Datenelement", "Qualifier"] && p == ["2", "b", "y", "YZ"] && s == ["2", "b", "m", "XY"]
    ensures DifferingFields(["Segmentgruppe", "Datenelement", "Qualifier"], cols, p, cols, s) == ["Datenelement", "Qualifier"]
  {
    FourColumnCells(cols, p);
    FourColumnCells(cols, s);
    assert DifferingFields(["Qualifier"], cols, p, cols, s) == ["Qualifier"];
    assert DifferingFields(["Datenelement", "Qualifier"], cols, p, cols, s) == ["Datenelement", "Qualifier"];
  }

  lemma FourColumnsCells1(p: Table, q: Table)
    requires p == FourColumnsPrev && q == FourColumnsSub
    ensures WellFormed(p) && WellFormed(q) && SoundStep(KeyColumn(p), KeyColumn(q), Match(1, 0))
    ensures RowOf(p, q, PV, SV, Match(1, 0)) == ["2", "b", "y", "YZ", "ÄNDERUNG", Join(["Datenelement_FV2410", "Datenelement_FV2504", "Qualifier_FV2410", "Qualifier_FV2504"]), "2", "b", "m", "XY"]
  {
    FourColumnsKeys();
    FourColumnFields(p.columns);
    FourColumnsDiffer1(p.columns, p.rows[1], q.rows[0]);
    var c := Classify(p.columns, p.rows[1], q.columns, q.rows[0], PV, SV);
    ClassifyEntries(p.columns, p.rows[1], q.columns, q.rows[0], PV, SV);
    DataQualifierEntries();
    SpliceFour(p.rows[1], Label(c.0), c.1, q.rows[0]);
  }

  lemma FourColumnsRow1(s: seq<Step>)
    requires WellFormed(FourColumnsPrev) && WellFormed(FourColumnsSub) && SoundScript(FourColumnsPrev, FourColumnsSub, s) && |s| == 3
    requires s[1] == Match(1, 0)
    ensures Rows(FourColumnsPrev, FourColumnsSub, PV, SV, s)[1] == ["2", "b", "y", "YZ", "ÄNDERUNG", Join(["Datenelement_FV2410", "Datenelement_FV2504", "Qualifier_FV2410", "Qualifier_FV2504"]), "2", "b", "m", "XY"]
  {
    RowsAt(FourColumnsPrev, FourColumnsSub, PV, SV, s, 1);
    FourColumnsCells1(FourColumnsPrev, FourColumnsSub);
  }

  lemma FourColumnsCells2(p: Table, q: Table)
    requires p == FourColumnsPrev && q == FourColumnsSub
    ensures WellFormed(p) && WellFormed(q) && SoundStep(KeyColumn(p), KeyColumn(q), Insert(1))
    ensures RowOf(p, q, PV, SV, Insert(1)) == ["", "", "", "", "NEU", "", "3", "c", "n", ""]
  {
    FourColumnsKeys();
  }

  lemma FourColumnsRow2(s: seq<Step>)
    requires WellFormed(FourColumnsPrev) && WellFormed(FourColumnsSub) && SoundScript(FourColumnsPrev, FourColumnsSub, s) && |s| == 3
    requires s[2] == Insert(1)
    ensures Rows(FourColumnsPrev, FourColumnsSub, PV, SV, s)[2] == ["", "", "", "", "NEU", "", "3", "c", "n", ""]
  {
    RowsAt(FourColumnsPrev, FourColumnsSub, PV, SV, s, 2);
    FourColumnsCells2(FourColumnsPrev, FourColumnsSub);
  }

  lemma FourColumnsRows(s: seq<Step>)
    requires WellFormed(FourColumnsPrev) && WellFormed(FourColumnsSub) && SoundScript(FourColumnsPrev, FourColumnsSub, s) && |s| == 3
    requires s[0] == Delete(0)
    requires s[1] == Match(1, 0)
    requires s[2] == Insert(1)
    ensures Rows(FourColumnsPrev, FourColumnsSub, PV, SV, s) == [["1", "a", "x", "XY", "ENTFÄLLT", "", "", "", "", ""], ["2", "b", "y", "YZ", "ÄNDERUNG", Join(["Datenelement_FV2410", "Datenelement_FV2504", "Qualifier_FV2410", "Qualifier_FV2504"]), "2", "b", "m", "XY"], ["", "", "", "", "NEU", "", "3", "c", "n", ""]]
  {
    FourColumnsRow0(s);
    FourColumnsRow1(s);
    FourColumnsRow2(s);
    RowsOfThree(Rows(FourColumnsPrev, FourColumnsSub, PV, SV, s), ["1", "a", "x", "XY", "ENTFÄLLT", "", "", "", "", ""], ["2", "b", "y", "YZ", "ÄNDERUNG", Join(["Datenelement_FV2410", "Datenelement_FV2504", "Qualifier_FV2410", "Qualifier_FV2504"]), "2", "b", "m", "XY"], ["", "", "", "", "NEU", "", "3", "c", "n", ""]);
  }

  /** The column names ["Segmentname", "Segmentgruppe", "Datenelement", "Qualifier"] suffixed with PV. */
  lemma FourColumnNamesPV()
    ensures Suffixed(["Segmentname", "Segmentgruppe", "Datenelement", "Qualifier"], PV) == ["Segmentname_FV2410", "Segmentgruppe_FV2410", "Datenelement_FV2410", "Qualifier_FV2410"]
  {
    assert "Segmentname" + "_" + PV == "Segmentname_FV2410";
    assert "Segmentgruppe" + "_" + PV == "Segmentgruppe_FV2410";
    assert "Datenelement" + "_" + PV == "Datenelement_FV2410";
    assert "Qualifier" + "_" + PV == "Qualifier_FV2410";
  }

  /** The column names ["Segmentname", "Segmentgruppe", "Datenelement", "Qualifier"] suffixed with SV. */
  lemma FourColumnNamesSV()
    ensures Suffixed(["Segmentname", "Segmentgruppe", "Datenelement", "Qualifier"], SV) == ["Segmentname_FV2504", "Segmentgruppe_FV2504", "Datenelement_FV2504", "Qualifier_FV2504"]
  {
    assert "Segmentname" + "_" + SV == "Segmentname_FV2504";
    assert "Segmentgruppe" + "_" + SV == "Segmentgruppe_FV2504";
    assert "Datenelement" + "_" + SV == "Datenelement_FV2504";
    assert "Qualifier" + "_" + SV == "Qualifier_FV2504";
  }

  lemma FourColumnsColumns()
    ensures OutputColumns(FourColumnsPrev.columns, FourColumnsSub.columns, PV, SV) == ["Segmentname_FV2410", "Segmentgruppe_FV2410", "Datenelement_FV2410", "Qualifier_FV2410", "Änderung", "changed_entries", "Segmentname_FV2504", "Segmentgruppe_FV2504", "Datenelement_FV2504", "Qualifier_FV2504"]
  {
    FourColumnNamesPV();
    FourColumnNamesSV();
  }

  /** Four columns: the matched row lists each of its two differing fields, in column order. */
  lemma FourColumns()
    ensures AlignColumns(FourColumnsPrev, FourColumnsSub, PV, SV)
         == Success(Table(["Segmentname_FV2410", "Segmentgruppe_FV2410", "Datenelement_FV2410", "Qualifier_FV2410", "Änderung", "changed_entries", "Segmentname_FV2504", "Segmentgruppe_FV2504", "Datenelement_FV2504", "Qualifier_FV2504"],
                          [["1", "a", "x", "XY", "ENTFÄLLT", "", "", "", "", ""], ["2", "b", "y", "YZ", "ÄNDERUNG", Join(["Datenelement_FV2410", "Datenelement_FV2504", "Qualifier_FV2410", "Qualifier_FV2504"]), "2", "b", "m", "XY"], ["", "", "", "", "NEU", "", "3", "c", "n", ""]]))
  {
    FourColumnsSteps();
    FourColumnsStepsAt(Script(FourColumnsPrev, FourColumnsSub));
    FourColumnsSound();
    FourColumnsColumns();
    FourColumnsRows(Script(FourColumnsPrev, FourColumnsSub));
    FourColumnsKeys();
    Assembled(FourColumnsPrev, FourColumnsSub, ["Segmentname_FV2410", "Segmentgruppe_FV2410", "Datenelement_FV2410", "Qualifier_FV2410", "Änderung", "changed_entries", "Segmentname_FV2504", "Segmentgruppe_FV2504", "Datenelement_FV2504", "Qualifier_FV2504"], [["1", "a", "x", "XY", "ENTFÄLLT", "", "", "", "", ""], ["2", "b", "y", "YZ", "ÄNDERUNG", Join(["Datenelement_FV2410", "Datenelement_FV2504", "Qualifier_FV2410", "Qualifier_FV2504"]), "2", "b", "m", "XY"], ["", "", "", "", "NEU", "", "3", "c", "n", ""]]);
  }
}
