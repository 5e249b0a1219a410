/**
 * align_columns: aligns the rows of a previous and a subsequent table on their
 * key column and lays the result out as one comparison table. Its columns are
 * the previous columns (suffixed with the previous version label), the status
 * column, the changed_entries column and the subsequent columns (suffixed
 * with the subsequent version label). A side a row does not have is blank.
 */
module Assembler {
  import opened Alignment
  import opened Classifier

  /** A table: column names and rows of cell values. */
  datatype Table = Table(columns: seq<string>, rows: seq<seq<string>>)

  /** Every row has one cell per column. */
  predicate Rectangular(t: Table)
  {
    forall k :: 0 <= k < |t.rows| ==> |t.rows[k]| == |t.columns|
  }

  /** A table as a data frame holds it: rectangular, no column name twice. */
  predicate WellFormed(t: Table)
  {
    Distinct(t.columns) && Rectangular(t)
  }

  datatype Error = MissingKeyField

  datatype Result<T> = Success(value: T) | Failure(error: Error)

  /** The key of every row, in row order. */
  function KeyColumn(t: Table): seq<Key>
    requires Rectangular(t)
  {
    seq(|t.rows|, k requires 0 <= k < |t.rows| => Cell(t.columns, t.rows[k], KeyField))
  }

  /** w empty cells. */
  function Blank(w: nat): seq<string>
  {
    seq(w, _ => "")
  }

  /** The columns of the comparison table. */
  function OutputColumns(prevCols: seq<string>, subCols: seq<string>, pv: string, sv: string): (r: seq<string>)
    ensures |r| == |prevCols| + 2 + |subCols|
    ensures r[..|prevCols|] == Suffixed(prevCols, pv)
    ensures r[|prevCols|] == StatusColumn && r[|prevCols| + 1] == ChangedColumn
    ensures r[|prevCols| + 2..] == Suffixed(subCols, sv)
  {
    var r := Suffixed(prevCols, pv) + [StatusColumn, ChangedColumn] + Suffixed(subCols, sv);
    assert r[..|prevCols|] == Suffixed(prevCols, pv);
    assert r[|prevCols| + 2..] == Suffixed(subCols, sv);
    r
  }

  /** The edit script over the key columns. */
  function Script(prev: Table, sub: Table): seq<Step>
    requires Rectangular(prev) && Rectangular(sub)
  {
    Align(KeyColumn(prev), KeyColumn(sub))
  }

  /** Every step of s refers to rows of prev and sub, and every Match pairs rows with equal keys. */
  predicate SoundScript(prev: Table, sub: Table, s: seq<Step>)
    requires Rectangular(prev) && Rectangular(sub)
  {
    forall k :: 0 <= k < |s| ==> SoundStep(KeyColumn(prev), KeyColumn(sub), s[k])
  }

  /** The comparison row of one step. */
  function RowOf(prev: Table, sub: Table, pv: string, sv: string, st: Step): seq<string>
    requires Rectangular(prev) && Rectangular(sub)
    requires SoundStep(KeyColumn(prev), KeyColumn(sub), st)
  {
    match st
    case Match(i, j) =>
      var c := Classify(prev.columns, prev.rows[i], sub.columns, sub.rows[j], pv, sv);
      prev.rows[i] + [Label(c.0), c.1] + sub.rows[j]
    case Delete(i) => prev.rows[i] + [Label(Deleted), ""] + Blank(|sub.columns|)
    case Insert(j) => Blank(|prev.columns|) + [Label(Inserted), ""] + sub.rows[j]
  }

  /** The comparison rows of a script, one per step, in order. */
  function Rows(prev: Table, sub: Table, pv: string, sv: string, s: seq<Step>): (r: seq<seq<string>>)
    requires Rectangular(prev) && Rectangular(sub) && SoundScript(prev, sub, s)
    ensures |r| == |s|
  {
    if s == [] then []
    else [RowOf(prev, sub, pv, sv, s[0])] + Rows(prev, sub, pv, sv, s[1..])
  }

  /**
   * The comparison table of two tables that both carry the key column: one
   * row per step of the alignment of their key columns.
   */
  function Comparison(prev: Table, sub: Table, pv: string, sv: string): (r: Table)
    requires WellFormed(prev) && WellFormed(sub)
  {
    var s := Script(prev, sub);
    AlignSound(KeyColumn(prev), KeyColumn(sub));
    Table(OutputColumns(prev.columns, sub.columns, pv, sv), Rows(prev, sub, pv, sv, s))
  }

  /**
   * align_columns: fails when either table lacks the key column; otherwise
   * the comparison table, whose columns are the suffixed previous columns,
   * the status and changed_entries columns and the suffixed subsequent
   * columns, whose rows all have that width, and which has one row per
   * previous row plus one per subsequent row minus one per matched pair,
   * the number of pairs being the length of a longest common subsequence of
   * the key columns.
   */
  function AlignColumns(prev: Table, sub: Table, pv: string, sv: string): (r: Result<Table>)
    requires WellFormed(prev) && WellFormed(sub)
    ensures r.Failure? <==> KeyField !in prev.columns || KeyField !in sub.columns
    ensures r.Success? ==> r.value.columns == OutputColumns(prev.columns, sub.columns, pv, sv)
    ensures r.Success? ==> Rectangular(r.value)
    ensures r.Success? ==> |r.value.rows| == |prev.rows| + |sub.rows| - Lcs(KeyColumn(prev), KeyColumn(sub), 0, 0)
  {
    if KeyField !in prev.columns || KeyField !in sub.columns then Failure(MissingKeyField)
    else
      var t := Comparison(prev, sub, pv, sv);
      ComparisonShape(prev, sub, pv, sv);
      Success(t)
  }

  // ---------------------------------------------------------------------------
  // Rows of the comparison table
  // ---------------------------------------------------------------------------

  /** The k-th comparison row is the row of the k-th step. */
  lemma {:induction false} RowsAt(prev: Table, sub: Table, pv: string, sv: string, s: seq<Step>, k: nat)
    requires Rectangular(prev) && Rectangular(sub) && SoundScript(prev, sub, s)
    requires k < |s|
    ensures SoundStep(KeyColumn(prev), KeyColumn(sub), s[k])
    ensures Rows(prev, sub, pv, sv, s)[k] == RowOf(prev, sub, pv, sv, s[k])
  {
    if k > 0 {
      assert SoundScript(prev, sub, s[1..]) by {
        forall t | 0 <= t < |s| - 1 ensures SoundStep(KeyColumn(prev), KeyColumn(sub), s[1..][t]) {
          assert s[1..][t] == s[t + 1];
        }
      }
      RowsAt(prev, sub, pv, sv, s[1..], k - 1);
    }
  }

  /** The blocks of a row made of a previous block, two middle cells and a subsequent block. */
  lemma Parts(a: seq<string>, x: string, y: string, b: seq<string>)
    ensures var row := a + [x, y] + b;
      && |row| == |a| + 2 + |b|
      && row[..|a|] == a && row[|a|] == x && row[|a| + 1] == y && row[|a| + 2..] == b
  {
    var row := a + [x, y] + b;
    assert row[..|a|] == a;
    assert row[|a| + 2..] == b;
  }

  /**
   * The previous block of a comparison row: blanks exactly when the status
   * marks the row inserted, the previous row of the step otherwise.
   */
  lemma RowPreviousPart(prev: Table, sub: Table, pv: string, sv: string, st: Step)
    requires Rectangular(prev) && Rectangular(sub)
    requires SoundStep(KeyColumn(prev), KeyColumn(sub), st)
    ensures var row, w := RowOf(prev, sub, pv, sv, st), |prev.columns|;
      && |row| == w + 2 + |sub.columns|
      && (st.Insert? <==> row[w] == Label(Inserted))
      && (st.Insert? ==> row[..w] == Blank(w))
      && (!st.Insert? ==> row[..w] == prev.rows[st.prev])
  {
    match st
    case Match(i, j) =>
      var c := Classify(prev.columns, prev.rows[i], sub.columns, sub.rows[j], pv, sv);
      Parts(prev.rows[i], Label(c.0), c.1, sub.rows[j]);
      LabelInjective(c.0, Inserted);
    case Delete(i) =>
      Parts(prev.rows[i], Label(Deleted), "", Blank(|sub.columns|));
      LabelInjective(Deleted, Inserted);
    case Insert(j) =>
      Parts(Blank(|prev.columns|), Label(Inserted), "", sub.rows[j]);
  }

  /**
   * The subsequent block of a comparison row: blanks exactly when the status
   * marks the row deleted, the subsequent row of the step otherwise.
   */
  lemma RowSubsequentPart(prev: Table, sub: Table, pv: string, sv: string, st: Step)
    requires Rectangular(prev) && Rectangular(sub)
    requires SoundStep(KeyColumn(prev), KeyColumn(sub), st)
    ensures var row, w := RowOf(prev, sub, pv, sv, st), |prev.columns|;
      && |row| == w + 2 + |sub.columns|
      && (st.Delete? <==> row[w] == Label(Deleted))
      && (st.Delete? ==> row[w + 2..] == Blank(|sub.columns|))
      && (!st.Delete? ==> row[w + 2..] == sub.rows[st.sub])
  {
    match st
    case Match(i, j) =>
      var c := Classify(prev.columns, prev.rows[i], sub.columns, sub.rows[j], pv, sv);
      Parts(prev.rows[i], Label(c.0), c.1, sub.rows[j]);
      LabelInjective(c.0, Deleted);
    case Delete(i) =>
      Parts(prev.rows[i], Label(Deleted), "", Blank(|sub.columns|));
    case Insert(j) =>
      Parts(Blank(|prev.columns|), Label(Inserted), "", sub.rows[j]);
      LabelInjective(Inserted, Deleted);
  }

  /** A comparison row comes from a Match exactly when its status is empty or marks a change; otherwise its changed_entries is empty. */
  lemma RowMatchPart(prev: Table, sub: Table, pv: string, sv: string, st: Step)
    requires Rectangular(prev) && Rectangular(sub)
    requires SoundStep(KeyColumn(prev), KeyColumn(sub), st)
    ensures var row, w := RowOf(prev, sub, pv, sv, st), |prev.columns|;
      && |row| == w + 2 + |sub.columns|
      && (st.Match? <==> row[w] == Label(Unchanged) || row[w] == Label(Modified))
      && (!st.Match? ==> row[w + 1] == "")
  {
    match st
    case Match(i, j) =>
    case Delete(i) =>
      LabelInjective(Deleted, Unchanged);
      LabelInjective(Deleted, Modified);
    case Insert(j) =>
      LabelInjective(Inserted, Unchanged);
      LabelInjective(Inserted, Modified);
  }

  /** The comparison table has the output columns, rectangular rows, and one row per step of the alignment. */
  lemma ComparisonShape(prev: Table, sub: Table, pv: string, sv: string)
    requires WellFormed(prev) && WellFormed(sub)
    ensures var t := Comparison(prev, sub, pv, sv);
      && t.columns == OutputColumns(prev.columns, sub.columns, pv, sv)
      && Rectangular(t)
      && |t.rows| == |prev.rows| + |sub.rows| - Lcs(KeyColumn(prev), KeyColumn(sub), 0, 0)
  {
    var t := Comparison(prev, sub, pv, sv);
    var s := Script(prev, sub);
    AlignSound(KeyColumn(prev), KeyColumn(sub));
    AlignIsValid(KeyColumn(prev), KeyColumn(sub));
    forall k | 0 <= k < |t.rows| ensures |t.rows[k]| == |t.columns| {
      RowsAt(prev, sub, pv, sv, s, k);
      RowMatchPart(prev, sub, pv, sv, s[k]);
    }
  }

  /** Every row has at least w + 2 cells: a previous block of w cells followed by the status and changed_entries cells. */
  predicate HasStatus(rows: seq<seq<string>>, w: nat)
  {
    forall k :: 0 <= k < |rows| ==> |rows[k]| >= w + 2
  }

  /** The previous rows a comparison shows: the leading w cells of every row not marked inserted, in order. */
  function PreviousSide(rows: seq<seq<string>>, w: nat): seq<seq<string>>
    requires HasStatus(rows, w)
  {
    if rows == [] then []
    else (if rows[0][w] == Label(Inserted) then [] else [rows[0][..w]]) + PreviousSide(rows[1..], w)
  }

  /** The subsequent rows a comparison shows: the cells after the two middle columns of every row not marked deleted, in order. */
  function SubsequentSide(rows: seq<seq<string>>, w: nat): seq<seq<string>>
    requires HasStatus(rows, w)
  {
    if rows == [] then []
    else (if rows[0][w] == Label(Deleted) then [] else [rows[0][w + 2..]]) + SubsequentSide(rows[1..], w)
  }

  lemma RowsHaveStatus(prev: Table, sub: Table, pv: string, sv: string, s: seq<Step>)
    requires Rectangular(prev) && Rectangular(sub) && SoundScript(prev, sub, s)
    ensures HasStatus(Rows(prev, sub, pv, sv, s), |prev.columns|)
  {
    forall k | 0 <= k < |s| ensures |Rows(prev, sub, pv, sv, s)[k]| >= |prev.columns| + 2 {
      RowsAt(prev, sub, pv, sv, s, k);
      RowMatchPart(prev, sub, pv, sv, s[k]);
    }
  }

  lemma {:induction false} RangeHead(lo: nat, hi: nat)
    requires lo < hi
    ensures Range(lo, hi)[0] == lo && Range(lo, hi)[1..] == Range(lo + 1, hi)
  {
  }

  /** A row marked inserted contributes nothing to the previous side; any other row its leading cells. */
  lemma PreviousSideCons(rows: seq<seq<string>>, w: nat)
    requires HasStatus(rows, w) && rows != []
    ensures HasStatus(rows[1..], w)
    ensures rows[0][w] == Label(Inserted) ==> PreviousSide(rows, w) == PreviousSide(rows[1..], w)
    ensures rows[0][w] != Label(Inserted) ==> PreviousSide(rows, w) == [rows[0][..w]] + PreviousSide(rows[1..], w)
  {
  }

  /** A row marked deleted contributes nothing to the subsequent side; any other row its trailing cells. */
  lemma SubsequentSideCons(rows: seq<seq<string>>, w: nat)
    requires HasStatus(rows, w) && rows != []
    ensures HasStatus(rows[1..], w)
    ensures rows[0][w] == Label(Deleted) ==> SubsequentSide(rows, w) == SubsequentSide(rows[1..], w)
    ensures rows[0][w] != Label(Deleted) ==> SubsequentSide(rows, w) == [rows[0][w + 2..]] + SubsequentSide(rows[1..], w)
  {
  }

  /**
   * Row k of rows is marked inserted exactly when step k of s is an Insert,
   * and otherwise starts with the previous row that step visits.
   */
  predicate ShowsPrevious(rows: seq<seq<string>>, w: nat, s: seq<Step>, pr: seq<seq<string>>)
  {
    && |rows| == |s|
    && forall k :: 0 <= k < |s| ==>
      && |rows[k]| >= w + 2
      && (s[k].Insert? <==> rows[k][w] == Label(Inserted))
      && (!s[k].Insert? ==> s[k].prev < |pr| && rows[k][..w] == pr[s[k].prev])
  }

  /**
   * Row k of rows is marked deleted exactly when step k of s is a Delete,
   * and otherwise ends with the subsequent row that step visits.
   */
  predicate ShowsSubsequent(rows: seq<seq<string>>, w: nat, s: seq<Step>, sr: seq<seq<string>>)
  {
    && |rows| == |s|
    && forall k :: 0 <= k < |s| ==>
      && |rows[k]| >= w + 2
      && (s[k].Delete? <==> rows[k][w] == Label(Deleted))
      && (!s[k].Delete? ==> s[k].sub < |sr| && rows[k][w + 2..] == sr[s[k].sub])
  }

  lemma {:induction false} SidePrevious(rows: seq<seq<string>>, w: nat, s: seq<Step>, pr: seq<seq<string>>, lo: nat)
    requires ShowsPrevious(rows, w, s, pr)
    requires lo <= |pr| && PrevIndices(s) == Range(lo, |pr|)
    ensures HasStatus(rows, w) && PreviousSide(rows, w) == pr[lo..]
  {
    if s != [] {
      assert ShowsPrevious(rows[1..], w, s[1..], pr) by {
        forall k | 0 <= k < |s| - 1 ensures rows[1..][k] == rows[k + 1] && s[1..][k] == s[k + 1] { }
      }
      PreviousSideCons(rows, w);
      if s[0].Insert? {
        assert PrevIndices(s) == PrevIndices(s[1..]);
        SidePrevious(rows[1..], w, s[1..], pr, lo);
      } else {
        assert PrevIndices(s) == [s[0].prev] + PrevIndices(s[1..]);
        RangeHead(lo, |pr|);
        SidePrevious(rows[1..], w, s[1..], pr, lo + 1);
        assert pr[lo..] == [pr[lo]] + pr[lo + 1..];
      }
    }
  }

  lemma {:induction false} SideSubsequent(rows: seq<seq<string>>, w: nat, s: seq<Step>, sr: seq<seq<string>>, lo: nat)
    requires ShowsSubsequent(rows, w, s, sr)
    requires lo <= |sr| && SubIndices(s) == Range(lo, |sr|)
    ensures HasStatus(rows, w) && SubsequentSide(rows, w) == sr[lo..]
  {
    if s != [] {
      assert ShowsSubsequent(rows[1..], w, s[1..], sr) by {
        forall k | 0 <= k < |s| - 1 ensures rows[1..][k] == rows[k + 1] && s[1..][k] == s[k + 1] { }
      }
      SubsequentSideCons(rows, w);
      if s[0].Delete? {
        assert SubIndices(s) == SubIndices(s[1..]);
        SideSubsequent(rows[1..], w, s[1..], sr, lo);
      } else {
        assert SubIndices(s) == [s[0].sub] + SubIndices(s[1..]);
        RangeHead(lo, |sr|);
        SideSubsequent(rows[1..], w, s[1..], sr, lo + 1);
        assert sr[lo..] == [sr[lo]] + sr[lo + 1..];
      }
    }
  }

  /** The comparison rows of a script show the previous rows along it. */
  lemma RowsShowPrevious(prev: Table, sub: Table, pv: string, sv: string, s: seq<Step>)
    requires Rectangular(prev) && Rectangular(sub) && SoundScript(prev, sub, s)
    ensures ShowsPrevious(Rows(prev, sub, pv, sv, s), |prev.columns|, s, prev.rows)
  {
    var rows, w := Rows(prev, sub, pv, sv, s), |prev.columns|;
    forall k | 0 <= k < |s|
      ensures |rows[k]| >= w + 2
      ensures s[k].Insert? <==> rows[k][w] == Label(Inserted)
      ensures !s[k].Insert? ==> s[k].prev < |prev.rows| && rows[k][..w] == prev.rows[s[k].prev]
    {
      RowsAt(prev, sub, pv, sv, s, k);
      RowPreviousPart(prev, sub, pv, sv, s[k]);
    }
  }

  /** The comparison rows of a script show the subsequent rows along it. */
  lemma RowsShowSubsequent(prev: Table, sub: Table, pv: string, sv: string, s: seq<Step>)
    requires Rectangular(prev) && Rectangular(sub) && SoundScript(prev, sub, s)
    ensures ShowsSubsequent(Rows(prev, sub, pv, sv, s), |prev.columns|, s, sub.rows)
  {
    var rows, w := Rows(prev, sub, pv, sv, s), |prev.columns|;
    forall k | 0 <= k < |s|
      ensures |rows[k]| >= w + 2
      ensures s[k].Delete? <==> rows[k][w] == Label(Deleted)
      ensures !s[k].Delete? ==> s[k].sub < |sub.rows| && rows[k][w + 2..] == sub.rows[s[k].sub]
    {
      RowsAt(prev, sub, pv, sv, s, k);
      RowSubsequentPart(prev, sub, pv, sv, s[k]);
    }
  }

  /**
   * Completeness and order on the previous side: dropping the rows marked
   * inserted and keeping the leading previous cells gives back exactly the
   * previous table's rows, in their order.
   */
  lemma ComparisonPreviousSide(prev: Table, sub: Table, pv: string, sv: string)
    requires WellFormed(prev) && WellFormed(sub)
    ensures HasStatus(Comparison(prev, sub, pv, sv).rows, |prev.columns|)
    ensures PreviousSide(Comparison(prev, sub, pv, sv).rows, |prev.columns|) == prev.rows
  {
    AlignSound(KeyColumn(prev), KeyColumn(sub));
    AlignIsValid(KeyColumn(prev), KeyColumn(sub));
    RowsShowPrevious(prev, sub, pv, sv, Script(prev, sub));
    SidePrevious(Comparison(prev, sub, pv, sv).rows, |prev.columns|, Script(prev, sub), prev.rows, 0);
  }

  /**
   * Completeness and order on the subsequent side: dropping the rows marked
   * deleted and keeping the trailing subsequent cells gives back exactly the
   * subsequent table's rows, in their order.
   */
  lemma ComparisonSubsequentSide(prev: Table, sub: Table, pv: string, sv: string)
    requires WellFormed(prev) && WellFormed(sub)
    ensures HasStatus(Comparison(prev, sub, pv, sv).rows, |prev.columns|)
    ensures SubsequentSide(Comparison(prev, sub, pv, sv).rows, |prev.columns|) == sub.rows
  {
    AlignSound(KeyColumn(prev), KeyColumn(sub));
    AlignIsValid(KeyColumn(prev), KeyColumn(sub));
    RowsShowSubsequent(prev, sub, pv, sv, Script(prev, sub));
    SideSubsequent(Comparison(prev, sub, pv, sv).rows, |prev.columns|, Script(prev, sub), sub.rows, 0);
  }

  /**
   * A matched comparison row pairs rows with equal keys; it is marked changed
   * exactly when some compared field differs, and its changed_entries lists
   * the differing fields of the pair.
   */
  lemma RowMatched(prev: Table, sub: Table, pv: string, sv: string, st: Step)
    requires Rectangular(prev) && Rectangular(sub)
    requires SoundStep(KeyColumn(prev), KeyColumn(sub), st) && st.Match?
    ensures var row, w := RowOf(prev, sub, pv, sv, st), |prev.columns|;
      && |row| == w + 2 + |sub.columns|
      && Cell(prev.columns, row[..w], KeyField) == Cell(sub.columns, row[w + 2..], KeyField)
      && (row[w] == Label(Modified) <==>
          exists f :: f in CompareFields(prev.columns, sub.columns) && Cell(prev.columns, row[..w], f) != Cell(sub.columns, row[w + 2..], f))
      && row[w + 1] == Join(Entries(DifferingFields(CompareFields(prev.columns, sub.columns), prev.columns, row[..w], sub.columns, row[w + 2..]), pv, sv))
  {
    var row, w := RowOf(prev, sub, pv, sv, st), |prev.columns|;
    var i, j := st.prev, st.sub;
    RowPreviousPart(prev, sub, pv, sv, st);
    RowSubsequentPart(prev, sub, pv, sv, st);
    var c := Classify(prev.columns, prev.rows[i], sub.columns, sub.rows[j], pv, sv);
    assert row[w] == Label(c.0) && row[w + 1] == c.1;
    LabelInjective(c.0, Modified);
    ClassifyEntries(prev.columns, prev.rows[i], sub.columns, sub.rows[j], pv, sv);
    assert KeyColumn(prev)[i] == KeyColumn(sub)[j];
  }

  /**
   * Every comparison row has the output width and one of the four statuses.
   * A row marked deleted has a blank subsequent side, a row marked inserted a
   * blank previous side, and neither has changed_entries.
   */
  lemma ComparisonRows(prev: Table, sub: Table, pv: string, sv: string)
    requires WellFormed(prev) && WellFormed(sub)
    ensures var rows, w, v := Comparison(prev, sub, pv, sv).rows, |prev.columns|, |sub.columns|;
      forall k :: 0 <= k < |rows| ==>
        && |rows[k]| == w + 2 + v
        && (rows[k][w] == Label(Unchanged) || rows[k][w] == Label(Modified)
            || rows[k][w] == Label(Deleted) || rows[k][w] == Label(Inserted))
        && (rows[k][w] == Label(Deleted) ==> rows[k][w + 2..] == Blank(v) && rows[k][w + 1] == "")
        && (rows[k][w] == Label(Inserted) ==> rows[k][..w] == Blank(w) && rows[k][w + 1] == "")
  {
    var s := Script(prev, sub);
    AlignSound(KeyColumn(prev), KeyColumn(sub));
    var rows, w, v := Comparison(prev, sub, pv, sv).rows, |prev.columns|, |sub.columns|;
    forall k | 0 <= k < |rows|
      ensures && |rows[k]| == w + 2 + v
              && (rows[k][w] == Label(Unchanged) || rows[k][w] == Label(Modified)
                  || rows[k][w] == Label(Deleted) || rows[k][w] == Label(Inserted))
              && (rows[k][w] == Label(Deleted) ==> rows[k][w + 2..] == Blank(v) && rows[k][w + 1] == "")
              && (rows[k][w] == Label(Inserted) ==> rows[k][..w] == Blank(w) && rows[k][w + 1] == "")
    {
      RowsAt(prev, sub, pv, sv, s, k);
      RowPreviousPart(prev, sub, pv, sv, s[k]);
      RowSubsequentPart(prev, sub, pv, sv, s[k]);
      RowMatchPart(prev, sub, pv, sv, s[k]);
    }
  }

  /**
   * Every comparison row whose status is empty or marks a change pairs a
   * previous and a subsequent row with the same key; it is marked changed
   * exactly when some compared field differs between the two, and its
   * changed_entries lists F_prev and F_sub for each differing field F.
   */
  lemma ComparisonMatchedRows(prev: Table, sub: Table, pv: string, sv: string)
    requires WellFormed(prev) && WellFormed(sub)
    ensures var rows, w, v := Comparison(prev, sub, pv, sv).rows, |prev.columns|, |sub.columns|;
      forall k :: 0 <= k < |rows| ==>
        && |rows[k]| == w + 2 + v
        && ((rows[k][w] == Label(Unchanged) || rows[k][w] == Label(Modified)) ==>
            && Cell(prev.columns, rows[k][..w], KeyField) == Cell(sub.columns, rows[k][w + 2..], KeyField)
            && (rows[k][w] == Label(Modified) <==>
                exists f :: f in CompareFields(prev.columns, sub.columns)
                  && Cell(prev.columns, rows[k][..w], f) != Cell(sub.columns, rows[k][w + 2..], f))
            && rows[k][w + 1] == Join(Entries(DifferingFields(CompareFields(prev.columns, sub.columns),
                                      prev.columns, rows[k][..w], sub.columns, rows[k][w + 2..]), pv, sv)))
  {
    var s := Script(prev, sub);
    AlignSound(KeyColumn(prev), KeyColumn(sub));
    var rows, w, v := Comparison(prev, sub, pv, sv).rows, |prev.columns|, |sub.columns|;
    forall k | 0 <= k < |rows|
      ensures && |rows[k]| == w + 2 + v
              && ((rows[k][w] == Label(Unchanged) || rows[k][w] == Label(Modified)) ==>
                  && Cell(prev.columns, rows[k][..w], KeyField) == Cell(sub.columns, rows[k][w + 2..], KeyField)
                  && (rows[k][w] == Label(Modified) <==>
                      exists f :: f in CompareFields(prev.columns, sub.columns)
                        && Cell(prev.columns, rows[k][..w], f) != Cell(sub.columns, rows[k][w + 2..], f))
                  && rows[k][w + 1] == Join(Entries(DifferingFields(CompareFields(prev.columns, sub.columns),
                                            prev.columns, rows[k][..w], sub.columns, rows[k][w + 2..]), pv, sv)))
    {
      RowsAt(prev, sub, pv, sv, s, k);
      RowMatchPart(prev, sub, pv, sv, s[k]);
      if s[k].Match? {
        RowMatched(prev, sub, pv, sv, s[k]);
      }
    }
  }

  /** The status column of comparison rows whose previous block is w cells wide. */
  function Statuses(rows: seq<seq<string>>, w: nat): (r: seq<string>)
    requires HasStatus(rows, w)
    ensures |r| == |rows|
  {
    seq(|rows|, k requires 0 <= k < |rows| => rows[k][w])
  }

  /** Within the comparison table no row marked inserted is directly followed by a row marked deleted. */
  lemma ComparisonDeletesFirst(prev: Table, sub: Table, pv: string, sv: string)
    requires WellFormed(prev) && WellFormed(sub)
    ensures HasStatus(Comparison(prev, sub, pv, sv).rows, |prev.columns|)
    ensures var st := Statuses(Comparison(prev, sub, pv, sv).rows, |prev.columns|);
      forall k :: 0 < k < |st| ==> !(st[k - 1] == Label(Inserted) && st[k] == Label(Deleted))
  {
    var s := Script(prev, sub);
    AlignSound(KeyColumn(prev), KeyColumn(sub));
    AlignIsValid(KeyColumn(prev), KeyColumn(sub));
    RowsHaveStatus(prev, sub, pv, sv, s);
    var st := Statuses(Comparison(prev, sub, pv, sv).rows, |prev.columns|);
    forall k | 0 < k < |st| ensures !(st[k - 1] == Label(Inserted) && st[k] == Label(Deleted)) {
      StatusAt(prev, sub, pv, sv, s, k - 1);
      StatusAt(prev, sub, pv, sv, s, k);
    }
  }

  /** The k-th status says whether the k-th step is an Insert and whether it is a Delete. */
  lemma StatusAt(prev: Table, sub: Table, pv: string, sv: string, s: seq<Step>, k: nat)
    requires Rectangular(prev) && Rectangular(sub) && SoundScript(prev, sub, s) && k < |s|
    ensures HasStatus(Rows(prev, sub, pv, sv, s), |prev.columns|)
    ensures var st := Statuses(Rows(prev, sub, pv, sv, s), |prev.columns|);
      (st[k] == Label(Inserted) <==> s[k].Insert?) && (st[k] == Label(Deleted) <==> s[k].Delete?)
  {
    RowsHaveStatus(prev, sub, pv, sv, s);
    RowsAt(prev, sub, pv, sv, s, k);
    RowPreviousPart(prev, sub, pv, sv, s[k]);
    RowSubsequentPart(prev, sub, pv, sv, s[k]);
  }

  /**
   * The comparison table is as short as an alignment can be: any common
   * subsequence of the key columns would leave at least as many rows.
   */
  lemma ComparisonIsShortest(prev: Table, sub: Table, pv: string, sv: string, ps: seq<Pair>)
    requires WellFormed(prev) && WellFormed(sub)
    requires IsCommon(KeyColumn(prev), KeyColumn(sub), ps, 0, 0)
    ensures |Comparison(prev, sub, pv, sv).rows| <= |prev.rows| + |sub.rows| - |ps|
  {
    ComparisonShape(prev, sub, pv, sv);
    LcsIsUpperBound(KeyColumn(prev), KeyColumn(sub), ps, 0, 0);
  }

  /** Two tables without rows give a comparison table without rows, still with all output columns. */
  lemma ComparisonOfEmpty(prevCols: seq<string>, subCols: seq<string>, pv: string, sv: string)
    requires Distinct(prevCols) && Distinct(subCols)
    ensures var t := Comparison(Table(prevCols, []), Table(subCols, []), pv, sv);
      t.rows == [] && t.columns == OutputColumns(prevCols, subCols, pv, sv)
  {
    ComparisonShape(Table(prevCols, []), Table(subCols, []), pv, sv);
  }

  /** A comparison row showing r on both sides, with an empty status and empty changed_entries. */
  predicate Unmarked(row: seq<string>, r: seq<string>, w: nat)
  {
    && |row| == 2 * w + 2
    && row[..w] == r && row[w + 2..] == r
    && row[w] == "" && row[w + 1] == ""
  }

  /**
   * Comparing a table with itself marks no row: every row appears once, on
   * both sides, with an empty status and empty changed_entries.
   */
  lemma ComparisonOfSelf(t: Table, pv: string, sv: string)
    requires WellFormed(t)
    ensures var rows, w := Comparison(t, t, pv, sv).rows, |t.columns|;
      && |rows| == |t.rows|
      && forall k :: 0 <= k < |rows| ==> Unmarked(rows[k], t.rows[k], w)
  {
    var rows, w := Comparison(t, t, pv, sv).rows, |t.columns|;
    SelfLength(t, pv, sv);
    forall k | 0 <= k < |rows| ensures Unmarked(rows[k], t.rows[k], w)
    {
      SelfRowAt(t, pv, sv, k);
    }
  }

  lemma SelfLength(t: Table, pv: string, sv: string)
    requires WellFormed(t)
    ensures |Comparison(t, t, pv, sv).rows| == |t.rows|
  {
    AlignSelf(KeyColumn(t));
    DiagonalLength(0, |t.rows|);
  }

  lemma SelfRowAt(t: Table, pv: string, sv: string, k: nat)
    requires WellFormed(t) && k < |t.rows|
    ensures var rows, w := Comparison(t, t, pv, sv).rows, |t.columns|;
      k < |rows| && Unmarked(rows[k], t.rows[k], w)
  {
    var keys := KeyColumn(t);
    AlignSelf(keys);
    AlignSound(keys, keys);
    DiagonalAt(0, |keys|, k);
    RowsAt(t, t, pv, sv, Script(t, t), k);
    RowOfSelf(t, pv, sv, k);
  }

  /** The row of Match(i, i) when a table is compared with itself. */
  lemma RowOfSelf(t: Table, pv: string, sv: string, i: nat)
    requires Rectangular(t) && i < |t.rows|
    ensures SoundStep(KeyColumn(t), KeyColumn(t), Match(i, i))
    ensures var row, w := RowOf(t, t, pv, sv, Match(i, i)), |t.columns|;
      Unmarked(row, t.rows[i], w)
  {
    var c := Classify(t.columns, t.rows[i], t.columns, t.rows[i], pv, sv);
    assert c.0 == Unchanged;
    Parts(t.rows[i], Label(c.0), c.1, t.rows[i]);
  }
}
