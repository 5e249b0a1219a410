/**
 * The row classifier of align_columns: the status of each step of the edit
 * script and, for a matched pair of rows, which non-key fields changed,
 * rendered as the changed_entries string.
 */
module Classifier {

  /** The key column every table carries. */
  const KeyField: string := "Segmentname"

  /** The name of the status column of the comparison table. */
  const StatusColumn: string := "Änderung"

  /** The name of the changed-fields column of the comparison table. */
  const ChangedColumn: string := "changed_entries"

  /** The delimiter between the entries of changed_entries. */
  const Separator: char := '|'

  datatype Status = Unchanged | Modified | Deleted | Inserted

  /** The status as it appears in the status column. */
  function Label(st: Status): string
  {
    match st
    case Unchanged => ""
    case Modified => "ÄNDERUNG"
    case Deleted => "ENTFÄLLT"
    case Inserted => "NEU"
  }

  /** The four status labels are pairwise different, so the status column determines the status. */
  lemma {:induction false} LabelInjective(x: Status, y: Status)
    ensures Label(x) == Label(y) <==> x == y
  {
    if x != y {
      match x
      case Unchanged => assert |Label(y)| > 0;
      case Modified => assert Label(x)[0] == 'Ä' && (y.Deleted? ==> Label(y)[0] == 'E') && (y.Inserted? ==> Label(y)[0] == 'N');
      case Deleted => assert Label(x)[0] == 'E' && (y.Modified? ==> Label(y)[0] == 'Ä') && (y.Inserted? ==> Label(y)[0] == 'N');
      case Inserted => assert Label(x)[0] == 'N' && (y.Modified? ==> Label(y)[0] == 'Ä') && (y.Deleted? ==> Label(y)[0] == 'E');
    }
  }

  // ---------------------------------------------------------------------------
  // Columns and cells
  // ---------------------------------------------------------------------------

  /** No column name occurs twice. */
  predicate Distinct(cols: seq<string>)
  {
    forall x, y :: 0 <= x < y < |cols| ==> cols[x] != cols[y]
  }

  /** The position of the column called name, or |cols| when there is none. */
  function IndexOf(cols: seq<string>, name: string): (r: nat)
    ensures r <= |cols|
    ensures r < |cols| <==> name in cols
    ensures r < |cols| ==> cols[r] == name
    ensures forall t :: 0 <= t < r ==> cols[t] != name
  {
    if cols == [] then 0
    else if cols[0] == name then 0
    else 1 + IndexOf(cols[1..], name)
  }

  /** The value of field name in a row of a table with columns cols; a field the table lacks reads as "". */
  function Cell(cols: seq<string>, row: seq<string>, name: string): string
    requires |row| == |cols|
  {
    var k := IndexOf(cols, name);
    if k < |cols| then row[k] else ""
  }

  /** The column names with the version label appended, as name_version. */
  function Suffixed(cols: seq<string>, version: string): (r: seq<string>)
    ensures |r| == |cols|
    ensures forall k :: 0 <= k < |cols| ==> r[k] == cols[k] + "_" + version
  {
    if cols == [] then [] else [cols[0] + "_" + version] + Suffixed(cols[1..], version)
  }

  /** cols without the column called name. */
  function Without(cols: seq<string>, name: string): (r: seq<string>)
    ensures forall f :: f in r <==> f in cols && f != name
    ensures Distinct(cols) ==> Distinct(r)
    ensures Subsequence(r, cols)
  {
    if cols == [] then []
    else if cols[0] == name then Without(cols[1..], name)
    else
      var rest := Without(cols[1..], name);
      assert ([cols[0]] + rest)[1..] == rest;
      DistinctCons(cols, rest);
      [cols[0]] + rest
  }

  /** Putting the head of a distinct list in front of a distinct selection from its tail keeps it distinct. */
  lemma DistinctCons(cols: seq<string>, rest: seq<string>)
    requires cols != [] && forall f :: f in rest ==> f in cols[1..]
    ensures Distinct(cols) && Distinct(rest) ==> Distinct([cols[0]] + rest)
  {
    if Distinct(cols) && Distinct(rest) {
      assert cols[0] !in cols[1..] by {
        forall y | 0 <= y < |cols| - 1 ensures cols[1..][y] != cols[0] {
          assert cols[1..][y] == cols[y + 1];
        }
      }
      var r := [cols[0]] + rest;
      forall x, y | 0 <= x < y < |r| ensures r[x] != r[y] {
        if x == 0 { assert r[y] == rest[y - 1] && rest[y - 1] in rest; }
        else { assert r[x] == rest[x - 1] && r[y] == rest[y - 1]; }
      }
    }
  }

  /** The columns of sub that cols does not have, in the order of sub. */
  function Missing(sub: seq<string>, cols: seq<string>): (r: seq<string>)
    ensures forall f :: f in r <==> f in sub && f !in cols
    ensures Distinct(sub) ==> Distinct(r)
    ensures Subsequence(r, sub)
  {
    if sub == [] then []
    else if sub[0] in cols then Missing(sub[1..], cols)
    else
      var rest := Missing(sub[1..], cols);
      assert ([sub[0]] + rest)[1..] == rest;
      DistinctCons(sub, rest);
      [sub[0]] + rest
  }

  /** xs is ys with some elements left out, order kept. */
  ghost predicate Subsequence<T>(xs: seq<T>, ys: seq<T>)
    decreases |ys|
  {
    if xs == [] then true
    else if ys == [] then false
    else (xs[0] == ys[0] && Subsequence(xs[1..], ys[1..])) || Subsequence(xs, ys[1..])
  }

  /**
   * The non-key fields a matched pair is compared on: the previous fields in
   * their order, then the fields only the subsequent table has.
   */
  function CompareFields(prevCols: seq<string>, subCols: seq<string>): (r: seq<string>)
    ensures forall f :: f in r <==> (f in prevCols || f in subCols) && f != KeyField
    ensures Distinct(prevCols) && Distinct(subCols) ==> Distinct(r)
  {
    var p, q := Without(prevCols, KeyField), Without(Missing(subCols, prevCols), KeyField);
    assert forall x, y :: 0 <= x < |p| && 0 <= y < |q| ==> p[x] != q[y] by {
      forall x, y | 0 <= x < |p| && 0 <= y < |q| ensures p[x] != q[y] {
        assert p[x] in p && q[y] in q;
      }
    }
    p + q
  }

  /** With one schema on both sides the fields compared are that schema's non-key fields, in column order. */
  lemma SharedSchemaFields(cols: seq<string>)
    ensures CompareFields(cols, cols) == Without(cols, KeyField)
  {
    MissingNothing(cols, cols);
  }

  lemma {:induction false} MissingNothing(sub: seq<string>, cols: seq<string>)
    requires forall f :: f in sub ==> f in cols
    ensures Missing(sub, cols) == []
  {
    if sub != [] {
      assert sub[0] in sub;
      MissingNothing(sub[1..], cols);
    }
  }

  // ---------------------------------------------------------------------------
  // Change detection
  // ---------------------------------------------------------------------------

  /** The fields of fields whose values differ between the previous and the subsequent row, in order. */
  function DifferingFields(fields: seq<string>, prevCols: seq<string>, prevRow: seq<string>,
                           subCols: seq<string>, subRow: seq<string>): seq<string>
    requires |prevRow| == |prevCols| && |subRow| == |subCols|
  {
    if fields == [] then []
    else
      var rest := DifferingFields(fields[1..], prevCols, prevRow, subCols, subRow);
      if Cell(prevCols, prevRow, fields[0]) != Cell(subCols, subRow, fields[0]) then [fields[0]] + rest
      else rest
  }

  /**
   * The differing fields are exactly the fields whose two cells differ, they
   * keep the order of fields, and none occurs twice when none does in fields.
   */
  lemma {:induction false} DifferingFieldsSpec(fields: seq<string>, prevCols: seq<string>, prevRow: seq<string>,
                                               subCols: seq<string>, subRow: seq<string>)
    requires |prevRow| == |prevCols| && |subRow| == |subCols|
    ensures var r := DifferingFields(fields, prevCols, prevRow, subCols, subRow);
      && (forall f :: f in r <==> f in fields && Cell(prevCols, prevRow, f) != Cell(subCols, subRow, f))
      && Subsequence(r, fields)
      && (Distinct(fields) ==> Distinct(r))
  {
    if fields != [] {
      DifferingFieldsSpec(fields[1..], prevCols, prevRow, subCols, subRow);
      var rest := DifferingFields(fields[1..], prevCols, prevRow, subCols, subRow);
      assert fields == [fields[0]] + fields[1..];
      if Cell(prevCols, prevRow, fields[0]) != Cell(subCols, subRow, fields[0]) {
        assert ([fields[0]] + rest)[1..] == rest;
        DistinctCons(fields, rest);
      }
    }
  }

  /** For each changed field F, the entries F_prev and F_sub, in field order. */
  function Entries(names: seq<string>, pv: string, sv: string): (r: seq<string>)
    ensures |r| == 2 * |names|
    ensures forall k :: 0 <= k < |names| ==> r[2 * k] == names[k] + "_" + pv && r[2 * k + 1] == names[k] + "_" + sv
  {
    if names == [] then []
    else
      var rest := Entries(names[1..], pv, sv);
      assert forall k :: 1 <= k < |names| ==> rest[2 * (k - 1)] == names[k] + "_" + pv;
      [names[0] + "_" + pv, names[0] + "_" + sv] + rest
  }

  /** parts joined with the separator between consecutive parts. */
  function Join(parts: seq<string>): string
  {
    if parts == [] then ""
    else if |parts| == 1 then parts[0]
    else parts[0] + [Separator] + Join(parts[1..])
  }

  /** s cut at every separator; the empty string gives one empty part. */
  function Split(s: string): (r: seq<string>)
    ensures |r| >= 1
  {
    if s == [] then [""]
    else
      var rest := Split(s[1..]);
      if s[0] == Separator then [""] + rest
      else [[s[0]] + rest[0]] + rest[1..]
  }

  lemma {:induction false} SplitAfter(x: string, rest: string)
    requires Separator !in x
    ensures Split(x + [Separator] + rest) == [x] + Split(rest)
  {
    if x == [] {
      assert x + [Separator] + rest == [Separator] + rest;
      assert ([Separator] + rest)[1..] == rest;
    } else {
      var s := x + [Separator] + rest;
      assert s[0] == x[0] && s[1..] == x[1..] + [Separator] + rest;
      SplitAfter(x[1..], rest);
      assert [x[0]] + x[1..] == x;
    }
  }

  lemma {:induction false} SplitWhole(x: string)
    requires Separator !in x
    ensures Split(x) == [x]
  {
    if x != [] {
      SplitWhole(x[1..]);
      assert [x[0]] + x[1..] == x;
    }
  }

  /** Splitting a join gives the parts back, when there is at least one part and no part holds the separator. */
  lemma {:induction false} SplitJoin(parts: seq<string>)
    requires parts != []
    requires forall k :: 0 <= k < |parts| ==> Separator !in parts[k]
    ensures Split(Join(parts)) == parts
  {
    if |parts| == 1 {
      SplitWhole(parts[0]);
    } else {
      SplitJoin(parts[1..]);
      SplitAfter(parts[0], Join(parts[1..]));
      assert parts == [parts[0]] + parts[1..];
    }
  }

  /** A join is empty exactly when there are no parts or one empty part. */
  lemma JoinEmpty(parts: seq<string>)
    ensures Join(parts) == "" <==> parts == [] || parts == [""]
  {
    if |parts| > 1 {
      assert |Join(parts)| >= 1;
    }
  }

  /**
   * The status and changed_entries of a matched pair of rows. The pair is
   * compared on every non-key field; it is Modified exactly when some field
   * differs, and changed_entries then lists F_prev and F_sub for each differing
   * field F in field order; otherwise it is Unchanged with empty changed_entries.
   */
  function Classify(prevCols: seq<string>, prevRow: seq<string>, subCols: seq<string>, subRow: seq<string>,
                    pv: string, sv: string): (r: (Status, string))
    requires |prevRow| == |prevCols| && |subRow| == |subCols|
    ensures r.0 == Unchanged || r.0 == Modified
    ensures r.0 == Modified <==>
      exists f :: f in CompareFields(prevCols, subCols) && Cell(prevCols, prevRow, f) != Cell(subCols, subRow, f)
    ensures r.0 == Unchanged <==> r.1 == ""
  {
    var diff := DifferingFields(CompareFields(prevCols, subCols), prevCols, prevRow, subCols, subRow);
    DifferingFieldsSpec(CompareFields(prevCols, subCols), prevCols, prevRow, subCols, subRow);
    var entries := Entries(diff, pv, sv);
    JoinEmpty(entries);
    if diff == [] then (Unchanged, Join(entries))
    else
      assert diff[0] in diff;
      (Modified, Join(entries))
  }

  /**
   * Unfolds Classify: its changed_entries is the join of the entries of the
   * differing fields. What that string holds is stated by DifferingFieldsSpec,
   * Entries and ChangedEntriesReadBack.
   */
  lemma ClassifyEntries(prevCols: seq<string>, prevRow: seq<string>, subCols: seq<string>, subRow: seq<string>,
                        pv: string, sv: string)
    requires |prevRow| == |prevCols| && |subRow| == |subCols|
    ensures Classify(prevCols, prevRow, subCols, subRow, pv, sv).1
         == Join(Entries(DifferingFields(CompareFields(prevCols, subCols), prevCols, prevRow, subCols, subRow), pv, sv))
  {
  }

  /**
   * changed_entries can be read back: when no field name or version label holds
   * the separator, splitting a non-empty changed_entries string gives exactly
   * the entries F_prev, F_sub of the differing fields.
   */
  lemma ChangedEntriesReadBack(prevCols: seq<string>, prevRow: seq<string>, subCols: seq<string>, subRow: seq<string>,
                               pv: string, sv: string)
    requires |prevRow| == |prevCols| && |subRow| == |subCols|
    requires forall f :: f in prevCols || f in subCols ==> Separator !in f
    requires Separator !in pv && Separator !in sv
    ensures var c := Classify(prevCols, prevRow, subCols, subRow, pv, sv);
            var diff := DifferingFields(CompareFields(prevCols, subCols), prevCols, prevRow, subCols, subRow);
            c.1 != "" ==> Split(c.1) == Entries(diff, pv, sv)
  {
    var fields := CompareFields(prevCols, subCols);
    var diff := DifferingFields(fields, prevCols, prevRow, subCols, subRow);
    DifferingFieldsSpec(fields, prevCols, prevRow, subCols, subRow);
    if diff != [] {
      forall f | f in diff ensures Separator !in f {
        assert f in fields;
      }
      EntriesFree(diff, pv, sv);
      SplitJoin(Entries(diff, pv, sv));
    }
  }

  /** When neither the names nor the labels hold the separator, neither does any entry. */
  lemma EntriesFree(names: seq<string>, pv: string, sv: string)
    requires forall f :: f in names ==> Separator !in f
    requires Separator !in pv && Separator !in sv
    ensures forall k :: 0 <= k < |Entries(names, pv, sv)| ==> Separator !in Entries(names, pv, sv)[k]
  {
    var entries := Entries(names, pv, sv);
    forall k | 0 <= k < |entries| ensures Separator !in entries[k] {
      var f := names[k / 2];
      assert f in names;
      assert entries[k] == f + "_" + pv || entries[k] == f + "_" + sv by {
        if k % 2 == 0 { assert k == 2 * (k / 2); } else { assert k == 2 * (k / 2) + 1; }
      }
    }
  }
}
