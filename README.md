# ahb-diff: the align_columns comparison engine

ahb-diff compares two versions of an AHB table: a *previous* one and a *subsequent* one, each labelled with a format version such as `FV2410` and `FV2504`. `align_columns` takes one table of each version and returns a single comparison table.

**Alignment.** Rows are aligned on their `Segmentname` key column. Keys may repeat on either side. The alignment is an edit script of Match, Delete and Insert steps:

- it visits every previous row once and every subsequent row once, in their original order;
- its matches form a longest common subsequence of the two key columns;
- where several longest ones exist, it takes the lexicographically least, so a repeated key is matched at its earliest possible occurrence;
- within every gap between two matches, deletions come before insertions.

**Comparison rows.** There is one comparison row per step.

- **Columns.** The row starts with the previous fields, each column renamed `<name>_<previous version>`. Then come the status column `Änderung` and the `changed_entries` column. Last come the subsequent fields, renamed `<name>_<subsequent version>`.
- **Blank sides.** The side a deleted or inserted row does not have is filled with empty strings.
- **Status.** The status is one of:
  - `""` for a match whose fields agree;
  - `ÄNDERUNG` for a match where some non-key field differs;
  - `ENTFÄLLT` for a deleted row;
  - `NEU` for an inserted row.
- **changed_entries.** For a changed match, this lists `F_<previous version>` and `F_<subsequent version>` for each differing non-key field F, in column order, joined by `|`. It is empty on every other row.

The behaviour is the one the repository's unit tests for `align_columns` fix. `ahb_diff/main.py`, which implements it, is not part of this model. The model consists of four modules:

- `Alignment` (alignment.dfy): the LCS length `Lcs`, the canonical matching `Matching`, its linearisation into an edit script `Align`, and the proofs about them.
- `Classifier` (classifier.dfy):
  - the status labels;
  - the fields a matched pair is compared on;
  - change detection, with `Classify`;
  - the `changed_entries` string, with `Join` and its inverse `Split`.
- `Assembler` (assembler.dfy): the comparison table (`Comparison`), `AlignColumns` with its error case of a missing key column, and the properties of the whole table.
- `Scenarios` (scenarios.dfy): each unit-test scenario as a lemma stating `AlignColumns(prev, sub, "FV2410", "FV2504") == Success(expected table)`.

## Model

| member | source | states |
|---|---|---|
| Alignment.Lcs | unittests/test_process_csv.py:21-62 | the LCS length of two key suffixes never exceeds either suffix's length |
| Alignment.LcsIsUpperBound | unittests/test_process_csv.py:21-62 | no common subsequence of the key columns (equal keys, strictly increasing on both sides) is longer than Lcs |
| Alignment.LcsMonotone | unittests/test_process_csv.py:21-62 | Lcs does not grow when either key window shrinks |
| Alignment.MatchingIsLongest | unittests/test_process_csv.py:21-62 | the canonical matching is a common subsequence of the key columns, and its length is Lcs: the match count is maximal |
| Alignment.MatchingIsLeast | unittests/test_process_csv.py:127-167 | among all longest common subsequences, the canonical matching is the lexicographically least (previous index first, then subsequent index), so a repeated key is matched at its earliest occurrence |
| Alignment.MatchingHead | unittests/test_process_csv.py:21-62 | when the next previous and subsequent keys are equal, the matching pairs them with each other |
| Alignment.MatchingSkipPrev | unittests/test_process_csv.py:106-125 | a previous key that does not occur in the rest of the subsequent keys opens no match |
| Alignment.LcsSkipSub | unittests/test_process_csv.py:106-125 | a subsequent key that does not occur in the rest of the previous keys does not change the Lcs |
| Alignment.MatchingSkipSub | unittests/test_process_csv.py:106-125 | a subsequent key that does not occur in the rest of the previous keys does not change the matching |
| Alignment.Matching | unittests/test_process_csv.py:127-167 | the tie-broken LCS: walking the previous keys, a key is paired with its first occurrence among the remaining subsequent keys when that keeps a longest common subsequence reachable, and skipped otherwise; MatchingIsLongest and MatchingIsLeast state that this is the lexicographically least longest common subsequence |
| Alignment.Linearize | unittests/test_process_csv.py:106-167 | the walk from one matched pair to the next: skipped previous rows become Delete steps, then skipped subsequent rows become Insert steps, then the pair becomes a Match, with the rows after the last pair deleted and then inserted; LinearizeDeletesFirst and AlignIsValid state its coverage, order and delete-before-insert property |
| Alignment.Align | unittests/test_process_csv.py:21-62 | the aligner: the linearisation of the canonical matching of the two key columns; AlignIsValid (coverage, order, canonical matches, deletions first, row count) and AlignSound (in range, equal keys paired) state its contract |
| Alignment.AlignIsValid | unittests/test_process_csv.py:21-62 | the script's Match and Delete steps visit every previous position once, in order; its Match and Insert steps visit every subsequent position once, in order; its matches are the canonical LCS; no Insert is directly followed by a Delete; it has \|a\| + \|b\| - Lcs steps |
| Alignment.AlignSound | unittests/test_process_csv.py:181-278 | every step refers to existing rows, and every Match pairs equal keys |
| Alignment.AlignSelf | unittests/test_process_csv.py:21-62 | aligning a key column with itself matches every position with itself, with no Delete and no Insert, even when keys repeat |
| Alignment.StepCount | unittests/test_process_csv.py:21-62 | steps plus matches equal the previous rows visited plus the subsequent rows visited |
| Classifier.Label | unittests/test_process_csv.py:21-62 | the status strings `""`, `ÄNDERUNG`, `ENTFÄLLT` and `NEU`; LabelInjective states that the status column determines the status |
| Classifier.LabelInjective | unittests/test_process_csv.py:21-62 | two statuses have the same label exactly when they are the same status |
| Classifier.IndexOf | unittests/test_process_csv.py:399-442 | the position of a named column: below the width exactly when the name occurs, the first occurrence when it does |
| Classifier.Suffixed | unittests/test_process_csv.py:417-432 | each column name becomes name + `_` + version, positions kept |
| Classifier.CompareFields | unittests/test_process_csv.py:399-442 | the compared fields are exactly the non-key fields of either table, with no field twice |
| Classifier.SharedSchemaFields | unittests/test_process_csv.py:399-442 | with one schema on both sides, the compared fields are that schema's non-key fields in column order |
| Classifier.DifferingFields | unittests/test_process_csv.py:399-442 | the change detection: the compared fields whose cells differ between the two rows; DifferingFieldsSpec states its contract |
| Classifier.DifferingFieldsSpec | unittests/test_process_csv.py:399-442 | the differing fields are exactly the compared fields whose two cells differ, in column order, with none twice |
| Classifier.Entries | unittests/test_process_csv.py:424-428 | for the k-th differing field F, entries 2k and 2k+1 are F_prev and F_sub |
| Classifier.Join | unittests/test_process_csv.py:424-428 | the entries joined with `\|` between consecutive entries; SplitJoin (splitting gives the entries back) and JoinEmpty (empty only for no entries) state its contract |
| Classifier.SplitJoin | unittests/test_process_csv.py:424-428 | when no part holds `\|`, splitting the `\|`-joined parts gives the parts back |
| Classifier.JoinEmpty | unittests/test_process_csv.py:181-278 | a join is empty exactly when there are no parts or one empty part |
| Classifier.Classify | unittests/test_process_csv.py:181-278 | a matched pair is Modified exactly when some compared field differs, and Unchanged otherwise; its changed_entries is empty exactly when it is Unchanged |
| Classifier.ChangedEntriesReadBack | unittests/test_process_csv.py:399-442 | a non-empty changed_entries splits at `\|` into exactly F_prev, F_sub for each differing field F, in column order |
| Assembler.OutputColumns | unittests/test_process_csv.py:417-432 | the output columns are the previous names suffixed with the previous version, then `Änderung`, then `changed_entries`, then the subsequent names suffixed with the subsequent version |
| Assembler.RowOf | unittests/test_process_csv.py:195-269 | the layout of one comparison row: previous cells, status, changed_entries, subsequent cells, with a blank side for a deleted or inserted row; RowPreviousPart, RowSubsequentPart, RowMatchPart and RowMatched state its contract |
| Assembler.Comparison | unittests/test_process_csv.py:21-62 | the table assembler: one row per step of the alignment of the key columns, under the output columns; ComparisonShape, ComparisonPreviousSide, ComparisonSubsequentSide, ComparisonRows, ComparisonMatchedRows and ComparisonDeletesFirst state its contract |
| Assembler.AlignColumns | unittests/test_process_csv.py:56-61 | fails exactly when a table lacks the key column; otherwise it gives the output columns, rectangular rows, and \|prev\| + \|sub\| - Lcs rows |
| Assembler.RowPreviousPart | unittests/test_process_csv.py:85-104 | a row is marked NEU exactly when it comes from an Insert step; its previous block is then blank, and otherwise it is the visited previous row |
| Assembler.RowSubsequentPart | unittests/test_process_csv.py:85-104 | a row is marked ENTFÄLLT exactly when it comes from a Delete step; its subsequent block is then blank, and otherwise it is the visited subsequent row |
| Assembler.RowMatchPart | unittests/test_process_csv.py:303-347 | a row comes from a Match exactly when its status is `""` or `ÄNDERUNG`; other rows have empty changed_entries |
| Assembler.ComparisonShape | unittests/test_process_csv.py:21-62 | the comparison has the output columns, full-width rows, and \|prev\| + \|sub\| - Lcs rows |
| Assembler.ComparisonPreviousSide | unittests/test_process_csv.py:21-62 | dropping the rows marked NEU and keeping each row's leading cells gives back the previous table's rows exactly, in order |
| Assembler.ComparisonSubsequentSide | unittests/test_process_csv.py:21-62 | dropping the rows marked ENTFÄLLT and keeping each row's trailing cells gives back the subsequent table's rows exactly, in order |
| Assembler.SidePrevious | unittests/test_process_csv.py:21-62 | rows that show the previous rows along a script visiting them in order yield those rows as their previous side |
| Assembler.SideSubsequent | unittests/test_process_csv.py:21-62 | rows that show the subsequent rows along a script visiting them in order yield those rows as their subsequent side |
| Assembler.ComparisonRows | unittests/test_process_csv.py:85-125 | every row has the output width and one of the four statuses; a row marked ENTFÄLLT has a blank subsequent side, a row marked NEU a blank previous side, and neither has changed_entries |
| Assembler.RowMatched | unittests/test_process_csv.py:181-278 | every matched row pairs equal keys; it is `ÄNDERUNG` exactly when a compared field differs, and its changed_entries joins the differing fields' entries |
| Assembler.ComparisonMatchedRows | unittests/test_process_csv.py:181-278 | every row marked `""` or `ÄNDERUNG` pairs equal keys; it is `ÄNDERUNG` exactly when a compared field differs between its two sides, and its changed_entries is the joined F_prev, F_sub entries of those fields |
| Assembler.ComparisonDeletesFirst | unittests/test_process_csv.py:106-167 | no row marked NEU is directly followed by a row marked ENTFÄLLT |
| Assembler.StatusAt | unittests/test_process_csv.py:106-167 | the k-th status is NEU exactly for an Insert step, and ENTFÄLLT exactly for a Delete step |
| Assembler.ComparisonIsShortest | unittests/test_process_csv.py:106-125 | no common subsequence of the key columns allows fewer rows than the comparison has |
| Assembler.ComparisonOfEmpty | unittests/test_process_csv.py:64-83 | two tables without rows give a table without rows, still with all output columns |
| Assembler.ComparisonOfSelf | unittests/test_process_csv.py:21-62 | comparing a table with itself gives one row per row: the row on both sides, empty status, empty changed_entries |
| Scenarios.SingleColumn | unittests/test_process_csv.py:21-62 | keys 1..6,9,10 against 1,2,3,5..10 give the expected 10-row table |
| Scenarios.SingleColumnEmpty | unittests/test_process_csv.py:64-83 | two empty key-only tables give the four output columns and no rows |
| Scenarios.SingleColumnOneEmpty | unittests/test_process_csv.py:85-104 | three previous keys against an empty table give three ENTFÄLLT rows |
| Scenarios.SingleColumnFullOffset | unittests/test_process_csv.py:106-125 | disjoint keys give three ENTFÄLLT rows, then three NEU rows |
| Scenarios.SingleColumnDuplicates | unittests/test_process_csv.py:127-146 | 1,2,2 against 1,2,4 match the first 2; the second 2 is deleted before 4 is inserted |
| Scenarios.SingleColumnRepeating | unittests/test_process_csv.py:148-167 | 1,2,3,3,2 against 1,2,3,4 match the first 3; the later 3 and 2 are deleted before 4 is inserted |
| Scenarios.MultiColumn | unittests/test_process_csv.py:181-278 | the two-column tables give the expected table, where pairs whose group differs are ÄNDERUNG with `Segmentgruppe_FV2410\|Segmentgruppe_FV2504` |
| Scenarios.MultiColumnEmpty | unittests/test_process_csv.py:280-301 | two empty two-column tables give the six output columns and no rows |
| Scenarios.MultiColumnOneEmpty | unittests/test_process_csv.py:303-324 | rows against an empty table are all ENTFÄLLT, with blank subsequent sides |
| Scenarios.MultiColumnFullOffset | unittests/test_process_csv.py:326-347 | disjoint keys give all ENTFÄLLT rows, then all NEU rows, with blank opposite sides |
| Scenarios.MultiColumnDuplicates | unittests/test_process_csv.py:349-370 | keys 1,2,2 against 1,2,4 with their groups: the first 2 is matched, the second 2 deleted before 4 is inserted |
| Scenarios.MultiColumnRepeating | unittests/test_process_csv.py:372-397 | keys 1,2,3,3,2 against 1,2,3,4 with their groups: the first 3 is matched, the later 3 and 2 are deleted before 4 is inserted |
| Scenarios.FourColumns | unittests/test_process_csv.py:399-442 | the four-column tables give ENTFÄLLT, then ÄNDERUNG with the data element and qualifier entries, then NEU |

## Left out

- DataFrames. pandas plumbing, column dtypes (the `float64` empty columns) and `assert_frame_equal` are not modelled. A table is a list of column names and rows of strings. Well-formedness is a precondition: rows as wide as the columns, and no column name twice. Every table in the unit tests is built from a dict, which gives rectangular rows and distinct column names. pandas itself allows repeated column labels; the model excludes them.
- Version labels. The `FormatVersions` fixture is not part of this model. The labels are parameters of `AlignColumns`, and the scenarios use `FV2410` and `FV2504`.
- I/O. CSV loading, file discovery, export and the command line are not modelled.
- Assembler.AlignColumns: the error case for a table without a `Segmentname` column is a modelling assumption, standing for the key lookup failing. No test exercises it.
- Classifier.CompareFields: when the two tables have different column sets, this model compares on the union of their non-key fields, and a field a table lacks reads as `""`. No test exercises differing schemas: the four-column test uses the same names on both sides. Only the shared-schema case (`SharedSchemaFields`) is tied to a test.
- Scenarios.FourColumns: the expected changed_entries cell is written as `Join` of its four entries `Datenelement_FV2410`, `Datenelement_FV2504`, `Qualifier_FV2410` and `Qualifier_FV2504`, not as the single 73-character literal. `Join` puts `|` between the entries, so the two are the same string. Proving that literal equality character by character was too expensive for the verifier.
- Swapping the two tables is not symmetric. The tie-break prefers the earliest previous index, so swapping the tables can pair different keys even when no key repeats: previous keys x, y against subsequent keys y, x match x, and the swapped tables match y. The matched and modified key sets can therefore differ. No symmetry property is stated.
- The dynamic-programming table behind the LCS, and its time and space, are not modelled. `Lcs` is the recursive definition.
