/**
 * The sequence aligner behind align_columns: two ordered sequences of
 * Segmentname keys (duplicates allowed) are aligned into an edit script of
 * Match / Delete / Insert steps whose matches form a longest common
 * subsequence, chosen as the lexicographically least one, and whose gaps list
 * every deletion before every insertion.
 */
module Alignment {

  type Key = string

  /** A matched pair (previous index, subsequent index). */
  type Pair = (nat, nat)

  /** One step of the edit script. */
  datatype Step = Match(prev: nat, sub: nat) | Delete(prev: nat) | Insert(sub: nat)

  function Max(x: nat, y: nat): nat { if x >= y then x else y }

  // ---------------------------------------------------------------------------
  // Longest common subsequence
  // ---------------------------------------------------------------------------

  /** Length of a longest common subsequence of a[i..] and b[j..]. */
  function Lcs(a: seq<Key>, b: seq<Key>, i: nat, j: nat): (r: nat)
    requires i <= |a| && j <= |b|
    ensures r <= |a| - i && r <= |b| - j
    decreases |a| - i + |b| - j
  {
    if i == |a| || j == |b| then 0
    else if a[i] == b[j] then 1 + Lcs(a, b, i + 1, j + 1)
    else Max(Lcs(a, b, i + 1, j), Lcs(a, b, i, j + 1))
  }

  /**
   * ps is a common subsequence of a[i..] and b[j..] given by positions:
   * equal keys, in range, strictly increasing on both sides.
   */
  ghost predicate IsCommon(a: seq<Key>, b: seq<Key>, ps: seq<Pair>, i: nat, j: nat)
    decreases |ps|
  {
    ps == [] ||
    (&& i <= ps[0].0 < |a| && j <= ps[0].1 < |b| && a[ps[0].0] == b[ps[0].1]
     && IsCommon(a, b, ps[1..], ps[0].0 + 1, ps[0].1 + 1))
  }

  /** Any common subsequence of a[i..] and b[j..] is one of a[i'..] and b[j'..] for i' <= i, j' <= j. */
  lemma CommonWiden(a: seq<Key>, b: seq<Key>, ps: seq<Pair>, i: nat, j: nat, i': nat, j': nat)
    requires IsCommon(a, b, ps, i, j) && i' <= i && j' <= j
    ensures IsCommon(a, b, ps, i', j')
  {
  }

  /** Putting a pair in front of a common subsequence that lies after it. */
  lemma CommonCons(a: seq<Key>, b: seq<Key>, p: Pair, ps: seq<Pair>, i: nat, j: nat)
    requires i <= p.0 < |a| && j <= p.1 < |b| && a[p.0] == b[p.1]
    requires IsCommon(a, b, ps, p.0 + 1, p.1 + 1)
    ensures IsCommon(a, b, [p] + ps, i, j)
  {
    assert ([p] + ps)[1..] == ps;
  }

  /** Lcs is an upper bound: no common subsequence is longer. */
  lemma {:induction false} LcsIsUpperBound(a: seq<Key>, b: seq<Key>, ps: seq<Pair>, i: nat, j: nat)
    requires i <= |a| && j <= |b|
    requires IsCommon(a, b, ps, i, j)
    ensures |ps| <= Lcs(a, b, i, j)
    decreases |a| - i + |b| - j
  {
    if ps != [] {
      var p := ps[0];
      assert i <= p.0 < |a| && j <= p.1 < |b|;
      if a[i] == b[j] {
        CommonWiden(a, b, ps[1..], p.0 + 1, p.1 + 1, i + 1, j + 1);
        LcsIsUpperBound(a, b, ps[1..], i + 1, j + 1);
      } else if p.0 > i {
        LcsIsUpperBound(a, b, ps, i + 1, j);
      } else {
        assert p.1 > j;
        LcsIsUpperBound(a, b, ps, i, j + 1);
      }
    }
  }

  /** A common subsequence that Lcs counts, built by the classic backtrack. */
  ghost function Witness(a: seq<Key>, b: seq<Key>, i: nat, j: nat): (ps: seq<Pair>)
    requires i <= |a| && j <= |b|
    ensures IsCommon(a, b, ps, i, j) && |ps| == Lcs(a, b, i, j)
    decreases |a| - i + |b| - j
  {
    if i == |a| || j == |b| then []
    else if a[i] == b[j] then
      var rest := Witness(a, b, i + 1, j + 1);
      CommonCons(a, b, (i, j), rest, i, j);
      [(i, j)] + rest
    else if Lcs(a, b, i + 1, j) >= Lcs(a, b, i, j + 1) then
      var rest := Witness(a, b, i + 1, j);
      CommonWiden(a, b, rest, i + 1, j, i, j);
      rest
    else
      var rest := Witness(a, b, i, j + 1);
      CommonWiden(a, b, rest, i, j + 1, i, j);
      rest
  }

  /** Lcs does not grow when either window shrinks. */
  lemma LcsMonotone(a: seq<Key>, b: seq<Key>, i: nat, j: nat, i': nat, j': nat)
    requires i <= i' <= |a| && j <= j' <= |b|
    ensures Lcs(a, b, i', j') <= Lcs(a, b, i, j)
  {
    var w := Witness(a, b, i', j');
    CommonWiden(a, b, w, i', j', i, j);
    LcsIsUpperBound(a, b, w, i, j);
  }

  // ---------------------------------------------------------------------------
  // Canonical matching
  // ---------------------------------------------------------------------------

  /** The first position k >= j of x in b, or |b| when x does not occur in b[j..]. */
  function FirstFrom(b: seq<Key>, x: Key, j: nat): (k: nat)
    requires j <= |b|
    ensures j <= k <= |b|
    ensures k < |b| ==> b[k] == x
    ensures forall t :: j <= t < k ==> b[t] != x
    decreases |b| - j
  {
    if j == |b| || b[j] == x then j else FirstFrom(b, x, j + 1)
  }

  /**
   * a[i] can open a longest common subsequence of a[i..] and b[j..]: pairing it
   * with its first occurrence k in b[j..] loses nothing.
   */
  predicate Usable(a: seq<Key>, b: seq<Key>, i: nat, j: nat)
    requires i < |a| && j <= |b|
  {
    var k := FirstFrom(b, a[i], j);
    k < |b| && 1 + Lcs(a, b, i + 1, k + 1) == Lcs(a, b, i, j)
  }

  /**
   * The matched pairs of the alignment of a[i..] and b[j..]: the earliest
   * previous key that can still open a longest common subsequence is paired
   * with its earliest occurrence on the subsequent side.
   */
  function Matching(a: seq<Key>, b: seq<Key>, i: nat, j: nat): (ms: seq<Pair>)
    requires i <= |a| && j <= |b|
    decreases |a| - i + |b| - j
  {
    if i == |a| || j == |b| then []
    else if Usable(a, b, i, j) then
      var k := FirstFrom(b, a[i], j);
      [(i, k)] + Matching(a, b, i + 1, k + 1)
    else Matching(a, b, i + 1, j)
  }

  /** Pairing a[i] with an equal key b[k], k >= j, leaves at most Lcs(i, j) - 1 for the rest. */
  lemma LcsPairBound(a: seq<Key>, b: seq<Key>, i: nat, j: nat, k: nat)
    requires i < |a| && j <= k < |b| && a[i] == b[k]
    ensures 1 + Lcs(a, b, i + 1, k + 1) <= Lcs(a, b, i, j)
  {
    var v := Witness(a, b, i + 1, k + 1);
    CommonCons(a, b, (i, k), v, i, j);
    LcsIsUpperBound(a, b, [(i, k)] + v, i, j);
  }

  /** A common subsequence opened by (i, q) has at most 1 + Lcs(i + 1, k + 1) pairs for k <= q. */
  lemma LcsOpenedBound(a: seq<Key>, b: seq<Key>, ps: seq<Pair>, i: nat, j: nat, k: nat)
    requires IsCommon(a, b, ps, i, j) && ps != [] && ps[0].0 == i && k <= ps[0].1
    ensures |ps| <= 1 + Lcs(a, b, i + 1, k + 1)
  {
    var q := ps[0].1;
    LcsIsUpperBound(a, b, ps[1..], i + 1, q + 1);
    LcsMonotone(a, b, i + 1, k + 1, i + 1, q + 1);
  }

  /** The first occurrence from j comes no later than any occurrence from j. */
  lemma FirstFromAtMost(b: seq<Key>, x: Key, j: nat, q: nat)
    requires j <= q < |b| && b[q] == x
    ensures FirstFrom(b, x, j) <= q
  {
  }

  /** If a[i] opens a longest common subsequence of a[i..] and b[j..], it is usable. */
  lemma OpenerUsable(a: seq<Key>, b: seq<Key>, ps: seq<Pair>, i: nat, j: nat)
    requires i < |a| && j <= |b|
    requires IsCommon(a, b, ps, i, j) && |ps| == Lcs(a, b, i, j)
    requires ps != [] && ps[0].0 == i
    ensures Usable(a, b, i, j)
  {
    var k := FirstFrom(b, a[i], j);
    FirstFromAtMost(b, a[i], j, ps[0].1);
    LcsOpenedBound(a, b, ps, i, j, k);
    LcsPairBound(a, b, i, j, k);
    assert 1 + Lcs(a, b, i + 1, k + 1) == Lcs(a, b, i, j);
  }

  /**
   * If some longest common subsequence of a[i..] and b[j..] uses a[i], then a[i]
   * paired with its first occurrence in b[j..] opens one too.
   */
  lemma FirstPairUsable(a: seq<Key>, b: seq<Key>, ps: seq<Pair>, i: nat, j: nat)
    requires i < |a| && j <= |b|
    requires IsCommon(a, b, ps, i, j) && |ps| == Lcs(a, b, i, j)
    ensures ps != [] && ps[0].0 == i ==> Usable(a, b, i, j)
  {
    if ps != [] && ps[0].0 == i {
      OpenerUsable(a, b, ps, i, j);
    }
  }

  /** A key that cannot open a longest common subsequence can be dropped without loss. */
  lemma UsableOrDroppable(a: seq<Key>, b: seq<Key>, i: nat, j: nat)
    requires i < |a| && j <= |b|
    ensures Usable(a, b, i, j) || Lcs(a, b, i + 1, j) == Lcs(a, b, i, j)
  {
    LcsMonotone(a, b, i, j, i + 1, j);
    var w := Witness(a, b, i, j);
    FirstPairUsable(a, b, w, i, j);
    if w != [] && w[0].0 != i {
      assert IsCommon(a, b, w, i + 1, j);
      LcsIsUpperBound(a, b, w, i + 1, j);
    }
  }

  /** The canonical matching is a common subsequence of maximal length. */
  lemma {:induction false} MatchingIsLongest(a: seq<Key>, b: seq<Key>, i: nat, j: nat)
    requires i <= |a| && j <= |b|
    ensures IsCommon(a, b, Matching(a, b, i, j), i, j)
    ensures |Matching(a, b, i, j)| == Lcs(a, b, i, j)
    decreases |a| - i + |b| - j
  {
    if i == |a| || j == |b| {
    } else if Usable(a, b, i, j) {
      var k := FirstFrom(b, a[i], j);
      MatchingIsLongest(a, b, i + 1, k + 1);
      LongestWhenUsable(a, b, i, j);
    } else {
      MatchingIsLongest(a, b, i + 1, j);
      LongestWhenDropped(a, b, i, j);
    }
  }

  /** The inductive step of MatchingIsLongest when a[i] is usable. */
  lemma LongestWhenUsable(a: seq<Key>, b: seq<Key>, i: nat, j: nat)
    requires i < |a| && j < |b| && Usable(a, b, i, j)
    requires IsCommon(a, b, Matching(a, b, i + 1, FirstFrom(b, a[i], j) + 1), i + 1, FirstFrom(b, a[i], j) + 1)
    requires |Matching(a, b, i + 1, FirstFrom(b, a[i], j) + 1)| == Lcs(a, b, i + 1, FirstFrom(b, a[i], j) + 1)
    ensures IsCommon(a, b, Matching(a, b, i, j), i, j)
    ensures |Matching(a, b, i, j)| == Lcs(a, b, i, j)
  {
    var k := FirstFrom(b, a[i], j);
    var rest := Matching(a, b, i + 1, k + 1);
    assert Matching(a, b, i, j) == [(i, k)] + rest;
    CommonCons(a, b, (i, k), rest, i, j);
  }

  /** The inductive step of MatchingIsLongest when a[i] is not usable. */
  lemma LongestWhenDropped(a: seq<Key>, b: seq<Key>, i: nat, j: nat)
    requires i < |a| && j < |b| && !Usable(a, b, i, j)
    requires IsCommon(a, b, Matching(a, b, i + 1, j), i + 1, j)
    requires |Matching(a, b, i + 1, j)| == Lcs(a, b, i + 1, j)
    ensures IsCommon(a, b, Matching(a, b, i, j), i, j)
    ensures |Matching(a, b, i, j)| == Lcs(a, b, i, j)
  {
    var rest := Matching(a, b, i + 1, j);
    assert Matching(a, b, i, j) == rest;
    UsableOrDroppable(a, b, i, j);
    CommonWiden(a, b, rest, i + 1, j, i, j);
  }

  /** Pairs ordered by previous index first, then by subsequent index. */
  predicate PairLess(x: Pair, y: Pair)
  {
    x.0 < y.0 || (x.0 == y.0 && x.1 < y.1)
  }

  /** Lexicographic order on equally long pair sequences. */
  predicate LexLeq(s: seq<Pair>, t: seq<Pair>)
    requires |s| == |t|
  {
    s == [] || PairLess(s[0], t[0]) || (s[0] == t[0] && LexLeq(s[1..], t[1..]))
  }

  /**
   * Tie-break: of all longest common subsequences of a[i..] and b[j..], the
   * canonical matching is the lexicographically least, so duplicate keys are
   * matched at their earliest possible occurrence, previous side first.
   */
  lemma {:induction false} MatchingIsLeast(a: seq<Key>, b: seq<Key>, i: nat, j: nat, ps: seq<Pair>)
    requires i <= |a| && j <= |b|
    requires IsCommon(a, b, ps, i, j) && |ps| == Lcs(a, b, i, j)
    ensures |Matching(a, b, i, j)| == |ps|
    ensures LexLeq(Matching(a, b, i, j), ps)
    decreases |a| - i + |b| - j
  {
    MatchingIsLongest(a, b, i, j);
    var ms := Matching(a, b, i, j);
    if i == |a| || j == |b| {
    } else if Usable(a, b, i, j) {
      var k := FirstFrom(b, a[i], j);
      var p := ps[0];
      assert ms[0] == (i, k);
      if p.0 == i && p.1 == k {
        MatchingIsLeast(a, b, i + 1, k + 1, ps[1..]);
        assert ms[1..] == Matching(a, b, i + 1, k + 1);
      } else {
        assert i <= p.0 && j <= p.1 && a[p.0] == b[p.1];
        assert p.0 == i ==> k <= p.1;
        assert PairLess(ms[0], p);
      }
    } else {
      UsableOrDroppable(a, b, i, j);
      FirstPairUsable(a, b, ps, i, j);
      assert IsCommon(a, b, ps, i + 1, j);
      MatchingIsLeast(a, b, i + 1, j, ps);
    }
  }

  // ---------------------------------------------------------------------------
  // Keys shared in place, keys on one side only
  // ---------------------------------------------------------------------------

  /** When the next keys on both sides are equal, they are matched with each other. */
  lemma MatchingHead(a: seq<Key>, b: seq<Key>, i: nat, j: nat)
    requires i < |a| && j < |b| && a[i] == b[j]
    ensures Matching(a, b, i, j) == [(i, j)] + Matching(a, b, i + 1, j + 1)
  {
  }

  /** A previous key that does not occur in b[j..] opens no match: it is deleted. */
  lemma MatchingSkipPrev(a: seq<Key>, b: seq<Key>, i: nat, j: nat)
    requires i < |a| && j <= |b| && a[i] !in b[j..]
    ensures Matching(a, b, i, j) == Matching(a, b, i + 1, j)
  {
  }

  /** A subsequent key that does not occur in a[i..] does not shorten the common part. */
  lemma {:induction false} LcsSkipSub(a: seq<Key>, b: seq<Key>, i: nat, j: nat)
    requires i <= |a| && j < |b| && b[j] !in a[i..]
    ensures Lcs(a, b, i, j) == Lcs(a, b, i, j + 1)
    decreases |a| - i
  {
    if i < |a| {
      assert a[i] == a[i..][0];
      assert a[i + 1..] == a[i..][1..];
      LcsSkipSub(a, b, i + 1, j);
      LcsMonotone(a, b, i, j + 1, i + 1, j + 1);
    }
  }

  /** A subsequent key that does not occur in a[i..] is matched with nothing: it is inserted. */
  lemma {:induction false} MatchingSkipSub(a: seq<Key>, b: seq<Key>, i: nat, j: nat)
    requires i <= |a| && j < |b| && b[j] !in a[i..]
    ensures Matching(a, b, i, j) == Matching(a, b, i, j + 1)
    decreases |a| - i
  {
    if i < |a| {
      assert a[i] == a[i..][0];
      assert a[i + 1..] == a[i..][1..];
      LcsSkipSub(a, b, i, j);
      var k := FirstFrom(b, a[i], j);
      assert k == FirstFrom(b, a[i], j + 1);
      if Usable(a, b, i, j) {
        assert Usable(a, b, i, j + 1);
        assert Matching(a, b, i, j + 1) == [(i, k)] + Matching(a, b, i + 1, k + 1);
      } else {
        assert !Usable(a, b, i, j + 1);
        MatchingSkipSub(a, b, i + 1, j);
      }
    }
  }

  // ---------------------------------------------------------------------------
  // Linearization into an edit script
  // ---------------------------------------------------------------------------

  /** Matched pairs strictly increasing on both sides and within [i, n) x [j, m). */
  ghost predicate InWindow(ms: seq<Pair>, i: nat, j: nat, n: nat, m: nat)
    decreases |ms|
  {
    ms == [] ||
    (i <= ms[0].0 < n && j <= ms[0].1 < m && InWindow(ms[1..], ms[0].0 + 1, ms[0].1 + 1, n, m))
  }

  /**
   * The edit script that walks previous positions i..n-1 and subsequent
   * positions j..m-1 in lock-step towards the next matched pair of ms: first
   * every skipped previous row is deleted, then every skipped subsequent row is
   * inserted, then the pair is matched; after the last pair the remaining rows
   * are deleted, then inserted.
   */
  function Linearize(ms: seq<Pair>, i: nat, j: nat, n: nat, m: nat): seq<Step>
    requires i <= n && j <= m && InWindow(ms, i, j, n, m)
    decreases n - i + m - j
  {
    if ms == [] then
      if i < n then [Delete(i)] + Linearize(ms, i + 1, j, n, m)
      else if j < m then [Insert(j)] + Linearize(ms, i, j + 1, n, m)
      else []
    else if i < ms[0].0 then [Delete(i)] + Linearize(ms, i + 1, j, n, m)
    else if j < ms[0].1 then [Insert(j)] + Linearize(ms, i, j + 1, n, m)
    else [Match(i, j)] + Linearize(ms[1..], i + 1, j + 1, n, m)
  }

  lemma CommonInWindow(a: seq<Key>, b: seq<Key>, ps: seq<Pair>, i: nat, j: nat)
    requires IsCommon(a, b, ps, i, j)
    ensures InWindow(ps, i, j, |a|, |b|)
    decreases |ps|
  {
    if ps != [] { CommonInWindow(a, b, ps[1..], ps[0].0 + 1, ps[0].1 + 1); }
  }

  /** The alignment of the previous keys a with the subsequent keys b. */
  function Align(a: seq<Key>, b: seq<Key>): seq<Step>
  {
    MatchingIsLongest(a, b, 0, 0);
    CommonInWindow(a, b, Matching(a, b, 0, 0), 0, 0);
    Linearize(Matching(a, b, 0, 0), 0, 0, |a|, |b|)
  }

  // ---------------------------------------------------------------------------
  // Views of an edit script
  // ---------------------------------------------------------------------------

  /** The previous positions a script visits (Match and Delete steps), in order. */
  function PrevIndices(s: seq<Step>): seq<nat>
  {
    if s == [] then []
    else (if s[0].Insert? then [] else [s[0].prev]) + PrevIndices(s[1..])
  }

  /** The subsequent positions a script visits (Match and Insert steps), in order. */
  function SubIndices(s: seq<Step>): seq<nat>
  {
    if s == [] then []
    else (if s[0].Delete? then [] else [s[0].sub]) + SubIndices(s[1..])
  }

  /** The matched pairs of a script, in order. */
  function Matched(s: seq<Step>): seq<Pair>
  {
    if s == [] then []
    else (if s[0].Match? then [(s[0].prev, s[0].sub)] else []) + Matched(s[1..])
  }

  /** lo, lo+1, ..., hi-1. */
  function Range(lo: nat, hi: nat): (r: seq<nat>)
    ensures |r| == if lo <= hi then hi - lo else 0
    decreases hi - lo
  {
    if lo >= hi then [] else [lo] + Range(lo + 1, hi)
  }

  /** No Insert step is directly followed by a Delete step. */
  predicate DeletesFirst(s: seq<Step>)
  {
    forall k :: 0 < k < |s| ==> !(s[k - 1].Insert? && s[k].Delete?)
  }

  /** Linearizing a matching visits every previous position i..n-1 exactly once, in order. */
  lemma {:induction false} LinearizePrev(ms: seq<Pair>, i: nat, j: nat, n: nat, m: nat)
    requires i <= n && j <= m && InWindow(ms, i, j, n, m)
    ensures PrevIndices(Linearize(ms, i, j, n, m)) == Range(i, n)
    decreases n - i + m - j
  {
    var s := Linearize(ms, i, j, n, m);
    if s != [] {
      assert s == [s[0]] + s[1..];
      if ms == [] {
        if i < n { LinearizePrev(ms, i + 1, j, n, m); }
        else { LinearizePrev(ms, i, j + 1, n, m); }
      } else if i < ms[0].0 {
        LinearizePrev(ms, i + 1, j, n, m);
      } else if j < ms[0].1 {
        LinearizePrev(ms, i, j + 1, n, m);
      } else {
        LinearizePrev(ms[1..], i + 1, j + 1, n, m);
      }
    }
  }

  /** Linearizing a matching visits every subsequent position j..m-1 exactly once, in order. */
  lemma {:induction false} LinearizeSub(ms: seq<Pair>, i: nat, j: nat, n: nat, m: nat)
    requires i <= n && j <= m && InWindow(ms, i, j, n, m)
    ensures SubIndices(Linearize(ms, i, j, n, m)) == Range(j, m)
    decreases n - i + m - j
  {
    var s := Linearize(ms, i, j, n, m);
    if s != [] {
      assert s == [s[0]] + s[1..];
      if ms == [] {
        if i < n { LinearizeSub(ms, i + 1, j, n, m); }
        else { LinearizeSub(ms, i, j + 1, n, m); }
      } else if i < ms[0].0 {
        LinearizeSub(ms, i + 1, j, n, m);
      } else if j < ms[0].1 {
        LinearizeSub(ms, i, j + 1, n, m);
      } else {
        LinearizeSub(ms[1..], i + 1, j + 1, n, m);
      }
    }
  }

  /** Linearizing a matching keeps exactly its pairs as the Match steps, in order. */
  lemma {:induction false} LinearizeMatched(ms: seq<Pair>, i: nat, j: nat, n: nat, m: nat)
    requires i <= n && j <= m && InWindow(ms, i, j, n, m)
    ensures Matched(Linearize(ms, i, j, n, m)) == ms
    decreases n - i + m - j
  {
    var s := Linearize(ms, i, j, n, m);
    if s != [] {
      assert s == [s[0]] + s[1..];
      if ms == [] {
        if i < n { LinearizeMatched(ms, i + 1, j, n, m); }
        else { LinearizeMatched(ms, i, j + 1, n, m); }
      } else if i < ms[0].0 {
        LinearizeMatched(ms, i + 1, j, n, m);
      } else if j < ms[0].1 {
        LinearizeMatched(ms, i, j + 1, n, m);
      } else {
        LinearizeMatched(ms[1..], i + 1, j + 1, n, m);
        assert ms == [ms[0]] + ms[1..];
      }
    }
  }

  /** Once the walk has reached the next match (or the end) on the previous side, it deletes nothing more before that match. */
  lemma LinearizeNoDeleteFirst(ms: seq<Pair>, i: nat, j: nat, n: nat, m: nat)
    requires i <= n && j <= m && InWindow(ms, i, j, n, m)
    requires if ms == [] then i == n else i == ms[0].0
    ensures Linearize(ms, i, j, n, m) != [] ==> !Linearize(ms, i, j, n, m)[0].Delete?
  {
  }

  /** Linearizing a matching never puts an Insert directly before a Delete. */
  lemma {:induction false} LinearizeDeletesFirst(ms: seq<Pair>, i: nat, j: nat, n: nat, m: nat)
    requires i <= n && j <= m && InWindow(ms, i, j, n, m)
    ensures DeletesFirst(Linearize(ms, i, j, n, m))
    decreases n - i + m - j
  {
    var s := Linearize(ms, i, j, n, m);
    if s != [] {
      var i', j', ms' := i, j, ms;
      if ms == [] {
        if i < n { i' := i + 1; } else { j' := j + 1; }
      } else if i < ms[0].0 {
        i' := i + 1;
      } else if j < ms[0].1 {
        j' := j + 1;
      } else {
        i', j', ms' := i + 1, j + 1, ms[1..];
      }
      LinearizeDeletesFirst(ms', i', j', n, m);
      var rest := Linearize(ms', i', j', n, m);
      assert s == [s[0]] + rest;
      if s[0].Insert? {
        LinearizeNoDeleteFirst(ms', i', j', n, m);
      }
      forall k | 0 < k < |s| ensures !(s[k - 1].Insert? && s[k].Delete?) {
        if k > 1 { assert s[k - 1] == rest[k - 2] && s[k] == rest[k - 1]; }
      }
    }
  }

  /** Every step of a script sees the previous side once per Match/Delete and the subsequent side once per Match/Insert. */
  lemma {:induction false} StepCount(s: seq<Step>)
    ensures |s| + |Matched(s)| == |PrevIndices(s)| + |SubIndices(s)|
  {
    if s != [] { StepCount(s[1..]); }
  }

  /**
   * The alignment: its Match and Delete steps visit 0 .. |a|-1 in order, its
   * Match and Insert steps visit 0 .. |b|-1 in order, its matches are the
   * canonical longest common subsequence, and every gap lists its deletions
   * before its insertions. It has |a| + |b| - Lcs steps.
   */
  lemma AlignIsValid(a: seq<Key>, b: seq<Key>)
    ensures PrevIndices(Align(a, b)) == Range(0, |a|)
    ensures SubIndices(Align(a, b)) == Range(0, |b|)
    ensures Matched(Align(a, b)) == Matching(a, b, 0, 0)
    ensures |Matched(Align(a, b))| == Lcs(a, b, 0, 0)
    ensures IsCommon(a, b, Matched(Align(a, b)), 0, 0)
    ensures DeletesFirst(Align(a, b))
    ensures |Align(a, b)| == |a| + |b| - Lcs(a, b, 0, 0)
  {
    var ms := Matching(a, b, 0, 0);
    MatchingIsLongest(a, b, 0, 0);
    CommonInWindow(a, b, ms, 0, 0);
    LinearizePrev(ms, 0, 0, |a|, |b|);
    LinearizeSub(ms, 0, 0, |a|, |b|);
    LinearizeMatched(ms, 0, 0, |a|, |b|);
    LinearizeDeletesFirst(ms, 0, 0, |a|, |b|);
    StepCount(Align(a, b));
  }

  // ---------------------------------------------------------------------------
  // Soundness of each step, and aligning a sequence with itself
  // ---------------------------------------------------------------------------

  /** A step of the alignment of a with b: its positions exist, and a Match pairs equal keys. */
  predicate SoundStep(a: seq<Key>, b: seq<Key>, st: Step)
  {
    match st
    case Match(i, j) => i < |a| && j < |b| && a[i] == b[j]
    case Delete(i) => i < |a|
    case Insert(j) => j < |b|
  }

  lemma {:induction false} LinearizeSound(a: seq<Key>, b: seq<Key>, ms: seq<Pair>, i: nat, j: nat)
    requires i <= |a| && j <= |b| && IsCommon(a, b, ms, i, j) && InWindow(ms, i, j, |a|, |b|)
    ensures forall k :: 0 <= k < |Linearize(ms, i, j, |a|, |b|)| ==> SoundStep(a, b, Linearize(ms, i, j, |a|, |b|)[k])
    decreases |a| - i + |b| - j
  {
    var s := Linearize(ms, i, j, |a|, |b|);
    if s != [] {
      var i', j', ms' := i, j, ms;
      if ms == [] {
        if i < |a| { i' := i + 1; } else { j' := j + 1; }
      } else if i < ms[0].0 {
        i' := i + 1;
      } else if j < ms[0].1 {
        j' := j + 1;
      } else {
        i', j', ms' := i + 1, j + 1, ms[1..];
      }
      LinearizeSound(a, b, ms', i', j');
      var rest := Linearize(ms', i', j', |a|, |b|);
      assert s == [s[0]] + rest;
      forall k | 0 <= k < |s| ensures SoundStep(a, b, s[k]) {
        if k > 0 { assert s[k] == rest[k - 1]; }
      }
    }
  }

  /** Every step of the alignment refers to existing positions, and every Match pairs equal keys. */
  lemma AlignSound(a: seq<Key>, b: seq<Key>)
    ensures forall k :: 0 <= k < |Align(a, b)| ==> SoundStep(a, b, Align(a, b)[k])
  {
    var ms := Matching(a, b, 0, 0);
    MatchingIsLongest(a, b, 0, 0);
    CommonInWindow(a, b, ms, 0, 0);
    LinearizeSound(a, b, ms, 0, 0);
  }

  /** Match(lo, lo), ..., Match(hi-1, hi-1). */
  function Diagonal(lo: nat, hi: nat): seq<Step>
    decreases hi - lo
  {
    if lo >= hi then [] else [Match(lo, lo)] + Diagonal(lo + 1, hi)
  }

  /** (lo, lo), ..., (hi-1, hi-1). */
  function DiagonalPairs(lo: nat, hi: nat): seq<Pair>
    decreases hi - lo
  {
    if lo >= hi then [] else [(lo, lo)] + DiagonalPairs(lo + 1, hi)
  }

  lemma {:induction false} LcsSelf(a: seq<Key>, i: nat)
    requires i <= |a|
    ensures Lcs(a, a, i, i) == |a| - i
    decreases |a| - i
  {
    if i < |a| { LcsSelf(a, i + 1); }
  }

  lemma {:induction false} MatchingSelf(a: seq<Key>, i: nat)
    requires i <= |a|
    ensures Matching(a, a, i, i) == DiagonalPairs(i, |a|)
    decreases |a| - i
  {
    if i < |a| {
      LcsSelf(a, i + 1);
      assert FirstFrom(a, a[i], i) == i;
      assert Usable(a, a, i, i);
      MatchingSelf(a, i + 1);
    }
  }

  lemma {:induction false} DiagonalInWindow(i: nat, n: nat)
    requires i <= n
    ensures InWindow(DiagonalPairs(i, n), i, i, n, n)
    decreases n - i
  {
    if i < n { DiagonalInWindow(i + 1, n); }
  }

  lemma {:induction false} LinearizeDiagonal(i: nat, n: nat)
    requires i <= n
    ensures InWindow(DiagonalPairs(i, n), i, i, n, n)
    ensures Linearize(DiagonalPairs(i, n), i, i, n, n) == Diagonal(i, n)
    decreases n - i
  {
    DiagonalInWindow(i, n);
    if i < n {
      LinearizeDiagonal(i + 1, n);
      assert DiagonalPairs(i, n)[1..] == DiagonalPairs(i + 1, n);
    }
  }

  /** Aligning a key sequence with itself matches every position with itself: no Delete, no Insert. */
  lemma AlignSelf(a: seq<Key>)
    ensures Align(a, a) == Diagonal(0, |a|)
  {
    MatchingSelf(a, 0);
    LinearizeDiagonal(0, |a|);
  }

  lemma {:induction false} DiagonalAt(lo: nat, hi: nat, k: nat)
    requires lo + k < hi
    ensures |Diagonal(lo, hi)| == hi - lo && Diagonal(lo, hi)[k] == Match(lo + k, lo + k)
    decreases hi - lo
  {
    if k > 0 { DiagonalAt(lo + 1, hi, k - 1); } else { DiagonalLength(lo, hi); }
  }

  lemma {:induction false} DiagonalLength(lo: nat, hi: nat)
    requires lo <= hi
    ensures |Diagonal(lo, hi)| == hi - lo
    decreases hi - lo
  {
    if lo < hi { DiagonalLength(lo + 1, hi); }
  }
}
