/** The index-pair enumerations that the twin-twig generator and the
    stage-one center pairing walk with their nested loops. Each sequence
    lists pairs in the order the loops visit them. */
module Pairs {

  type Pair = (int, int)

  /** The pairs (a, t[0]), (a, t[1]), ... : one pass of an inner loop. */
  function Row(a: int, t: seq<int>): (r: seq<Pair>)
    ensures |r| == |t|
    ensures forall k :: 0 <= k < |t| ==> r[k] == (a, t[k])
  {
    seq(|t|, k requires 0 <= k < |t| => (a, t[k]))
  }

  lemma RowSnoc(a: int, s: seq<int>, lo: nat, hi: nat)
    requires lo <= hi < |s|
    ensures Row(a, s[lo..hi + 1]) == Row(a, s[lo..hi]) + [(a, s[hi])]
  {
    assert s[lo..hi + 1] == s[lo..hi] + [s[hi]];
  }

  /** Pairs (s[i], s[j]) with i < n and i < j, in lexicographic (i, j) order. */
  function WithinUpTo(s: seq<int>, n: nat): seq<Pair>
    requires n <= |s|
  {
    if n == 0 then [] else WithinUpTo(s, n - 1) + Row(s[n - 1], s[n..])
  }

  /** The last row is empty, so an outer loop may stop one row early. */
  lemma WithinUpToLastRow(s: seq<int>)
    requires |s| > 0
    ensures WithinUpTo(s, |s| - 1) == WithinUpTo(s, |s|)
  {
    assert Row(s[|s| - 1], s[|s|..]) == [];
  }

  /** Every pair (s[i], s[j]) with i < j, in lexicographic (i, j) order. */
  function Within(s: seq<int>): seq<Pair>
  {
    WithinUpTo(s, |s|)
  }

  /** Pairs (s[i], t[j]) with i < n, in lexicographic (i, j) order. */
  function CrossUpTo(s: seq<int>, t: seq<int>, n: nat): seq<Pair>
    requires n <= |s|
  {
    if n == 0 then [] else CrossUpTo(s, t, n - 1) + Row(s[n - 1], t)
  }

  /** The cross product of s and t, row by row. */
  function Cross(s: seq<int>, t: seq<int>): seq<Pair>
  {
    CrossUpTo(s, t, |s|)
  }

  /** For each i < n in turn: the pairs (s[i], s[k]) with k > i, then the
      pairs (s[i], t[j]). */
  function WithinAndAcrossUpTo(s: seq<int>, t: seq<int>, n: nat): seq<Pair>
    requires n <= |s|
  {
    if n == 0 then [] else WithinAndAcrossUpTo(s, t, n - 1) + Row(s[n - 1], s[n..]) + Row(s[n - 1], t)
  }

  function WithinAndAcross(s: seq<int>, t: seq<int>): seq<Pair>
  {
    WithinAndAcrossUpTo(s, t, |s|)
  }

  ghost predicate FromWithin(s: seq<int>, p: Pair)
  {
    exists i, j :: 0 <= i < j < |s| && p == (s[i], s[j])
  }

  ghost predicate FromCross(s: seq<int>, t: seq<int>, p: Pair)
  {
    exists i, j :: 0 <= i < |s| && 0 <= j < |t| && p == (s[i], t[j])
  }

  // ---------------------------------------------------------------- counts

  lemma {:induction false} WithinUpToLength(s: seq<int>, n: nat)
    requires n <= |s|
    ensures 2 * |WithinUpTo(s, n)| == n * (2 * |s| - n - 1)
  {
    if n > 0 {
      WithinUpToLength(s, n - 1);
      assert |WithinUpTo(s, n)| == |WithinUpTo(s, n - 1)| + |s| - n;
    }
  }

  /** There are C(|s|, 2) pairs within s. */
  lemma WithinLength(s: seq<int>)
    ensures |Within(s)| == |s| * (|s| - 1) / 2
  {
    WithinUpToLength(s, |s|);
  }

  lemma {:induction false} CrossUpToLength(s: seq<int>, t: seq<int>, n: nat)
    requires n <= |s|
    ensures |CrossUpTo(s, t, n)| == n * |t|
  {
    if n > 0 {
      CrossUpToLength(s, t, n - 1);
    }
  }

  lemma CrossLength(s: seq<int>, t: seq<int>)
    ensures |Cross(s, t)| == |s| * |t|
  {
    CrossUpToLength(s, t, |s|);
  }

  lemma {:induction false} WithinAndAcrossUpToLength(s: seq<int>, t: seq<int>, n: nat)
    requires n <= |s|
    ensures |WithinAndAcrossUpTo(s, t, n)| == |WithinUpTo(s, n)| + |CrossUpTo(s, t, n)|
  {
    if n > 0 {
      WithinAndAcrossUpToLength(s, t, n - 1);
    }
  }

  /** C(|s|, 2) + |s| * |t| pairs. */
  lemma WithinAndAcrossLength(s: seq<int>, t: seq<int>)
    ensures |WithinAndAcross(s, t)| == |s| * (|s| - 1) / 2 + |s| * |t|
  {
    WithinAndAcrossUpToLength(s, t, |s|);
    WithinLength(s);
    CrossLength(s, t);
  }

  // ------------------------------------------------------------ membership

  lemma {:induction false} WithinUpToMembership(s: seq<int>, n: nat, p: Pair)
    requires n <= |s|
    ensures p in WithinUpTo(s, n) <==> exists i, j :: 0 <= i < n && i < j < |s| && p == (s[i], s[j])
  {
    if n > 0 {
      WithinUpToMembership(s, n - 1, p);
      var row := Row(s[n - 1], s[n..]);
      if p in row {
        var k :| 0 <= k < |row| && row[k] == p;
        assert p == (s[n - 1], s[n + k]);
      }
      if exists i, j :: 0 <= i < n && i < j < |s| && p == (s[i], s[j]) {
        var i, j :| 0 <= i < n && i < j < |s| && p == (s[i], s[j]);
        if i == n - 1 {
          assert row[j - n] == p;
        }
      }
    }
  }

  /** A pair is listed by Within(s) exactly when it is (s[i], s[j]) for some i < j. */
  lemma WithinMembership(s: seq<int>, p: Pair)
    ensures p in Within(s) <==> FromWithin(s, p)
  {
    WithinUpToMembership(s, |s|, p);
  }

  lemma {:induction false} CrossUpToMembership(s: seq<int>, t: seq<int>, n: nat, p: Pair)
    requires n <= |s|
    ensures p in CrossUpTo(s, t, n) <==> exists i, j :: 0 <= i < n && 0 <= j < |t| && p == (s[i], t[j])
  {
    if n > 0 {
      CrossUpToMembership(s, t, n - 1, p);
      var row := Row(s[n - 1], t);
      if p in row {
        var k :| 0 <= k < |row| && row[k] == p;
        assert p == (s[n - 1], t[k]);
      }
      if exists i, j :: 0 <= i < n && 0 <= j < |t| && p == (s[i], t[j]) {
        var i, j :| 0 <= i < n && 0 <= j < |t| && p == (s[i], t[j]);
        if i == n - 1 {
          assert row[j] == p;
        }
      }
    }
  }

  /** A pair is listed by Cross(s, t) exactly when it is (s[i], t[j]). */
  lemma CrossMembership(s: seq<int>, t: seq<int>, p: Pair)
    ensures p in Cross(s, t) <==> FromCross(s, t, p)
  {
    CrossUpToMembership(s, t, |s|, p);
  }

  lemma {:induction false} WithinAndAcrossUpToMembership(s: seq<int>, t: seq<int>, n: nat, p: Pair)
    requires n <= |s|
    ensures p in WithinAndAcrossUpTo(s, t, n) <==> p in WithinUpTo(s, n) || p in CrossUpTo(s, t, n)
  {
    if n > 0 {
      WithinAndAcrossUpToMembership(s, t, n - 1, p);
    }
  }

  /** The interleaved enumeration lists exactly the pairs within s and the
      pairs of s across t. */
  lemma WithinAndAcrossMembership(s: seq<int>, t: seq<int>, p: Pair)
    ensures p in WithinAndAcross(s, t) <==> FromWithin(s, p) || FromCross(s, t, p)
  {
    WithinAndAcrossUpToMembership(s, t, |s|, p);
    WithinMembership(s, p);
    CrossMembership(s, t, p);
  }

  // ----------------------------------------------------------------- order

  /** Extending the row bound only appends: earlier positions keep their pair. */
  lemma {:induction false} WithinUpToExtends(s: seq<int>, m: nat, n: nat, k: nat)
    requires m <= n <= |s| && k < |WithinUpTo(s, m)|
    ensures k < |WithinUpTo(s, n)| && WithinUpTo(s, n)[k] == WithinUpTo(s, m)[k]
  {
    if m < n {
      WithinUpToExtends(s, m, n - 1, k);
    }
  }

  /** The number of index pairs (i', j') with i' < i among the index pairs
      of an n-element sequence: where row i starts in lexicographic order. */
  function RowStart(n: nat, i: nat): nat
    requires i <= n
  {
    if i == 0 then 0 else RowStart(n, i - 1) + (n - i)
  }

  /** RowStart in closed form: i(2n - i - 1)/2. */
  lemma {:induction false} RowStartClosedForm(n: nat, i: nat)
    requires i <= n
    ensures 2 * RowStart(n, i) == i * (2 * n - i - 1)
  {
    if i > 0 {
      RowStartClosedForm(n, i - 1);
    }
  }

  lemma {:induction false} WithinUpToRowStart(s: seq<int>, n: nat)
    requires n <= |s|
    ensures |WithinUpTo(s, n)| == RowStart(|s|, n)
  {
    if n > 0 {
      WithinUpToRowStart(s, n - 1);
    }
  }

  /** Row i starts right after the rows before it. */
  lemma WithinUpToRowAt(s: seq<int>, i: nat, j: nat)
    requires i < j < |s|
    ensures |WithinUpTo(s, i)| + (j - i - 1) < |WithinUpTo(s, i + 1)|
    ensures WithinUpTo(s, i + 1)[|WithinUpTo(s, i)| + (j - i - 1)] == (s[i], s[j])
  {
    var before, row := WithinUpTo(s, i), Row(s[i], s[i + 1..]);
    assert WithinUpTo(s, i + 1) == before + row;
    assert row[j - i - 1] == (s[i], s[j]);
    assert (before + row)[|before| + (j - i - 1)] == row[j - i - 1];
  }

  /** Within(s) is in lexicographic (i, j) order: the pair (s[i], s[j]) sits
      at position RowStart(|s|, i) + (j - i - 1). */
  lemma WithinPosition(s: seq<int>, i: nat, j: nat)
    requires i < j < |s|
    ensures RowStart(|s|, i) + (j - i - 1) < |Within(s)|
    ensures Within(s)[RowStart(|s|, i) + (j - i - 1)] == (s[i], s[j])
  {
    WithinUpToRowStart(s, i);
    WithinUpToRowAt(s, i, j);
    WithinUpToExtends(s, i + 1, |s|, RowStart(|s|, i) + (j - i - 1));
  }
}
