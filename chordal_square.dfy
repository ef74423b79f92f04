/** The record-level bodies of the two chordal-square jobs: twin-twig
    candidate generation and center pairing (stage one), then the
    sign-tagged join of candidates against the edge set (stage two). */
module ChordalSquare {
  import opened Records
  import opened Pairs
  import opened MergeJoin

  // ================================================================ stage one

  /** The parts of a vertex's HyperVertexAdjList that the stage-one mapper
      reads: the isFirstAdd flag, the higher-degree neighbours L and the two
      lower-degree groups G0 and G1. */
  datatype AdjList = AdjList(isFirstAdd: bool, larger: seq<int>, smallerG0: seq<int>, smallerG1: seq<int>)

  /** One stage-one map output: the pair key HVArray(a, b) and, as value,
      the map input's own key (the center vertex). */
  datatype Candidate = Candidate(pair: VertexArray, center: int)

  /** The candidates written for the pairs ps, in order, skipping the pairs
      that pruning rejects. */
  function Emit(o: Pruning, ps: seq<Pair>, center: int): seq<Candidate>
  {
    if ps == [] then []
    else (if Admits(o, ps[0].0, ps[0].1) then [Candidate([ps[0].0, ps[0].1], center)] else [])
         + Emit(o, ps[1..], center)
  }

  /** The pairs the stage-one mapper visits, in visiting order: twin-twig 1
      (pairs within L) only for the first-add record; then, when G0 is empty,
      for each G1[i] the twin-twig 3 pairs within G1 followed by the
      twin-twig 2 pairs across L; otherwise the pairs across G0 and G1. */
  function TwinTwigPairs(adj: AdjList): seq<Pair>
  {
    (if adj.isFirstAdd then Within(adj.larger) else [])
    + (if |adj.smallerG0| == 0 then WithinAndAcross(adj.smallerG1, adj.larger)
       else Cross(adj.smallerG0, adj.smallerG1))
  }

  /** What the stage-one mapper writes for the record (center, adj). */
  function TwinTwigs(o: Pruning, center: int, adj: AdjList): seq<Candidate>
  {
    Emit(o, TwinTwigPairs(adj), center)
  }

  /** Keeps the candidates whose pair passes the pruning test: a
      subsequence, so it never adds a record. */
  function KeepAdmitted(o: Pruning, cs: seq<Candidate>): (r: seq<Candidate>)
    ensures |r| <= |cs|
    ensures forall x :: x in r ==> x in cs && |x.pair| == 2 && Admits(o, x.pair[0], x.pair[1])
  {
    if cs == [] then []
    else (if |cs[0].pair| == 2 && Admits(o, cs[0].pair[0], cs[0].pair[1]) then [cs[0]] else [])
         + KeepAdmitted(o, cs[1..])
  }

  lemma {:induction false} EmitAppend(o: Pruning, p: seq<Pair>, q: seq<Pair>, center: int)
    ensures Emit(o, p + q, center) == Emit(o, p, center) + Emit(o, q, center)
  {
    if p == [] {
      assert p + q == q;
    } else {
      var head := if Admits(o, p[0].0, p[0].1) then [Candidate([p[0].0, p[0].1], center)] else [];
      assert (p + q)[0] == p[0] && (p + q)[1..] == p[1..] + q;
      assert Emit(o, p + q, center) == head + Emit(o, p[1..] + q, center);
      EmitAppend(o, p[1..], q, center);
    }
  }

  lemma EmitSnoc(o: Pruning, p: seq<Pair>, x: Pair, center: int)
    ensures Emit(o, p + [x], center)
         == Emit(o, p, center) + (if Admits(o, x.0, x.1) then [Candidate([x.0, x.1], center)] else [])
  {
    EmitAppend(o, p, [x], center);
  }

  /** One innermost loop of ChordalSquareStageOneMapper.map: the pairs
      (a, t[j]) for each j in turn, each written unless pruning rejects it.
      The source shares one isOutput flag across all its loops; it is
      reassigned before every use when pruning is on and stays true when it
      is off, so a flag per loop has the same effect. */
  method EmitRow(o: Pruning, center: int, a: int, t: seq<int>) returns (out: seq<Candidate>)
    ensures out == Emit(o, Row(a, t), center)
  {
    var isOutput := true;
    out := [];
    var j := 0;
    assert Row(a, t[..j]) == [];
    while j < |t|
      invariant 0 <= j <= |t|
      invariant out == Emit(o, Row(a, t[..j]), center)
      invariant o.NoPruning? ==> isOutput
    {
      if o.Bloom? {
        isOutput := o.test(o.vertexId(a), o.vertexId(t[j]));
      }
      if isOutput {
        out := out + [Candidate([a, t[j]], center)];
      }
      RowSnoc(a, t, 0, j);
      EmitSnoc(o, Row(a, t[..j]), (a, t[j]), center);
      j := j + 1;
    }
    assert t[..j] == t;
  }

  /** Twin-twig 1 (the first loop nest of ChordalSquareStageOneMapper.map):
      for i < |L| - 1, the pairs L[i], L[j] with j > i, pruned. */
  method TwinTwigOne(o: Pruning, center: int, L: seq<int>) returns (out: seq<Candidate>)
    ensures out == Emit(o, Within(L), center)
  {
    out := [];
    var i := 0;
    while i < |L| - 1
      invariant 0 <= i <= |L|
      invariant i > 0 ==> i <= |L| - 1
      invariant out == Emit(o, WithinUpTo(L, i), center)
    {
      var row := EmitRow(o, center, L[i], L[i + 1..]);
      EmitAppend(o, WithinUpTo(L, i), Row(L[i], L[i + 1..]), center);
      out := out + row;
      i := i + 1;
    }
    if |L| > 0 {
      WithinUpToLastRow(L);
    }
  }

  /** The loop nest taken when G0 is empty: for each G1[i] in turn,
      twin-twig 3 (G1[i] with every later G1[k]) and then twin-twig 2
      (G1[i] with every L[j]), pruned. */
  method TwinTwigThreeAndTwo(o: Pruning, center: int, G1: seq<int>, L: seq<int>) returns (out: seq<Candidate>)
    ensures out == Emit(o, WithinAndAcross(G1, L), center)
  {
    out := [];
    var i := 0;
    while i < |G1|
      invariant 0 <= i <= |G1|
      invariant out == Emit(o, WithinAndAcrossUpTo(G1, L, i), center)
    {
      var twinTwigThree := EmitRow(o, center, G1[i], G1[i + 1..]);
      var twinTwigTwo := EmitRow(o, center, G1[i], L);
      EmitAppend(o, WithinAndAcrossUpTo(G1, L, i), Row(G1[i], G1[i + 1..]), center);
      EmitAppend(o, WithinAndAcrossUpTo(G1, L, i) + Row(G1[i], G1[i + 1..]), Row(G1[i], L), center);
      out := out + twinTwigThree + twinTwigTwo;
      i := i + 1;
    }
  }

  /** The loop nest taken when G0 is not empty: every pair G0[i], G1[j],
      pruned. */
  method TwinTwigAcrossGroups(o: Pruning, center: int, G0: seq<int>, G1: seq<int>) returns (out: seq<Candidate>)
    ensures out == Emit(o, Cross(G0, G1), center)
  {
    out := [];
    var i := 0;
    while i < |G0|
      invariant 0 <= i <= |G0|
      invariant out == Emit(o, CrossUpTo(G0, G1, i), center)
    {
      var row := EmitRow(o, center, G0[i], G1);
      EmitAppend(o, CrossUpTo(G0, G1, i), Row(G0[i], G1), center);
      out := out + row;
      i := i + 1;
    }
  }

  /** The stage-one mapper (ChordalSquareStageOneMapper.map) on the record
      (center, adj): twin-twig 1 for the first-add record, then one of the
      two lower-degree loop nests depending on whether G0 is empty. */
  method StageOneMap(o: Pruning, center: int, adj: AdjList) returns (out: seq<Candidate>)
    ensures out == TwinTwigs(o, center, adj)
  {
    out := [];
    if adj.isFirstAdd {
      out := TwinTwigOne(o, center, adj.larger);
    }
    ghost var tt1 := if adj.isFirstAdd then Within(adj.larger) else [];
    var rest;
    if |adj.smallerG0| == 0 {
      rest := TwinTwigThreeAndTwo(o, center, adj.smallerG1, adj.larger);
    } else {
      rest := TwinTwigAcrossGroups(o, center, adj.smallerG0, adj.smallerG1);
    }
    EmitAppend(o, tt1, TwinTwigPairs(adj)[|tt1|..], center);
    assert TwinTwigPairs(adj) == tt1 + TwinTwigPairs(adj)[|tt1|..];
    out := out + rest;
  }

  // ------------------------------------------------- stage-one map properties

  lemma {:induction false} EmitUnprunedLength(ps: seq<Pair>, center: int)
    ensures |Emit(NoPruning, ps, center)| == |ps|
  {
    if ps != [] {
      EmitUnprunedLength(ps[1..], center);
    }
  }

  lemma {:induction false} EmitIsPrunedFilter(o: Pruning, ps: seq<Pair>, center: int)
    ensures Emit(o, ps, center) == KeepAdmitted(o, Emit(NoPruning, ps, center))
  {
    if ps != [] {
      EmitIsPrunedFilter(o, ps[1..], center);
      var c := Candidate([ps[0].0, ps[0].1], center);
      assert Emit(NoPruning, ps, center) == [c] + Emit(NoPruning, ps[1..], center);
      assert ([c] + Emit(NoPruning, ps[1..], center))[1..] == Emit(NoPruning, ps[1..], center);
    }
  }

  lemma {:induction false} EmitMembership(o: Pruning, ps: seq<Pair>, center: int, x: Candidate)
    ensures x in Emit(o, ps, center)
        <==> x.center == center && |x.pair| == 2 && (x.pair[0], x.pair[1]) in ps
             && Admits(o, x.pair[0], x.pair[1])
  {
    if ps != [] {
      EmitMembership(o, ps[1..], center, x);
      assert ps == [ps[0]] + ps[1..];
      if |x.pair| == 2 && x.pair == [ps[0].0, ps[0].1] {
        assert (x.pair[0], x.pair[1]) == ps[0];
      }
    }
  }

  /** Every record the stage-one mapper writes carries the input record's
      own key (the center vertex) as its value, under a two-vertex key. */
  lemma TwinTwigsCarryCenter(o: Pruning, center: int, adj: AdjList)
    ensures forall x :: x in TwinTwigs(o, center, adj) ==> x.center == center && |x.pair| == 2
  {
    forall x | x in TwinTwigs(o, center, adj)
      ensures x.center == center && |x.pair| == 2
    {
      EmitMembership(o, TwinTwigPairs(adj), center, x);
    }
  }

  /** With pruning disabled the mapper writes [isFirstAdd] * C(|L|, 2)
      records, plus C(|G1|, 2) + |G1| * |L| when G0 is empty and
      |G0| * |G1| otherwise. */
  lemma TwinTwigsCount(center: int, adj: AdjList)
    ensures |TwinTwigs(NoPruning, center, adj)|
         == (if adj.isFirstAdd then |adj.larger| * (|adj.larger| - 1) / 2 else 0)
            + (if |adj.smallerG0| == 0
               then |adj.smallerG1| * (|adj.smallerG1| - 1) / 2 + |adj.smallerG1| * |adj.larger|
               else |adj.smallerG0| * |adj.smallerG1|)
  {
    EmitUnprunedLength(TwinTwigPairs(adj), center);
    WithinLength(adj.larger);
    WithinAndAcrossLength(adj.smallerG1, adj.larger);
    CrossLength(adj.smallerG0, adj.smallerG1);
  }

  /** Pruning only filters: the pruned output is the unpruned output, in the
      same order, with the records whose pair fails the test removed. */
  lemma TwinTwigsPruningFilters(o: Pruning, center: int, adj: AdjList)
    ensures TwinTwigs(o, center, adj) == KeepAdmitted(o, TwinTwigs(NoPruning, center, adj))
  {
    EmitIsPrunedFilter(o, TwinTwigPairs(adj), center);
  }

  /** Exactly which records the stage-one mapper writes: twin-twig 1 pairs
      L[i], L[j] (i < j) only for the first-add record; when G0 is empty,
      twin-twig 3 pairs G1[i], G1[k] (i < k) and twin-twig 2 pairs
      G1[i], L[j]; otherwise only pairs G0[i], G1[j]; each with the center
      as value and only if pruning admits it. */
  lemma TwinTwigsMembership(o: Pruning, center: int, adj: AdjList, x: Candidate)
    ensures x in TwinTwigs(o, center, adj)
        <==> x.center == center && |x.pair| == 2 && Admits(o, x.pair[0], x.pair[1])
             && var p := (x.pair[0], x.pair[1]);
                || (adj.isFirstAdd && FromWithin(adj.larger, p))
                || (|adj.smallerG0| == 0 && (FromWithin(adj.smallerG1, p) || FromCross(adj.smallerG1, adj.larger, p)))
                || (|adj.smallerG0| > 0 && FromCross(adj.smallerG0, adj.smallerG1, p))
  {
    EmitMembership(o, TwinTwigPairs(adj), center, x);
    if |x.pair| == 2 {
      var p := (x.pair[0], x.pair[1]);
      WithinMembership(adj.larger, p);
      WithinAndAcrossMembership(adj.smallerG1, adj.larger, p);
      CrossMembership(adj.smallerG0, adj.smallerG1, p);
    }
  }

  /** Pruning never loses a true candidate: if the filter has no false
      negatives on a reference set, every unpruned record whose pair is in
      that set is still written with pruning enabled. */
  lemma TwinTwigsPruningSound(o: Pruning, reference: set<(int, int)>, center: int, adj: AdjList, x: Candidate)
    requires NoFalseNegatives(o, reference)
    requires x in TwinTwigs(NoPruning, center, adj)
    requires |x.pair| == 2 && (x.pair[0], x.pair[1]) in reference
    ensures x in TwinTwigs(o, center, adj)
  {
    EmitMembership(NoPruning, TwinTwigPairs(adj), center, x);
    EmitMembership(o, TwinTwigPairs(adj), center, x);
  }

  // ============================================================ stage-one reduce

  /** The swap at the heart of the stage-one reducer: the two centers in
      ascending order. */
  function Ascending(p: Pair): (r: VertexArray)
    ensures |r| == 2 && r[0] <= r[1]
    ensures multiset(r) == multiset{p.0, p.1}
  {
    if p.0 > p.1 then [p.1, p.0] else [p.0, p.1]
  }

  /** Each pair of centers written under the unchanged group key. */
  function Keyed(key: VertexArray, ps: seq<Pair>): (r: seq<(VertexArray, VertexArray)>)
    ensures |r| == |ps|
    ensures forall k :: 0 <= k < |ps| ==> r[k] == (key, Ascending(ps[k]))
  {
    seq(|ps|, k requires 0 <= k < |ps| => (key, Ascending(ps[k])))
  }

  lemma KeyedAppend(key: VertexArray, p: seq<Pair>, q: seq<Pair>)
    ensures Keyed(key, p + q) == Keyed(key, p) + Keyed(key, q)
  {
  }

  /** What the stage-one reducer writes for one group: every index pair
      i < j of the centers, in lexicographic order, ascending, keyed by the
      group key. */
  function CenterPairs(key: VertexArray, centers: seq<int>): seq<(VertexArray, VertexArray)>
  {
    Keyed(key, Within(centers))
  }

  lemma KeyedRowSnoc(key: VertexArray, a: int, t: seq<int>, j: nat)
    requires j < |t|
    ensures Keyed(key, Row(a, t[..j + 1])) == Keyed(key, Row(a, t[..j])) + [(key, Ascending((a, t[j])))]
  {
    RowSnoc(a, t, 0, j);
    KeyedAppend(key, Row(a, t[..j]), [(a, t[j])]);
  }

  /** The inner pairing loop of the stage-one reducer for one center a
      against the centers t after it: each pair swapped into ascending
      order, under the unchanged key. */
  method PairRow(key: VertexArray, a: int, t: seq<int>) returns (out: seq<(VertexArray, VertexArray)>)
    ensures out == Keyed(key, Row(a, t))
  {
    out := [];
    var j := 0;
    assert Row(a, t[..j]) == [];
    while j < |t|
      invariant 0 <= j <= |t|
      invariant out == Keyed(key, Row(a, t[..j]))
    {
      var first, second := a, t[j];
      if first > second {
        first, second := second, first;
      }
      KeyedRowSnoc(key, a, t, j);
      out := out + [(key, [first, second])];
      j := j + 1;
    }
    assert t[..j] == t;
  }

  /** The pairing loops of the stage-one reducer over the collected
      centers ttArray: for each i < j, the two centers, swapped into
      ascending order, under the unchanged key. */
  method PairCenters(key: VertexArray, ttArray: seq<int>) returns (out: seq<(VertexArray, VertexArray)>)
    ensures out == CenterPairs(key, ttArray)
  {
    out := [];
    var i := 0;
    while i < |ttArray| - 1
      invariant 0 <= i <= |ttArray|
      invariant i > 0 ==> i <= |ttArray| - 1
      invariant out == Keyed(key, WithinUpTo(ttArray, i))
    {
      var row := PairRow(key, ttArray[i], ttArray[i + 1..]);
      KeyedAppend(key, WithinUpTo(ttArray, i), Row(ttArray[i], ttArray[i + 1..]));
      out := out + row;
      i := i + 1;
    }
    if |ttArray| > 0 {
      WithinUpToLastRow(ttArray);
    }
  }

  /** ChordalSquareStageOneReducer, with its reused buffer ttList. */
  class StageOneReducer {
    var ttList: seq<int>

    /** setup: a fresh, empty buffer. */
    constructor ()
      ensures ttList == []
    {
      ttList := [];
    }

    /** reduce: clear the buffer, collect the group's centers into it, then
        pair them. The output depends only on the current group. */
    method Reduce(key: VertexArray, values: seq<int>) returns (out: seq<(VertexArray, VertexArray)>)
      modifies this
      ensures ttList == values
      ensures out == CenterPairs(key, values)
    {
      ttList := [];
      var n := 0;
      while n < |values|
        invariant 0 <= n <= |values|
        invariant ttList == values[..n]
      {
        ttList := ttList + [values[n]];
        n := n + 1;
      }
      assert values[..n] == values;
      out := PairCenters(key, ttList);
    }
  }

  /** A group of n centers yields exactly n(n-1)/2 records. */
  lemma CenterPairsCount(key: VertexArray, centers: seq<int>)
    ensures |CenterPairs(key, centers)| == |centers| * (|centers| - 1) / 2
  {
    WithinLength(centers);
  }

  /** Exactly one record per index pair i < j: the key unchanged and the
      two centers in ascending order. */
  lemma CenterPairsMembership(key: VertexArray, centers: seq<int>, r: (VertexArray, VertexArray))
    ensures r in CenterPairs(key, centers)
        <==> exists i, j :: 0 <= i < j < |centers| && r == (key, Ascending((centers[i], centers[j])))
  {
    var ps := Within(centers);
    if r in CenterPairs(key, centers) {
      var k :| 0 <= k < |ps| && CenterPairs(key, centers)[k] == r;
      WithinMembership(centers, ps[k]);
    }
    if exists i, j :: 0 <= i < j < |centers| && r == (key, Ascending((centers[i], centers[j]))) {
      var i, j :| 0 <= i < j < |centers| && r == (key, Ascending((centers[i], centers[j])));
      WithinMembership(centers, (centers[i], centers[j]));
      var k :| 0 <= k < |ps| && ps[k] == (centers[i], centers[j]);
      assert CenterPairs(key, centers)[k] == r;
    }
  }

  /** The records come in lexicographic (i, j) order: the pair of centers
      i < j is record number RowStart(n, i) + (j - i - 1), that is
      i(2n - i - 1)/2 + (j - i - 1). */
  lemma CenterPairsOrder(key: VertexArray, centers: seq<int>, i: nat, j: nat)
    requires i < j < |centers|
    ensures RowStart(|centers|, i) + (j - i - 1) < |CenterPairs(key, centers)|
    ensures CenterPairs(key, centers)[RowStart(|centers|, i) + (j - i - 1)]
         == (key, Ascending((centers[i], centers[j])))
    ensures 2 * RowStart(|centers|, i) == i * (2 * |centers| - i - 1)
  {
    WithinPosition(centers, i, j);
    RowStartClosedForm(|centers|, i);
  }

  // ================================================================ stage two

  /** ChordalSquareStageTwoMapper.map: a stage-one record re-tagged LARGE
      under the same key, with the same value. */
  function CandidateToLarge(key: VertexArray, value: VertexArray): (r: SignedRecord)
    ensures r.sign == Large && r.key == key && r.value == value
  {
    SignedRecord(Large, key, value)
  }

  /** ChordalSquareEdgeMapper.map: the edge (a, b) tagged SMALL, with an
      empty value. */
  function EdgeToSmall(a: int, b: int): (r: SignedRecord)
    ensures r.sign == Small && r.key == [a, b] && r.value == []
  {
    SignedRecord(Small, [a, b], [])
  }

  /** The stage-two mapper applied to each stage-one output record. */
  function RetagCandidates(rs: seq<(VertexArray, VertexArray)>): (g: seq<SignedRecord>)
    ensures |g| == |rs|
    ensures forall k :: 0 <= k < |rs| ==> g[k] == CandidateToLarge(rs[k].0, rs[k].1)
  {
    seq(|rs|, k requires 0 <= k < |rs| => CandidateToLarge(rs[k].0, rs[k].1))
  }

  /** The reducer reads the first two elements of the key and of the value
      of every LARGE record. */
  predicate LargeShaped(g: seq<SignedRecord>)
  {
    forall i :: 0 <= i < |g| && g[i].sign == Large ==> |g[i].key| >= 2 && |g[i].value| >= 2
  }

  /** The 4-tuple [v.first, k.first, v.second, k.second] built for one LARGE
      record. */
  function Square(r: SignedRecord): VertexArray
    requires |r.key| >= 2 && |r.value| >= 2
  {
    [r.value[0], r.key[0], r.value[1], r.key[1]]
  }

  /** One 4-tuple per LARGE record, in delivery order; nothing for SMALL. */
  function SquaresOfLarge(g: seq<SignedRecord>): seq<VertexArray>
    requires LargeShaped(g)
  {
    if g == [] then []
    else SquaresOfLarge(g[..|g| - 1]) + (if g[|g| - 1].sign == Small then [] else [Square(g[|g| - 1])])
  }

  /** What ChordalSquareStageTwoReducer writes for one group. */
  function StageTwoJoin(g: seq<SignedRecord>): seq<VertexArray>
    requires LeadsSmall(g) ==> LargeShaped(g)
  {
    if LeadsSmall(g) then SquaresOfLarge(g) else []
  }

  /** ChordalSquareStageTwoReducer.reduce: nothing unless the group's first
      record is SMALL; then one 4-tuple per LARGE record, reading each
      record's own sign and key. No buffering of the SMALL side. */
  method StageTwoReduce(g: seq<SignedRecord>) returns (out: seq<VertexArray>)
    requires LeadsSmall(g) ==> LargeShaped(g)
    ensures out == StageTwoJoin(g)
  {
    out := [];
    if |g| == 0 || g[0].sign != Small {
      return;
    }
    for i := 0 to |g|
      invariant out == SquaresOfLarge(g[..i])
    {
      assert g[..i + 1][..i] == g[..i];
      if g[i].sign == Small {
        continue;
      }
      var key, value := g[i].key, g[i].value;
      out := out + [[value[0], key[0], value[1], key[1]]];
    }
    assert g[..|g|] == g;
  }

  /** What ChordalSquareStageTwoCountReducer writes for one group. */
  function StageTwoCount(g: seq<SignedRecord>): seq<int>
  {
    if LeadsSmall(g) && CountLarge(g) > 0 then [CountLarge(g)] else []
  }

  /** ChordalSquareStageTwoCountReducer.reduce: nothing unless the group's
      first record is SMALL; then the number of LARGE records, written only
      when it is positive. */
  method StageTwoCountReduce(g: seq<SignedRecord>) returns (out: seq<int>)
    ensures out == StageTwoCount(g)
  {
    out := [];
    if |g| == 0 || g[0].sign != Small {
      return;
    }
    var count := 0;
    for i := 0 to |g|
      invariant count == CountLarge(g[..i])
    {
      assert g[..i + 1][..i] == g[..i];
      if g[i].sign == Small {
        continue;
      }
      count := count + 1;
    }
    assert g[..|g|] == g;
    if count > 0 {
      out := [count];
    }
  }

  // ------------------------------------------------- stage-two properties

  lemma {:induction false} SquaresOfLargeLength(g: seq<SignedRecord>)
    requires LargeShaped(g)
    ensures |SquaresOfLarge(g)| == CountLarge(g)
  {
    if g != [] {
      SquaresOfLargeLength(g[..|g| - 1]);
    }
  }

  lemma {:induction false} SquaresOfLargeMembership(g: seq<SignedRecord>, t: VertexArray)
    requires LargeShaped(g)
    ensures t in SquaresOfLarge(g) <==> exists j :: 0 <= j < |g| && g[j].sign == Large && t == Square(g[j])
  {
    if g != [] {
      var init := g[..|g| - 1];
      SquaresOfLargeMembership(init, t);
      if exists j :: 0 <= j < |g| && g[j].sign == Large && t == Square(g[j]) {
        var j :| 0 <= j < |g| && g[j].sign == Large && t == Square(g[j]);
        if j < |g| - 1 {
          assert init[j] == g[j];
        }
      }
    }
  }

  /** The materialising reducer writes nothing for a group that does not
      start SMALL, and otherwise exactly one 4-tuple
      [v.first, k.first, v.second, k.second] per LARGE record. */
  lemma StageTwoJoinMeaning(g: seq<SignedRecord>, t: VertexArray)
    requires LeadsSmall(g) ==> LargeShaped(g)
    ensures |StageTwoJoin(g)| == if LeadsSmall(g) then CountLarge(g) else 0
    ensures t in StageTwoJoin(g)
        <==> LeadsSmall(g) && exists j :: 0 <= j < |g| && g[j].sign == Large && t == Square(g[j])
  {
    if LeadsSmall(g) {
      SquaresOfLargeLength(g);
      SquaresOfLargeMembership(g, t);
    }
  }

  /** Count/materialise equivalence: the count reducer writes the number of
      4-tuples the materialising reducer writes on the same group, and
      nothing exactly when that number is zero. */
  lemma CountMatchesMaterialised(g: seq<SignedRecord>)
    requires LeadsSmall(g) ==> LargeShaped(g)
    ensures StageTwoCount(g) == if |StageTwoJoin(g)| > 0 then [|StageTwoJoin(g)|] else []
  {
    if LeadsSmall(g) {
      SquaresOfLargeLength(g);
    }
  }

  lemma {:induction false} SquaresOfLargeAppend(a: seq<SignedRecord>, b: seq<SignedRecord>)
    requires LargeShaped(a) && LargeShaped(b)
    ensures LargeShaped(a + b)
    ensures SquaresOfLarge(a + b) == SquaresOfLarge(a) + SquaresOfLarge(b)
  {
    if b == [] {
      assert a + b == a;
    } else {
      assert (a + b)[..|a + b| - 1] == a + b[..|b| - 1];
      SquaresOfLargeAppend(a, b[..|b| - 1]);
    }
  }

  lemma {:induction false} SquaresOfAllSmall(g: seq<SignedRecord>)
    requires forall i :: 0 <= i < |g| ==> g[i].sign == Small
    ensures LargeShaped(g) && SquaresOfLarge(g) == []
  {
    if g != [] {
      SquaresOfAllSmall(g[..|g| - 1]);
    }
  }

  /** No buffering: however many SMALL (edge) records share the pair, the
      reducer writes one 4-tuple per LARGE record, the same output as for a
      single edge record. */
  lemma StageTwoIgnoresSmallMultiplicity(smalls: seq<SignedRecord>, larges: seq<SignedRecord>)
    requires |smalls| > 0 && forall i :: 0 <= i < |smalls| ==> smalls[i].sign == Small
    requires LargeShaped(larges)
    ensures LeadsSmall(smalls + larges) && LargeShaped(smalls + larges)
    ensures StageTwoJoin(smalls + larges) == SquaresOfLarge(larges)
    ensures StageTwoJoin(smalls + larges) == StageTwoJoin([smalls[0]] + larges)
  {
    SquaresOfAllSmall(smalls);
    SquaresOfAllSmall([smalls[0]]);
    SquaresOfLargeAppend(smalls, larges);
    SquaresOfLargeAppend([smalls[0]], larges);
  }

  /** The final squares for one outer pair (a, b) and the candidate pairs ps
      built from its centers: [c, a, c', b] with c <= c'. */
  function SquaresFor(a: int, b: int, ps: seq<Pair>): (r: seq<VertexArray>)
    ensures |r| == |ps|
    ensures forall k :: 0 <= k < |ps| ==> r[k] == [Ascending(ps[k])[0], a, Ascending(ps[k])[1], b]
  {
    seq(|ps|, k requires 0 <= k < |ps| => [Ascending(ps[k])[0], a, Ascending(ps[k])[1], b])
  }

  lemma {:induction false} SquaresOfAllLarge(g: seq<SignedRecord>)
    requires forall i :: 0 <= i < |g| ==> g[i].sign == Large && |g[i].key| >= 2 && |g[i].value| >= 2
    ensures LargeShaped(g)
    ensures |SquaresOfLarge(g)| == |g|
    ensures forall k :: 0 <= k < |g| ==> SquaresOfLarge(g)[k] == Square(g[k])
  {
    if g != [] {
      SquaresOfAllLarge(g[..|g| - 1]);
    }
  }

  lemma SquaresOfRetagged(key: VertexArray, ps: seq<Pair>)
    requires |key| == 2
    ensures LargeShaped(RetagCandidates(Keyed(key, ps)))
    ensures SquaresOfLarge(RetagCandidates(Keyed(key, ps))) == SquaresFor(key[0], key[1], ps)
  {
    var rs := Keyed(key, ps);
    var g := RetagCandidates(rs);
    forall i | 0 <= i < |g|
      ensures g[i].sign == Large && |g[i].key| >= 2 && |g[i].value| >= 2
    {
      assert g[i] == CandidateToLarge(rs[i].0, rs[i].1);
    }
    SquaresOfAllLarge(g);
    var squares := SquaresOfLarge(g);
    var r := SquaresFor(key[0], key[1], ps);
    forall k | 0 <= k < |ps|
      ensures squares[k] == r[k]
    {
      assert rs[k] == (key, Ascending(ps[k]));
      assert g[k] == CandidateToLarge(key, Ascending(ps[k]));
    }
    assert squares == r;
  }

  /** The two chordal-square stages composed on one outer pair (a, b): the
      stage-one reducer pairs the centers, the stage-two mappers tag the
      pairs LARGE and the edge (a, b) SMALL, and the stage-two reducer then
      writes one square [c, a, c', b] (c <= c') per index pair of centers,
      C(n, 2) of them, in lexicographic order. */
  lemma ChordalPipelineOnPair(a: int, b: int, centers: seq<int>)
    ensures var g := [EdgeToSmall(a, b)] + RetagCandidates(CenterPairs([a, b], centers));
            && LargeShaped(g)
            && StageTwoJoin(g) == SquaresFor(a, b, Within(centers))
            && |StageTwoJoin(g)| == |centers| * (|centers| - 1) / 2
  {
    var larges := RetagCandidates(CenterPairs([a, b], centers));
    SquaresOfRetagged([a, b], Within(centers));
    StageTwoIgnoresSmallMultiplicity([EdgeToSmall(a, b)], larges);
    WithinLength(centers);
  }
}
