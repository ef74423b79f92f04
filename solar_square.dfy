/** The record-level bodies of the solar-square jobs: stage two joins each
    twin-twig (center v0 over the pair (v1, v3)) with the chordal squares
    whose centers are (v1, v3), producing 5-tuples [v0, v1, v2, v3, v4];
    stage three re-keys those 5-tuples on (v0, v2, v4) and joins them with
    the twin-twigs on that key. */
module SolarSquare {
  import opened Records
  import opened MergeJoin

  // ================================================================ stage two

  /** SolarSquareStageTwoMapper2.map: a chordal square [t0, t1, t2, t3]
      re-keyed LARGE on (t0, t2) with value (t1, t3). */
  function ChordalToLarge(t: VertexArray): (r: SignedRecord)
    requires |t| >= 4
    ensures r.sign == Large && |r.key| == 2 && |r.value| == 2
    ensures [r.key[0], r.value[0], r.key[1], r.value[1]] == t[..4]
  {
    SignedRecord(Large, [t[0], t[2]], [t[1], t[3]])
  }

  /** The reducer reads the first element of every SMALL value and the
      first two of every LARGE value. */
  predicate ValuesShaped(g: seq<SignedRecord>)
  {
    forall i :: 0 <= i < |g| ==>
      (g[i].sign == Small ==> |g[i].value| >= 1) && (g[i].sign == Large ==> |g[i].value| >= 2)
  }

  /** What the reducer reads of a group it does not return from at once. */
  predicate StageTwoShaped(g: seq<SignedRecord>)
  {
    LeadsSmall(g) ==> |g[0].key| >= 2 && ValuesShaped(g)
  }

  /** The list buffer after the records of g: the first element of every
      SMALL value, in delivery order. */
  function Buffered(g: seq<SignedRecord>): seq<int>
    requires ValuesShaped(g)
  {
    if g == [] then []
    else Buffered(g[..|g| - 1]) + (if g[|g| - 1].sign == Small then [g[|g| - 1].value[0]] else [])
  }

  /** A Bloom test on the unordered pair {x, y}, smaller endpoint first. */
  predicate AdmitsEither(o: Pruning, x: int, y: int)
  {
    if x < y then Admits(o, x, y) else Admits(o, y, x)
  }

  /** Which Bloom tests decide whether a 5-tuple is written. */
  datatype TestPolicy =
    | LastTestOnly  // the test on (v0, v4) alone, as the reducer is written
    | BothTests     // the tests on (v0, v2) and on (v0, v4)

  predicate Passes(o: Pruning, policy: TestPolicy, v0: int, v2: int, v4: int)
  {
    match policy
    case LastTestOnly => AdmitsEither(o, v0, v4)
    case BothTests => AdmitsEither(o, v0, v2) && AdmitsEither(o, v0, v4)
  }

  /** One LARGE record (v2, v4) against the buffered centers: a 5-tuple per
      buffered v0 that passes the tests, in buffer order. */
  function Expand(o: Pruning, policy: TestPolicy, buf: seq<int>, v1: int, v2: int, v3: int, v4: int): seq<VertexArray>
  {
    if buf == [] then []
    else
      Expand(o, policy, buf[..|buf| - 1], v1, v2, v3, v4)
      + (if Passes(o, policy, buf[|buf| - 1], v2, v4) then [[buf[|buf| - 1], v1, v2, v3, v4]] else [])
  }

  /** The 5-tuples written while the records of g are read in order: each
      LARGE record expands against the SMALL records delivered before it. */
  function JoinSteps(o: Pruning, policy: TestPolicy, v1: int, v3: int, g: seq<SignedRecord>): seq<VertexArray>
    requires ValuesShaped(g)
  {
    if g == [] then []
    else
      var init, r := g[..|g| - 1], g[|g| - 1];
      JoinSteps(o, policy, v1, v3, init)
      + (if r.sign == Small then [] else Expand(o, policy, Buffered(init), v1, r.value[0], v3, r.value[1]))
  }

  /** What SolarSquareStageTwoReducer writes for one group, as written:
      only the (v0, v4) Bloom test decides. */
  function StageTwoJoin(o: Pruning, g: seq<SignedRecord>): seq<VertexArray>
    requires StageTwoShaped(g)
  {
    if LeadsSmall(g) then JoinSteps(o, LastTestOnly, g[0].key[0], g[0].key[1], g) else []
  }

  /** The same join with both Bloom tests deciding. */
  function StageTwoJoinBothTests(o: Pruning, g: seq<SignedRecord>): seq<VertexArray>
    requires StageTwoShaped(g)
  {
    if LeadsSmall(g) then JoinSteps(o, BothTests, g[0].key[0], g[0].key[1], g) else []
  }

  /** The inner loop of the reducer for one LARGE record. The source keeps
      isOutput across iterations; it is reassigned before every use when
      pruning is on and stays true when it is off, so a fresh local has the
      same effect. */
  method ExpandLarge(o: Pruning, buf: seq<int>, v1: int, v2: int, v3: int, v4: int) returns (rows: seq<VertexArray>)
    ensures rows == Expand(o, LastTestOnly, buf, v1, v2, v3, v4)
  {
    rows := [];
    var isOutput := true;
    var k := 0;
    while k < |buf|
      invariant 0 <= k <= |buf|
      invariant rows == Expand(o, LastTestOnly, buf[..k], v1, v2, v3, v4)
      invariant o.NoPruning? ==> isOutput
    {
      assert buf[..k + 1][..k] == buf[..k];
      var v0 := buf[k];
      if o.Bloom? {
        if v0 < v2 {
          isOutput := o.test(o.vertexId(v0), o.vertexId(v2));
        } else {
          isOutput := o.test(o.vertexId(v2), o.vertexId(v0));
        }
        if v0 < v4 {
          isOutput := o.test(o.vertexId(v0), o.vertexId(v4));
        } else {
          isOutput := o.test(o.vertexId(v4), o.vertexId(v0));
        }
      }
      if isOutput {
        rows := rows + [[v0, v1, v2, v3, v4]];
      }
      k := k + 1;
    }
    assert buf[..|buf|] == buf;
  }

  /** SolarSquareStageTwoReducer: the static list buffer and the pruning
      chosen at setup. */
  class SolarStageTwoReducer {
    var list: seq<int>
    const pruning: Pruning

    /** setup: an empty buffer and the job's pruning. */
    constructor(o: Pruning)
      ensures list == [] && pruning == o
    {
      list := [];
      pruning := o;
    }

    /** reduce: returns at once, buffer untouched, unless the group's first
        record is SMALL; otherwise clears the buffer, appends each SMALL
        value's first element, and expands each LARGE record against what
        is buffered so far. */
    method Reduce(g: seq<SignedRecord>) returns (out: seq<VertexArray>)
      requires StageTwoShaped(g)
      modifies this
      ensures list == (if LeadsSmall(g) then Buffered(g) else old(list))
      ensures out == StageTwoJoin(pruning, g)
    {
      out := [];
      if |g| == 0 || g[0].sign != Small {
        return;
      }
      list := [];
      var v1, v3 := g[0].key[0], g[0].key[1];
      for i := 0 to |g|
        invariant list == Buffered(g[..i])
        invariant out == JoinSteps(pruning, LastTestOnly, v1, v3, g[..i])
      {
        assert g[..i + 1][..i] == g[..i];
        if g[i].sign == Small {
          list := list + [g[i].value[0]];
        } else {
          var rows := ExpandLarge(pruning, list, v1, g[i].value[0], v3, g[i].value[1]);
          out := out + rows;
        }
      }
      assert g[..|g|] == g;
    }
  }

  // ------------------------------------------------- stage-two properties

  /** The buffer holds one center per SMALL record. */
  lemma {:induction false} BufferedLength(g: seq<SignedRecord>)
    requires ValuesShaped(g)
    ensures |Buffered(g)| == CountSmall(g)
  {
    if g != [] {
      BufferedLength(g[..|g| - 1]);
    }
  }

  /** A center is buffered exactly when some SMALL record carries it. */
  lemma {:induction false} BufferedMembership(g: seq<SignedRecord>, v: int)
    requires ValuesShaped(g)
    ensures v in Buffered(g) <==> exists i :: 0 <= i < |g| && g[i].sign == Small && g[i].value[0] == v
  {
    if g != [] {
      var init := g[..|g| - 1];
      BufferedMembership(init, v);
      if exists i :: 0 <= i < |g| && g[i].sign == Small && g[i].value[0] == v {
        var i :| 0 <= i < |g| && g[i].sign == Small && g[i].value[0] == v;
        if i < |g| - 1 {
          assert init[i] == g[i];
        }
      }
    }
  }

  lemma {:induction false} ExpandMembership(o: Pruning, policy: TestPolicy, buf: seq<int>,
                                            v1: int, v2: int, v3: int, v4: int, t: VertexArray)
    ensures t in Expand(o, policy, buf, v1, v2, v3, v4)
        <==> |t| == 5 && t[0] in buf && t == [t[0], v1, v2, v3, v4] && Passes(o, policy, t[0], v2, v4)
  {
    if buf != [] {
      ExpandMembership(o, policy, buf[..|buf| - 1], v1, v2, v3, v4, t);
      assert buf == buf[..|buf| - 1] + [buf[|buf| - 1]];
    }
  }

  lemma {:induction false} ExpandUnprunedLength(policy: TestPolicy, buf: seq<int>, v1: int, v2: int, v3: int, v4: int)
    ensures |Expand(NoPruning, policy, buf, v1, v2, v3, v4)| == |buf|
  {
    if buf != [] {
      ExpandUnprunedLength(policy, buf[..|buf| - 1], v1, v2, v3, v4);
    }
  }

  /** The 5-tuple for SMALL record i and LARGE record j under key (v1, v3). */
  ghost predicate JoinedAt(o: Pruning, policy: TestPolicy, v1: int, v3: int,
                           g: seq<SignedRecord>, i: int, j: int, t: VertexArray)
    requires ValuesShaped(g)
  {
    0 <= i < j < |g| && g[i].sign == Small && g[j].sign == Large
    && t == [g[i].value[0], v1, g[j].value[0], v3, g[j].value[1]]
    && Passes(o, policy, g[i].value[0], g[j].value[0], g[j].value[1])
  }

  lemma JoinedAtPrefix(o: Pruning, policy: TestPolicy, v1: int, v3: int,
                       g: seq<SignedRecord>, n: nat, i: int, j: int, t: VertexArray)
    requires ValuesShaped(g) && n <= |g| && j < n
    ensures ValuesShaped(g[..n])
    ensures JoinedAt(o, policy, v1, v3, g[..n], i, j, t) <==> JoinedAt(o, policy, v1, v3, g, i, j, t)
  {
    if 0 <= i < j {
      assert g[..n][i] == g[i] && g[..n][j] == g[j];
    }
  }

  /** Every written 5-tuple comes from a SMALL record and a LARGE record
      delivered after it. */
  lemma {:induction false} JoinStepsSound(o: Pruning, policy: TestPolicy, v1: int, v3: int,
                                          g: seq<SignedRecord>, t: VertexArray)
    requires ValuesShaped(g)
    requires t in JoinSteps(o, policy, v1, v3, g)
    ensures exists i, j :: JoinedAt(o, policy, v1, v3, g, i, j, t)
  {
    var init, r := g[..|g| - 1], g[|g| - 1];
    if t in JoinSteps(o, policy, v1, v3, init) {
      JoinStepsSound(o, policy, v1, v3, init, t);
      var i, j :| JoinedAt(o, policy, v1, v3, init, i, j, t);
      JoinedAtPrefix(o, policy, v1, v3, g, |g| - 1, i, j, t);
    } else {
      assert r.sign == Large && t in Expand(o, policy, Buffered(init), v1, r.value[0], v3, r.value[1]);
      ExpandMembership(o, policy, Buffered(init), v1, r.value[0], v3, r.value[1], t);
      BufferedMembership(init, t[0]);
      var i :| 0 <= i < |init| && init[i].sign == Small && init[i].value[0] == t[0];
      assert g[i] == init[i];
      assert JoinedAt(o, policy, v1, v3, g, i, |g| - 1, t);
    }
  }

  /** Every SMALL/LARGE pair in delivery order that passes the tests is
      written. */
  lemma {:induction false} JoinStepsComplete(o: Pruning, policy: TestPolicy, v1: int, v3: int,
                                             g: seq<SignedRecord>, i: int, j: int, t: VertexArray)
    requires ValuesShaped(g)
    requires JoinedAt(o, policy, v1, v3, g, i, j, t)
    ensures t in JoinSteps(o, policy, v1, v3, g)
  {
    var init, r := g[..|g| - 1], g[|g| - 1];
    if j < |g| - 1 {
      JoinedAtPrefix(o, policy, v1, v3, g, |g| - 1, i, j, t);
      JoinStepsComplete(o, policy, v1, v3, init, i, j, t);
    } else {
      assert init[i] == g[i];
      BufferedMembership(init, t[0]);
      ExpandMembership(o, policy, Buffered(init), v1, r.value[0], v3, r.value[1], t);
    }
  }

  /** The stage-two reducer writes exactly the 5-tuples
      [v0, v1, v2, v3, v4] where (v1, v3) is the group key, v0 comes from a
      SMALL record and (v2, v4) from a LARGE record delivered after it, and
      the Bloom test on {v0, v4} passes. */
  lemma StageTwoJoinMembership(o: Pruning, g: seq<SignedRecord>, t: VertexArray)
    requires StageTwoShaped(g)
    ensures t in StageTwoJoin(o, g)
        <==> LeadsSmall(g)
             && exists i, j :: 0 <= i < j < |g| && g[i].sign == Small && g[j].sign == Large
                  && t == [g[i].value[0], g[0].key[0], g[j].value[0], g[0].key[1], g[j].value[1]]
                  && AdmitsEither(o, g[i].value[0], g[j].value[1])
  {
    if LeadsSmall(g) {
      var v1, v3 := g[0].key[0], g[0].key[1];
      if t in StageTwoJoin(o, g) {
        JoinStepsSound(o, LastTestOnly, v1, v3, g, t);
        var i, j :| JoinedAt(o, LastTestOnly, v1, v3, g, i, j, t);
        assert 0 <= i < j < |g| && g[i].sign == Small && g[j].sign == Large
          && t == [g[i].value[0], g[0].key[0], g[j].value[0], g[0].key[1], g[j].value[1]]
          && AdmitsEither(o, g[i].value[0], g[j].value[1]);
      }
      if exists i, j :: 0 <= i < j < |g| && g[i].sign == Small && g[j].sign == Large
           && t == [g[i].value[0], g[0].key[0], g[j].value[0], g[0].key[1], g[j].value[1]]
           && AdmitsEither(o, g[i].value[0], g[j].value[1]) {
        var i, j :| 0 <= i < j < |g| && g[i].sign == Small && g[j].sign == Large
          && t == [g[i].value[0], g[0].key[0], g[j].value[0], g[0].key[1], g[j].value[1]]
          && AdmitsEither(o, g[i].value[0], g[j].value[1]);
        JoinStepsComplete(o, LastTestOnly, v1, v3, g, i, j, t);
      }
    }
  }

  lemma {:induction false} JoinStepsUnprunedLength(policy: TestPolicy, v1: int, v3: int, g: seq<SignedRecord>)
    requires ValuesShaped(g)
    ensures |JoinSteps(NoPruning, policy, v1, v3, g)| == SmallLargePairs(g)
  {
    if g != [] {
      var init, r := g[..|g| - 1], g[|g| - 1];
      JoinStepsUnprunedLength(policy, v1, v3, init);
      if r.sign == Large {
        ExpandUnprunedLength(policy, Buffered(init), v1, r.value[0], v3, r.value[1]);
        BufferedLength(init);
      }
    }
  }

  /** Without pruning the reducer writes one 5-tuple per SMALL/LARGE index
      pair in delivery order; when SMALL records come first, that is the
      full cross product of the two sides. */
  lemma StageTwoUnprunedCount(g: seq<SignedRecord>)
    requires StageTwoShaped(g) && LeadsSmall(g)
    ensures |StageTwoJoin(NoPruning, g)| == SmallLargePairs(g)
    ensures SmallBeforeLarge(g) ==> |StageTwoJoin(NoPruning, g)| == CountSmall(g) * CountLarge(g)
  {
    JoinStepsUnprunedLength(LastTestOnly, g[0].key[0], g[0].key[1], g);
    if SmallBeforeLarge(g) {
      OrderedPairsAreCrossProduct(g);
    }
  }

  /** The 5-tuples of ts that pass the tests, in order. */
  function KeepPassing(o: Pruning, policy: TestPolicy, ts: seq<VertexArray>): (r: seq<VertexArray>)
    ensures |r| <= |ts|
  {
    if ts == [] then []
    else
      var t := ts[|ts| - 1];
      KeepPassing(o, policy, ts[..|ts| - 1])
      + (if |t| == 5 && Passes(o, policy, t[0], t[2], t[4]) then [t] else [])
  }

  lemma {:induction false} KeepPassingAppend(o: Pruning, policy: TestPolicy, a: seq<VertexArray>, b: seq<VertexArray>)
    ensures KeepPassing(o, policy, a + b) == KeepPassing(o, policy, a) + KeepPassing(o, policy, b)
  {
    if b == [] {
      assert a + b == a;
    } else {
      assert (a + b)[..|a + b| - 1] == a + b[..|b| - 1];
      KeepPassingAppend(o, policy, a, b[..|b| - 1]);
    }
  }

  /** KeepPassing keeps exactly the 5-tuples that pass. */
  lemma {:induction false} KeepPassingMembership(o: Pruning, policy: TestPolicy, ts: seq<VertexArray>, t: VertexArray)
    ensures t in KeepPassing(o, policy, ts) <==> t in ts && |t| == 5 && Passes(o, policy, t[0], t[2], t[4])
  {
    if ts != [] {
      KeepPassingMembership(o, policy, ts[..|ts| - 1], t);
      assert ts == ts[..|ts| - 1] + [ts[|ts| - 1]];
    }
  }

  lemma {:induction false} ExpandIsFilter(o: Pruning, policy: TestPolicy, buf: seq<int>,
                                          v1: int, v2: int, v3: int, v4: int)
    ensures Expand(o, policy, buf, v1, v2, v3, v4)
         == KeepPassing(o, policy, Expand(NoPruning, LastTestOnly, buf, v1, v2, v3, v4))
  {
    if buf != [] {
      var init, v0 := buf[..|buf| - 1], buf[|buf| - 1];
      var t := [v0, v1, v2, v3, v4];
      var rest := Expand(NoPruning, LastTestOnly, init, v1, v2, v3, v4);
      ExpandIsFilter(o, policy, init, v1, v2, v3, v4);
      assert Passes(NoPruning, LastTestOnly, v0, v2, v4);
      assert Expand(NoPruning, LastTestOnly, buf, v1, v2, v3, v4) == rest + [t];
      KeepPassingAppend(o, policy, rest, [t]);
      assert KeepPassing(o, policy, [t]) == if Passes(o, policy, v0, v2, v4) then [t] else [] by {
        var single: seq<VertexArray> := [t];
        assert single[..0] == [];
        assert t[0] == v0 && t[2] == v2 && t[4] == v4 && |t| == 5;
      }
    }
  }

  lemma {:induction false} JoinStepsIsFilter(o: Pruning, policy: TestPolicy, v1: int, v3: int, g: seq<SignedRecord>)
    requires ValuesShaped(g)
    ensures JoinSteps(o, policy, v1, v3, g) == KeepPassing(o, policy, JoinSteps(NoPruning, LastTestOnly, v1, v3, g))
  {
    if g != [] {
      var init, r := g[..|g| - 1], g[|g| - 1];
      JoinStepsIsFilter(o, policy, v1, v3, init);
      if r.sign == Large {
        ExpandIsFilter(o, policy, Buffered(init), v1, r.value[0], v3, r.value[1]);
        KeepPassingAppend(o, policy, JoinSteps(NoPruning, LastTestOnly, v1, v3, init),
                          Expand(NoPruning, LastTestOnly, Buffered(init), v1, r.value[0], v3, r.value[1]));
      } else {
        KeepPassingAppend(o, policy, JoinSteps(NoPruning, LastTestOnly, v1, v3, init), []);
      }
    }
  }

  /** Pruning only filters: the pruned reducer writes, in the same order,
      the unpruned output's 5-tuples whose {v0, v4} test passes, and the
      two-test join those whose {v0, v2} and {v0, v4} tests both pass. */
  lemma StageTwoPruningFilters(o: Pruning, g: seq<SignedRecord>)
    requires StageTwoShaped(g)
    ensures StageTwoJoin(o, g) == KeepPassing(o, LastTestOnly, StageTwoJoin(NoPruning, g))
    ensures StageTwoJoinBothTests(o, g) == KeepPassing(o, BothTests, StageTwoJoin(NoPruning, g))
  {
    if LeadsSmall(g) {
      JoinStepsIsFilter(o, LastTestOnly, g[0].key[0], g[0].key[1], g);
      JoinStepsIsFilter(o, BothTests, g[0].key[0], g[0].key[1], g);
    }
  }

  /** The unordered pair {x, y} is an edge of the reference set. */
  ghost predicate EdgeIn(edges: set<(int, int)>, x: int, y: int)
  {
    (if x < y then (x, y) else (y, x)) in edges
  }

  /** Pruning as written loses no solar square whose {v0, v4} pair is an
      edge: with a filter that has no false negatives on the edge set, every
      unpruned 5-tuple whose {v0, v4} is an edge is still written, and
      nothing outside the unpruned output is. */
  lemma StageTwoPruningSound(o: Pruning, edges: set<(int, int)>, g: seq<SignedRecord>, t: VertexArray)
    requires StageTwoShaped(g) && NoFalseNegatives(o, edges)
    ensures t in StageTwoJoin(o, g) ==> t in StageTwoJoin(NoPruning, g)
    ensures t in StageTwoJoin(NoPruning, g) && |t| == 5 && EdgeIn(edges, t[0], t[4])
            ==> t in StageTwoJoin(o, g)
  {
    StageTwoPruningFilters(o, g);
    KeepPassingMembership(o, LastTestOnly, StageTwoJoin(NoPruning, g), t);
  }

  /** The stage-two mapper and reducer compose: a chordal square
      [t0, t1, t2, t3], re-keyed on (t0, t2), meets a twin-twig with center
      v0 over (t0, t2) and comes back as [v0, t0, t1, t2, t3] when the test
      on {v0, t3} passes. */
  lemma ChordalSquareJoinsBack(o: Pruning, v0: int, t: VertexArray)
    requires |t| >= 4
    ensures var g := [SignedRecord(Small, [t[0], t[2]], [v0]), ChordalToLarge(t)];
            && StageTwoShaped(g)
            && StageTwoJoin(o, g) == (if AdmitsEither(o, v0, t[3]) then [[v0] + t[..4]] else [])
  {
    var g := [SignedRecord(Small, [t[0], t[2]], [v0]), ChordalToLarge(t)];
    assert g[..1] == [g[0]];
    assert [g[0]][..0] == [];
    assert Buffered(g[..1]) == [v0];
    assert JoinSteps(o, LastTestOnly, t[0], t[2], g[..1]) == [];
    assert [v0][..0] == [];
    assert Expand(o, LastTestOnly, [v0], t[0], t[1], t[2], t[3])
        == if AdmitsEither(o, v0, t[3]) then [[v0, t[0], t[1], t[2], t[3]]] else [];
    assert [v0] + t[..4] == [v0, t[0], t[1], t[2], t[3]];
  }

  // ------------------------------------------------- the (v0, v2) test

  /** As written, the result of the (v0, v2) test is overwritten by the
      (v0, v4) test: with a filter that rejects every pair ending in 2, the
      group below still yields [0, 1, 2, 3, 4] although the pair {0, 2}
      fails, and the two-test join rejects it. */
  lemma LastBloomTestOverridesFirst()
    ensures var o := Bloom((x: int, y: int) => y != 2, (v: int) => v);
            var g := [SignedRecord(Small, [1, 3], [0]), SignedRecord(Large, [1, 3], [2, 4])];
            && StageTwoShaped(g)
            && !AdmitsEither(o, 0, 2)
            && StageTwoJoin(o, g) == [[0, 1, 2, 3, 4]]
            && StageTwoJoinBothTests(o, g) == []
  {
    var o := Bloom((x: int, y: int) => y != 2, (v: int) => v);
    var g := [SignedRecord(Small, [1, 3], [0]), SignedRecord(Large, [1, 3], [2, 4])];
    assert g[..1] == [g[0]];
    assert [g[0]][..0] == [];
    assert Buffered(g[..1]) == [0];
    assert [0][..0] == [];
    assert JoinSteps(o, LastTestOnly, 1, 3, g[..1]) == [];
    assert JoinSteps(o, BothTests, 1, 3, g[..1]) == [];
    assert Expand(o, LastTestOnly, [0], 1, 2, 3, 4) == [[0, 1, 2, 3, 4]];
    assert Expand(o, BothTests, [0], 1, 2, 3, 4) == [];
  }

  /** The two-test join never writes a 5-tuple the as-written reducer does
      not write. */
  lemma BothTestsWithinAsWritten(o: Pruning, g: seq<SignedRecord>, t: VertexArray)
    requires StageTwoShaped(g)
    ensures t in StageTwoJoinBothTests(o, g) ==> t in StageTwoJoin(o, g)
  {
    if LeadsSmall(g) && t in StageTwoJoinBothTests(o, g) {
      var v1, v3 := g[0].key[0], g[0].key[1];
      JoinStepsSound(o, BothTests, v1, v3, g, t);
      var i, j :| JoinedAt(o, BothTests, v1, v3, g, i, j, t);
      JoinStepsComplete(o, LastTestOnly, v1, v3, g, i, j, t);
    }
  }

  /** With a filter that has no false negatives on the edge set, the
      two-test join keeps every unpruned 5-tuple whose {v0, v2} and
      {v0, v4} are both edges (pruning loses no solar square), and keeps
      only unpruned 5-tuples. */
  lemma BothTestsSound(o: Pruning, edges: set<(int, int)>, g: seq<SignedRecord>, t: VertexArray)
    requires StageTwoShaped(g) && NoFalseNegatives(o, edges)
    ensures t in StageTwoJoinBothTests(o, g) ==> t in StageTwoJoin(NoPruning, g)
    ensures t in StageTwoJoin(NoPruning, g) && |t| == 5 && EdgeIn(edges, t[0], t[2]) && EdgeIn(edges, t[0], t[4])
            ==> t in StageTwoJoinBothTests(o, g)
  {
    if LeadsSmall(g) {
      var v1, v3 := g[0].key[0], g[0].key[1];
      if t in StageTwoJoinBothTests(o, g) {
        JoinStepsSound(o, BothTests, v1, v3, g, t);
        var i, j :| JoinedAt(o, BothTests, v1, v3, g, i, j, t);
        JoinStepsComplete(NoPruning, LastTestOnly, v1, v3, g, i, j, t);
      }
      if t in StageTwoJoin(NoPruning, g) && |t| == 5 && EdgeIn(edges, t[0], t[2]) && EdgeIn(edges, t[0], t[4]) {
        JoinStepsSound(NoPruning, LastTestOnly, v1, v3, g, t);
        var i, j :| JoinedAt(NoPruning, LastTestOnly, v1, v3, g, i, j, t);
        assert AdmitsEither(o, t[0], t[2]) && AdmitsEither(o, t[0], t[4]);
        JoinStepsComplete(o, BothTests, v1, v3, g, i, j, t);
      }
    }
  }

  // ============================================================== stage three

  /** SolarSquareStageThreeMapper2.map: a 5-tuple [t0, t1, t2, t3, t4]
      re-keyed LARGE on (t0, t2, t4) with value (t1, t3). */
  function FiveToLarge(t: VertexArray): (r: SignedRecord)
    requires |t| >= 5
    ensures r.sign == Large && |r.key| == 3 && |r.value| == 2
    ensures [r.key[0], r.value[0], r.key[1], r.value[1], r.key[2]] == t[..5]
  {
    SignedRecord(Large, [t[0], t[2], t[4]], [t[1], t[3]])
  }

  /** The reducer reads first, second and last of every LARGE key and the
      first two elements of every LARGE value. */
  predicate StageThreeShaped(g: seq<SignedRecord>)
  {
    forall i :: 0 <= i < |g| && g[i].sign == Large ==> |g[i].key| >= 2 && |g[i].value| >= 2
  }

  /** The 5-tuple [k.first, v.first, k.second, v.second, k.last] rebuilt from
      one LARGE record. */
  function Assemble(r: SignedRecord): VertexArray
    requires |r.key| >= 2 && |r.value| >= 2
  {
    [r.key[0], r.value[0], r.key[1], r.value[1], r.key[|r.key| - 1]]
  }

  /** One rebuilt 5-tuple per LARGE record, in delivery order. */
  function AssembleLarge(g: seq<SignedRecord>): seq<VertexArray>
    requires StageThreeShaped(g)
  {
    if g == [] then []
    else AssembleLarge(g[..|g| - 1]) + (if g[|g| - 1].sign == Small then [] else [Assemble(g[|g| - 1])])
  }

  /** What SolarSquareStageThreeReducer writes for one group. */
  function StageThreeJoin(g: seq<SignedRecord>): seq<VertexArray>
    requires LeadsSmall(g) ==> StageThreeShaped(g)
  {
    if LeadsSmall(g) then AssembleLarge(g) else []
  }

  /** SolarSquareStageThreeReducer.reduce: nothing unless the group's first
      record is SMALL; then each LARGE record, read with its own key, is
      written back as a 5-tuple; SMALL records are skipped. */
  method StageThreeReduce(g: seq<SignedRecord>) returns (out: seq<VertexArray>)
    requires LeadsSmall(g) ==> StageThreeShaped(g)
    ensures out == StageThreeJoin(g)
  {
    out := [];
    if |g| == 0 || g[0].sign != Small {
      return;
    }
    for i := 0 to |g|
      invariant out == AssembleLarge(g[..i])
    {
      assert g[..i + 1][..i] == g[..i];
      if g[i].sign == Small {
        continue;
      }
      var key, value := g[i].key, g[i].value;
      var v0, v1, v2, v3, v4 := key[0], value[0], key[1], value[1], key[|key| - 1];
      out := out + [[v0, v1, v2, v3, v4]];
    }
    assert g[..|g|] == g;
  }

  // ----------------------------------------------- stage-three properties

  /** Mapper and reducer are inverse on one 5-tuple. */
  lemma AssembleRoundTrip(t: VertexArray)
    requires |t| >= 5
    ensures Assemble(FiveToLarge(t)) == t[..5]
    ensures |t| == 5 ==> Assemble(FiveToLarge(t)) == t
  {
    assert t[..5] == [t[0], t[1], t[2], t[3], t[4]];
  }

  lemma {:induction false} AssembleLargeLength(g: seq<SignedRecord>)
    requires StageThreeShaped(g)
    ensures |AssembleLarge(g)| == CountLarge(g)
  {
    if g != [] {
      AssembleLargeLength(g[..|g| - 1]);
    }
  }

  lemma {:induction false} AssembleLargeMembership(g: seq<SignedRecord>, t: VertexArray)
    requires StageThreeShaped(g)
    ensures t in AssembleLarge(g) <==> exists j :: 0 <= j < |g| && g[j].sign == Large && t == Assemble(g[j])
  {
    if g != [] {
      var init := g[..|g| - 1];
      AssembleLargeMembership(init, t);
      if exists j :: 0 <= j < |g| && g[j].sign == Large && t == Assemble(g[j]) {
        var j :| 0 <= j < |g| && g[j].sign == Large && t == Assemble(g[j]);
        if j < |g| - 1 {
          assert init[j] == g[j];
        }
      }
    }
  }

  /** The stage-three reducer writes nothing for a group that does not start
      SMALL, and otherwise exactly one rebuilt 5-tuple per LARGE record,
      however many SMALL records the group holds. */
  lemma StageThreeJoinMeaning(g: seq<SignedRecord>, t: VertexArray)
    requires LeadsSmall(g) ==> StageThreeShaped(g)
    ensures |StageThreeJoin(g)| == if LeadsSmall(g) then CountLarge(g) else 0
    ensures t in StageThreeJoin(g)
        <==> LeadsSmall(g) && exists j :: 0 <= j < |g| && g[j].sign == Large && t == Assemble(g[j])
  {
    if LeadsSmall(g) {
      AssembleLargeLength(g);
      AssembleLargeMembership(g, t);
    }
  }

  /** The stage-three mapper applied to each stage-two 5-tuple. */
  function RekeyFive(ts: seq<VertexArray>): (g: seq<SignedRecord>)
    requires forall k :: 0 <= k < |ts| ==> |ts[k]| >= 5
    ensures |g| == |ts|
    ensures forall k :: 0 <= k < |ts| ==> g[k] == FiveToLarge(ts[k])
  {
    seq(|ts|, k requires 0 <= k < |ts| => FiveToLarge(ts[k]))
  }

  lemma {:induction false} AssembleLargeAppend(a: seq<SignedRecord>, b: seq<SignedRecord>)
    requires StageThreeShaped(a) && StageThreeShaped(b)
    ensures StageThreeShaped(a + b)
    ensures AssembleLarge(a + b) == AssembleLarge(a) + AssembleLarge(b)
  {
    if b == [] {
      assert a + b == a;
    } else {
      assert (a + b)[..|a + b| - 1] == a + b[..|b| - 1];
      AssembleLargeAppend(a, b[..|b| - 1]);
    }
  }

  lemma {:induction false} AssembleAllSmall(g: seq<SignedRecord>)
    requires forall i :: 0 <= i < |g| ==> g[i].sign == Small
    ensures StageThreeShaped(g) && AssembleLarge(g) == []
  {
    if g != [] {
      AssembleAllSmall(g[..|g| - 1]);
    }
  }

  lemma {:induction false} AssembleRekeyed(ts: seq<VertexArray>)
    requires forall k :: 0 <= k < |ts| ==> |ts[k]| == 5
    ensures StageThreeShaped(RekeyFive(ts))
    ensures AssembleLarge(RekeyFive(ts)) == ts
  {
    if ts != [] {
      var init := ts[..|ts| - 1];
      AssembleRekeyed(init);
      assert RekeyFive(ts)[..|ts| - 1] == RekeyFive(init);
      AssembleRoundTrip(ts[|ts| - 1]);
      assert ts == init + [ts[|ts| - 1]];
    }
  }

  /** Stage three on one key: whatever SMALL twin-twig records lead the
      group, the 5-tuples re-keyed by the stage-three mapper come out of the
      reducer unchanged and in order. */
  lemma StageThreeRoundTrip(smalls: seq<SignedRecord>, ts: seq<VertexArray>)
    requires |smalls| > 0 && forall i :: 0 <= i < |smalls| ==> smalls[i].sign == Small
    requires forall k :: 0 <= k < |ts| ==> |ts[k]| == 5
    ensures LeadsSmall(smalls + RekeyFive(ts)) && StageThreeShaped(smalls + RekeyFive(ts))
    ensures StageThreeJoin(smalls + RekeyFive(ts)) == ts
  {
    AssembleAllSmall(smalls);
    AssembleRekeyed(ts);
    AssembleLargeAppend(smalls, RekeyFive(ts));
  }
}
