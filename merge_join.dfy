/** What a sign-tagged reducer sees: one reduce group, the records that the
    shuffle delivers for one key, in delivery order. */
module MergeJoin {
  import opened Records

  /** The early-return test of every sign-tagged reducer: the key Hadoop
      passes to reduce is the group's first record's key, so the group is
      joined only when its first record is SMALL. */
  predicate LeadsSmall(g: seq<SignedRecord>)
  {
    |g| > 0 && g[0].sign == Small
  }

  /** The delivery order that the sign and group comparators produce: no
      SMALL record follows a LARGE one. */
  ghost predicate SmallBeforeLarge(g: seq<SignedRecord>)
  {
    forall i, j :: 0 <= i < j < |g| && g[i].sign == Large ==> g[j].sign == Large
  }

  function CountLarge(g: seq<SignedRecord>): nat
  {
    if g == [] then 0 else CountLarge(g[..|g| - 1]) + (if g[|g| - 1].sign == Large then 1 else 0)
  }

  function CountSmall(g: seq<SignedRecord>): nat
  {
    if g == [] then 0 else CountSmall(g[..|g| - 1]) + (if g[|g| - 1].sign == Small then 1 else 0)
  }

  /** The number of index pairs i < j with g[i] SMALL and g[j] LARGE. */
  function SmallLargePairs(g: seq<SignedRecord>): nat
  {
    if g == [] then 0
    else SmallLargePairs(g[..|g| - 1]) + (if g[|g| - 1].sign == Large then CountSmall(g[..|g| - 1]) else 0)
  }

  lemma {:induction false} AllSmallHasNoLarge(g: seq<SignedRecord>)
    requires forall i :: 0 <= i < |g| ==> g[i].sign == Small
    ensures CountLarge(g) == 0
  {
    if g != [] {
      AllSmallHasNoLarge(g[..|g| - 1]);
    }
  }

  /** Under SMALL-before-LARGE delivery the SMALL/LARGE index pairs form
      the full cross product of the two sides. */
  lemma {:induction false} OrderedPairsAreCrossProduct(g: seq<SignedRecord>)
    requires SmallBeforeLarge(g)
    ensures SmallLargePairs(g) == CountSmall(g) * CountLarge(g)
  {
    if g != [] {
      var init := g[..|g| - 1];
      assert SmallBeforeLarge(init);
      OrderedPairsAreCrossProduct(init);
      if g[|g| - 1].sign == Small {
        AllSmallHasNoLarge(init);
      }
    }
  }
}
