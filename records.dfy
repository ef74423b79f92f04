/** Wire-level records shared by every stage of the twin-twig jobs. */
module Records {

  /** An HVArray: an ordered, variable-width array of vertex identifiers
      (64-bit longs in the source, unbounded integers here). */
  type VertexArray = seq<int>

  /** The join-side discriminator of an HVArraySign key. */
  datatype Sign = Small | Large

  /** One shuffled record of a sign-tagged job: the key's sign, the key's
      vertex array, and the value. */
  datatype SignedRecord = SignedRecord(sign: Sign, key: VertexArray, value: VertexArray)

  /** The optional Bloom-filter pruning of a job: either pruning is disabled,
      or every pair is tested by the filter after both endpoints are mapped
      through HyperVertex.VertexID. Both are opaque to this model. */
  datatype Pruning = NoPruning | Bloom(test: (int, int) -> bool, vertexId: int -> int)

  /** Whether a pair (a, b), in this argument order, survives pruning. */
  predicate Admits(o: Pruning, a: int, b: int)
  {
    match o
    case NoPruning => true
    case Bloom(test, vertexId) => test(vertexId(a), vertexId(b))
  }

  /** The Bloom filter's design promise: every pair of the reference set
      tests positive (false positives only, never false negatives). */
  ghost predicate NoFalseNegatives(o: Pruning, reference: set<(int, int)>)
  {
    forall a, b :: (a, b) in reference ==> Admits(o, a, b)
  }
}
