# Twin-twig chordal and solar squares: the record-level map/reduce bodies

This project models the record-level map and reduce bodies of the twin-twig
chordal-square and solar-square jobs of SubgEnumFramework, and proves what
they write.

**Chordal square** (`ChordalSquare.java`)
- Stage one:
  - The mapper turns one vertex's adjacency record into `(pair, center)` candidates, following the three twin-twig cases. Pruning by a Bloom filter is optional.
  - The reducer collects the centers of one pair and writes every pair of centers, in ascending order, under the unchanged key.
- Stage two:
  - The candidates are re-tagged LARGE and the edges SMALL.
  - A sign-tagged merge join writes one 4-tuple per LARGE record when the group starts SMALL. A count-only variant writes the number of those records instead.

**Solar square** (`SolarSquare.java`)
- Stage two:
  - The chordal squares are re-keyed LARGE on their centers.
  - The reducer buffers the centers of the SMALL twin-twig records and joins every LARGE record against them into 5-tuples. Pruning is optional.
- Stage three:
  - The 5-tuples are re-keyed LARGE on `(t0, t2, t4)`.
  - The reducer rebuilds one 5-tuple per LARGE record.

How the source's entities become Dafny:

- An `HVArray` is a `VertexArray` (`seq<int>`). `getFirst`, `getSecond` and `getLast` are the first, second and last elements.
- An `HVArraySign` key with its value is a `SignedRecord(sign, key, value)`.
- A reduce group is the `seq<SignedRecord>` of records the shuffle delivers for one key, in delivery order.
- The early return reads the sign of the group's first record. The loops read each record's own sign and key, because Hadoop refreshes the key object as the value iterator advances.
  - The solar stage-two reducer reads `v1` and `v3` from the first key, before its loop, and the model does the same.
- `context.write` appends to an output sequence.
- The Bloom filter test and `HyperVertex.VertexID` are uninterpreted functions inside `Pruning.Bloom`. `NoPruning` stands for a disabled filter.
- The static buffers are fields of two classes, `ttList` of `ChordalSquare.StageOneReducer` and `list` of `SolarSquare.SolarStageTwoReducer`. `setup` is each class's constructor.
- Each loop nest is a method, proved against a specification function written over the prefix it has consumed:
  - `Emit` over `Within`, `Cross` and `WithinAndAcross` (module `Pairs`);
  - `CenterPairs`, `SquaresOfLarge`, `Buffered`, `JoinSteps` and `AssembleLarge`.
  The properties are proved about those functions.

Modules:
- `Records` (records, pruning)
- `Pairs` (index-pair enumerations)
- `MergeJoin` (group predicates and counts)
- `ChordalSquare`
- `SolarSquare`

Behaviour of the code that a reader of the algorithm might not expect; the model follows the code:
- **Chordal stage-two reducer: no buffering.** A textbook merge join buffers the SMALL records and joins each LARGE record with every one of them. The chordal stage-two reducer does not buffer: it writes one 4-tuple per LARGE record, however many SMALL records the group holds (`ChordalSquare.StageTwoIgnoresSmallMultiplicity`). Since an edge is one SMALL record, this gives the same squares as a buffering join whenever each edge occurs once.
- **Stage-one reducer: key kept.** The reducer does not re-key the center pairs: it keeps the group key (the pair of twin-twig leaves) and writes the ascending pair of centers as the value.
- **Solar stage-two reducer: no stop on the first LARGE record.** The reducer does not stop buffering at the first LARGE record: it appends every SMALL record it meets, so each LARGE record joins with the SMALL records delivered before it (`SolarSquare.JoinSteps`). Under SMALL-before-LARGE delivery that is every SMALL record of the group (`SolarSquare.StageTwoUnprunedCount`).
- **Solar pruning: the {v0, v2} test is thrown away.** The reducer computes the Bloom test on {v0, v2} and then overwrites its result with the test on {v0, v4}, so only the second test decides. Pruning is therefore weaker than the code evidently intends, but it loses no true pattern: with a filter that has no false negatives, every unpruned 5-tuple whose {v0, v4} is an edge is still written (`SolarSquare.StageTwoPruningSound`). See Findings.

## Model

| member | source | states |
|---|---|---|
| ChordalSquare.EmitRow | SubgEnumFramework/src/dbg/hadoop/subgenum/twintwig/ChordalSquare.java:155-163 | one innermost mapper loop writes the candidate ([a, t[j]], center) for each j in order, exactly when pruning admits (a, t[j]) |
| ChordalSquare.TwinTwigOne | SubgEnumFramework/src/dbg/hadoop/subgenum/twintwig/ChordalSquare.java:152-165 | the twin-twig-1 loop nest writes the pruned candidates for every index pair i < j of L, in lexicographic order |
| ChordalSquare.TwinTwigThreeAndTwo | SubgEnumFramework/src/dbg/hadoop/subgenum/twintwig/ChordalSquare.java:167-194 | with G0 empty: for each G1[i], the pruned pairs with every later G1[k], then with every L[j] |
| ChordalSquare.TwinTwigAcrossGroups | SubgEnumFramework/src/dbg/hadoop/subgenum/twintwig/ChordalSquare.java:196-209 | with G0 non-empty: the pruned pairs G0[i], G1[j], row by row |
| ChordalSquare.StageOneMap | SubgEnumFramework/src/dbg/hadoop/subgenum/twintwig/ChordalSquare.java:142-210 | the mapper writes TwinTwigs(o, center, adj): twin-twig 1 only for the first-add record, then the G0-empty or G0-non-empty nest |
| ChordalSquare.TwinTwigsCarryCenter | SubgEnumFramework/src/dbg/hadoop/subgenum/twintwig/ChordalSquare.java:160-206 | every written record has the map input's key (the center) as value and a two-vertex key |
| ChordalSquare.TwinTwigsMembership | SubgEnumFramework/src/dbg/hadoop/subgenum/twintwig/ChordalSquare.java:152-209 | a record is written iff it carries the center, pruning admits its pair, and the pair is L[i], L[j] (i < j, first-add only), or G1[i], G1[k] (i < k) or G1[i], L[j] when G0 is empty, or G0[i], G1[j] when G0 is not empty |
| ChordalSquare.TwinTwigsCount | SubgEnumFramework/src/dbg/hadoop/subgenum/twintwig/ChordalSquare.java:152-209 | unpruned, the mapper writes [isFirstAdd]·C(\|L\|,2) + (C(\|G1\|,2) + \|G1\|·\|L\| if G0 is empty, else \|G0\|·\|G1\|) records |
| ChordalSquare.TwinTwigsPruningFilters | SubgEnumFramework/src/dbg/hadoop/subgenum/twintwig/ChordalSquare.java:156-205 | the pruned output is the unpruned output, in the same order, minus the records whose pair the filter rejects |
| ChordalSquare.TwinTwigsPruningSound | SubgEnumFramework/src/dbg/hadoop/subgenum/twintwig/ChordalSquare.java:156-162 | with a filter that has no false negatives on a reference set, every unpruned record whose pair is in the set is still written |
| ChordalSquare.Ascending | SubgEnumFramework/src/dbg/hadoop/subgenum/twintwig/ChordalSquare.java:245-250 | the swapped pair is ascending and is a permutation of the two centers |
| ChordalSquare.PairRow | SubgEnumFramework/src/dbg/hadoop/subgenum/twintwig/ChordalSquare.java:244-252 | the inner reducer loop writes (key, ascending(a, t[j])) for each later center t[j], in order |
| ChordalSquare.PairCenters | SubgEnumFramework/src/dbg/hadoop/subgenum/twintwig/ChordalSquare.java:242-253 | the pairing loops write CenterPairs(key, centers): every index pair i < j, ascending, under the unchanged key |
| ChordalSquare.StageOneReducer.constructor | SubgEnumFramework/src/dbg/hadoop/subgenum/twintwig/ChordalSquare.java:257-259 | setup leaves an empty buffer |
| ChordalSquare.StageOneReducer.Reduce | SubgEnumFramework/src/dbg/hadoop/subgenum/twintwig/ChordalSquare.java:236-254 | the buffer is cleared and ends holding exactly this group's centers; the output is CenterPairs of this group only, whatever the buffer held before |
| ChordalSquare.CenterPairsCount | SubgEnumFramework/src/dbg/hadoop/subgenum/twintwig/ChordalSquare.java:242-253 | a group of n centers yields exactly n(n−1)/2 records |
| ChordalSquare.CenterPairsMembership | SubgEnumFramework/src/dbg/hadoop/subgenum/twintwig/ChordalSquare.java:242-253 | a record is written iff it is (key, ascending(c[i], c[j])) for some i < j |
| ChordalSquare.CenterPairsOrder | SubgEnumFramework/src/dbg/hadoop/subgenum/twintwig/ChordalSquare.java:243-251 | the record for i < j is record number RowStart(n, i) + (j − i − 1), where 2·RowStart(n, i) = i(2n − i − 1): lexicographic (i, j) order |
| ChordalSquare.CandidateToLarge | SubgEnumFramework/src/dbg/hadoop/subgenum/twintwig/ChordalSquare.java:318-325 | the stage-two mapper writes the stage-one record with the same key and value, tagged LARGE; ChordalSquare.ChordalPipelineOnPair pins it inside the pipeline |
| ChordalSquare.EdgeToSmall | SubgEnumFramework/src/dbg/hadoop/subgenum/twintwig/ChordalSquare.java:327-334 | the edge mapper writes the edge [a, b] tagged SMALL with an empty value; ChordalSquare.ChordalPipelineOnPair pins it inside the pipeline |
| ChordalSquare.StageTwoReduce | SubgEnumFramework/src/dbg/hadoop/subgenum/twintwig/ChordalSquare.java:338-351 | the reducer writes StageTwoJoin(g): nothing unless the first record is SMALL, else one [v.first, k.first, v.second, k.second] per LARGE record |
| ChordalSquare.StageTwoJoinMeaning | SubgEnumFramework/src/dbg/hadoop/subgenum/twintwig/ChordalSquare.java:340-350 | the output has CountLarge(g) tuples when the group starts SMALL and none otherwise, and a tuple is written iff it is the square of some LARGE record |
| ChordalSquare.StageTwoIgnoresSmallMultiplicity | SubgEnumFramework/src/dbg/hadoop/subgenum/twintwig/ChordalSquare.java:343-350 | no buffering: with any number of leading SMALL records the output is one square per LARGE record, the same as with a single SMALL record |
| ChordalSquare.StageTwoCountReduce | SubgEnumFramework/src/dbg/hadoop/subgenum/twintwig/ChordalSquare.java:356-370 | the count reducer writes [CountLarge(g)] exactly when the group starts SMALL and the count is positive, else nothing |
| ChordalSquare.CountMatchesMaterialised | SubgEnumFramework/src/dbg/hadoop/subgenum/twintwig/ChordalSquare.java:358-369 | the count reducer writes the length of the materialising reducer's output on the same group, and nothing exactly when that output is empty |
| ChordalSquare.ChordalPipelineOnPair | SubgEnumFramework/src/dbg/hadoop/subgenum/twintwig/ChordalSquare.java:318-351 | an edge (a, b) tagged SMALL by the edge mapper, joined with the stage-one records for (a, b) re-tagged LARGE, yields [c, a, c′, b] (c ≤ c′) for every pair of centers: C(n, 2) squares, in order |
| MergeJoin.OrderedPairsAreCrossProduct | SubgEnumFramework/src/dbg/hadoop/subgenum/twintwig/SolarSquare.java:174-207 | under SMALL-before-LARGE delivery, the (SMALL, LARGE) index pairs in order number CountSmall·CountLarge |
| SolarSquare.ChordalToLarge | SubgEnumFramework/src/dbg/hadoop/subgenum/twintwig/SolarSquare.java:146-155 | a chordal square [t0, t1, t2, t3] is written as key (t0, t2), tagged LARGE, with value (t1, t3): key and value interleaved give back the square; SolarSquare.ChordalSquareJoinsBack pins it against the reducer |
| SolarSquare.ExpandLarge | SubgEnumFramework/src/dbg/hadoop/subgenum/twintwig/SolarSquare.java:179-206 | the inner loop writes [v0, v1, v2, v3, v4] for each buffered v0 in order, exactly when the {v0, v4} test passes |
| SolarSquare.SolarStageTwoReducer.constructor | SubgEnumFramework/src/dbg/hadoop/subgenum/twintwig/SolarSquare.java:214-222 | setup leaves an empty buffer and fixes the pruning |
| SolarSquare.SolarStageTwoReducer.Reduce | SubgEnumFramework/src/dbg/hadoop/subgenum/twintwig/SolarSquare.java:165-211 | the early return leaves the buffer untouched; otherwise the buffer ends as Buffered(g) and the output is StageTwoJoin(pruning, g) |
| SolarSquare.BufferedLength | SubgEnumFramework/src/dbg/hadoop/subgenum/twintwig/SolarSquare.java:170-177 | the buffer holds one element per SMALL record |
| SolarSquare.BufferedMembership | SubgEnumFramework/src/dbg/hadoop/subgenum/twintwig/SolarSquare.java:174-177 | a vertex is buffered iff it is the first element of some SMALL value |
| SolarSquare.StageTwoJoinMembership | SubgEnumFramework/src/dbg/hadoop/subgenum/twintwig/SolarSquare.java:167-204 | a tuple is written iff the group starts SMALL and the tuple is [v0, k.first, v2, k.second, v4] for a SMALL record (value v0) delivered before a LARGE record (value v2, v4) whose {v0, v4} test passes |
| SolarSquare.StageTwoUnprunedCount | SubgEnumFramework/src/dbg/hadoop/subgenum/twintwig/SolarSquare.java:174-207 | unpruned, the output length is the number of SMALL records before each LARGE record, summed; under SMALL-before-LARGE it is CountSmall·CountLarge |
| SolarSquare.StageTwoPruningFilters | SubgEnumFramework/src/dbg/hadoop/subgenum/twintwig/SolarSquare.java:184-204 | the pruned output is the unpruned output, in order, keeping the tuples whose {v0, v4} test passes; the two-test join keeps those whose {v0, v2} and {v0, v4} tests both pass |
| SolarSquare.StageTwoPruningSound | SubgEnumFramework/src/dbg/hadoop/subgenum/twintwig/SolarSquare.java:182-204 | as written, with a filter that has no false negatives on the edge set, the pruned reducer keeps every unpruned 5-tuple whose {v0, v4} is an edge, and writes nothing outside the unpruned output |
| SolarSquare.KeepPassingMembership | SubgEnumFramework/src/dbg/hadoop/subgenum/twintwig/SolarSquare.java:202-205 | the filter keeps exactly the 5-tuples that pass the tests |
| SolarSquare.ChordalSquareJoinsBack | SubgEnumFramework/src/dbg/hadoop/subgenum/twintwig/SolarSquare.java:150-154 | a chordal square t re-keyed by the stage-two mapper and joined with a twin-twig of center v0 comes back as [v0] + t when {v0, t3} passes, and not at all otherwise |
| SolarSquare.LastBloomTestOverridesFirst | SubgEnumFramework/src/dbg/hadoop/subgenum/twintwig/SolarSquare.java:184-202 | as written, a tuple whose {v0, v2} test fails is still written: concrete group and filter |
| SolarSquare.BothTestsWithinAsWritten | SubgEnumFramework/src/dbg/hadoop/subgenum/twintwig/SolarSquare.java:184-202 | the corrected two-test join writes only tuples the as-written reducer writes |
| SolarSquare.BothTestsSound | SubgEnumFramework/src/dbg/hadoop/subgenum/twintwig/SolarSquare.java:184-202 | with a filter that has no false negatives on the edge set, the two-test join keeps every unpruned tuple whose {v0, v2} and {v0, v4} are both edges, and writes nothing outside the unpruned output |
| SolarSquare.FiveToLarge | SubgEnumFramework/src/dbg/hadoop/subgenum/twintwig/SolarSquare.java:292-301 | a 5-tuple [t0, t1, t2, t3, t4] is written as key (t0, t2, t4), tagged LARGE, with value (t1, t3): key and value interleaved give back the 5-tuple; SolarSquare.AssembleRoundTrip and SolarSquare.StageThreeRoundTrip pin it against the reducer |
| SolarSquare.StageThreeReduce | SubgEnumFramework/src/dbg/hadoop/subgenum/twintwig/SolarSquare.java:306-325 | the reducer writes StageThreeJoin(g): nothing unless the first record is SMALL, else [k.first, v.first, k.second, v.second, k.last] per LARGE record, read with its own key |
| SolarSquare.StageThreeJoinMeaning | SubgEnumFramework/src/dbg/hadoop/subgenum/twintwig/SolarSquare.java:308-324 | exactly CountLarge(g) tuples when the group starts SMALL and none otherwise; a tuple is written iff it is assembled from some LARGE record |
| SolarSquare.AssembleRoundTrip | SubgEnumFramework/src/dbg/hadoop/subgenum/twintwig/SolarSquare.java:296-321 | the stage-three reducer rebuilds from the stage-three mapper's record exactly the 5-tuple that was mapped |
| SolarSquare.StageThreeRoundTrip | SubgEnumFramework/src/dbg/hadoop/subgenum/twintwig/SolarSquare.java:296-325 | a group of SMALL records followed by re-keyed 5-tuples yields those 5-tuples unchanged and in order |

## Left out

- Drivers, job wiring and `main` (ChordalSquare.java:46-133, 268-316; SolarSquare.java:37-121): job configuration, cache registration and filesystem calls, which are I/O.
- Loading the Bloom filter in the `setup` methods: file and cache I/O, over a class that is not part of this model. The filter and `HyperVertex.VertexID` enter the model as the functions inside `Pruning.Bloom`. The constructors receive them as a parameter.
- `SolarSquareStageTwoMapper1` and `SolarSquareStageThreeMapper1`, and `SquareDriver`: `TwinTwigGenerator` is not part of this model. The SMALL records they produce appear only as the SMALL side of the groups.
- The shuffle comparators and the HVArray serialisation are not part of this model. SMALL-before-LARGE delivery is the hypothesis `SmallBeforeLarge`, used only where the order matters. The grouping itself is not modelled: a group is any sequence of records.
- `cleanup` hooks, the reuse of static state across tasks, and worker parallelism: these are runtime lifecycle and concurrency concerns.
- Exceptions on short HVArrays: the source would throw. The model instead requires the shapes the reducers read (`LargeShaped`, `StageTwoShaped`, `StageThreeShaped`), and the pipeline lemmas show that the mappers produce those shapes.
- Empty groups: Hadoop never delivers one. The model writes nothing for them.
- ChordalSquare.StageTwoCountReduce: does not model the wrap-around of the 64-bit `long` counter, because it would need more than 2^63 LARGE records in one group.
- Vertex identifiers are unbounded integers rather than 64-bit `long`s. No arithmetic is done on them, only comparisons.
- ChordalSquare.EmitRow and SolarSquare.ExpandLarge: the source shares one `isOutput` flag across all loops of a call. The model uses one flag per loop. The flag is reassigned before every read when pruning is on, and never changes from true when it is off, so the outputs are the same.
- The stage-one mapper's and the stage-one reducer's loop nests are split into one method per loop level. The iteration order and the writes are unchanged.

## Findings

| source | as written | input that shows it | evidently intended | confidence | as-written member | corrected member |
|---|---|---|---|---|---|---|
| SubgEnumFramework/src/dbg/hadoop/subgenum/twintwig/SolarSquare.java:185-202 | `isOutput` is set by the test on {v0, v2} and then overwritten by the test on {v0, v4} before it is read, so only the {v0, v4} test decides | a filter rejecting every pair whose second vertex is 2, VertexID the identity, and the group [SMALL (1, 3) → (0), LARGE (1, 3) → (2, 4)]: [0, 1, 2, 3, 4] is written although {0, 2} fails | write the tuple only when both tests pass, so that pruning drops candidates missing either edge and, with no false negatives, loses none | medium, not executed | SolarSquare.LastBloomTestOverridesFirst | SolarSquare.StageTwoJoinBothTests |
