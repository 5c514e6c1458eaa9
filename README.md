# SV evidence merging, modelled in Dafny

This project models the part of GATK that merges structural-variant evidence
files: `MultiFeatureWalker` with its `MergingIterator`, the `PrintSVEvidence`
tool that runs on it, the evidence record kinds (BAF, split-read, locus-depth
and read-depth evidence), and the sort mergers that write sorted, de-duplicated
evidence.

- **Walker** (`multi_feature_walker.dfy`, `dictionaries.dfy`, `string_order.dfy`):
  - Before traversal, the walker folds `bestDictionary` over the master
    dictionary, the reference's, the reads' and each feature source's header.
  - Two dictionaries are compatible when the smaller one is an order-preserving
    subsequence of the larger, and the larger one wins.
  - The walker gathers the headers' sample names into a `TreeSet`, which is
    modelled as a strictly sorted sequence under Java string order.
- **Merging iterator** (`merging_iterator.dfy`):
  - A priority queue holds at most one pending record per input.
  - `next` polls an earliest record, refills from the same input, and fails
    when the refill sorts before the polled record.
  - It is proved that a traversal succeeds exactly when every input is in
    locus order. A successful traversal yields every input's records, in
    order, interleaved into one non-decreasing stream.
- **Records** (`features.dfy`, `loci.dfy`, `depth_evidence.dfy`,
  `count_union.dfy`, `same_locus.dfy`):
  - Records are one datatype `Feature` with a case per evidence kind.
  - `extractSamples` keeps or drops a BAF, split-read or locus-depth record
    whole. It re-indexes a depth record's counts through its header.
  - The codecs' `resolveSameLocusFeatures` either drains a same-locus queue in
    key order, rejecting duplicate keys, or merges a depth group into one
    record. The merged record holds the union of the counts and fails on a
    slot with two sources.
- **Sort mergers** (`sort_mergers.dfy`, `depth_sort_merger.dfy`):
  - These are classes whose fields the methods update, with the output sink
    (`sinks.dfy`) a class recording what was written.
  - `SortMerger` stands for the BAF, split-read and locus-depth mergers, whose
    code is identical up to the record type.
  - The mergers keep a ghost history (`received`, `emitted`) and an invariant
    on it.
  - It is proved that, when nothing failed, the output of `close` is the
    unique strictly ordered arrangement of the input (for depth evidence: one
    union record per locus).
  - The split-read and depth mergers make `resolveSameLocusFeatures` public.
    When it is called mid-group and a record at the same locus follows, the
    model tracks this with a ghost flag `reopened`, and the ordering guarantee
    is stated for the runs where that did not happen.
- **PrintSVEvidence** (`print_sv_evidence.dfy`):
  - The class models the tool's fields.
  - `OnTraversalStart` is the sample defaulting.
  - `Apply` narrows a record and either queues it at the current locus or
    resolves the group and starts a new one.
  - `OnTraversalSuccess` resolves the last group and closes the sink.
  - `Run` composes iterator and tool, starting from a walker that has already
    settled its dictionary and samples (`Run` does not call
    `SetDictionaryAndSamples`). The headers of the traversed sources are
    parameters of `Run` and are not tied to the headers the walker settled
    from. It is proved that a successful run writes a strictly ordered output that holds exactly the narrowed
    records of all inputs (for depth evidence: their union per locus).

Java exceptions become `Fail(Error)` outcomes or `Err` results. Each error
case names the condition the source raises it under.

## Model

| member | source | states |
|---|---|---|
| Dictionaries.IndexOf | src/main/java/org/broadinstitute/hellbender/engine/MultiFeatureWalker.java:135 | `getSequenceIndex`: -1 exactly when the contig is absent, otherwise a position holding that contig |
| Dictionaries.OrderError | src/main/java/org/broadinstitute/hellbender/engine/MultiFeatureWalker.java:133-145 | a failure of the contig loop names a contig of the smaller dictionary that is either missing from the larger one or present but out of order |
| Dictionaries.BestDictionary | src/main/java/org/broadinstitute/hellbender/engine/MultiFeatureWalker.java:120-147 | the loop with its `lastIdx` accumulator computes exactly `Best`, whose meaning `BestLaw` states |
| Dictionaries.OrderOkEmbeds | src/main/java/org/broadinstitute/hellbender/engine/MultiFeatureWalker.java:133-145 | when the contig loop finds no error, it yields an increasing embedding of the smaller dictionary into the larger |
| Dictionaries.EmbeddingPassesCheck | src/main/java/org/broadinstitute/hellbender/engine/MultiFeatureWalker.java:133-145 | when an increasing embedding exists and the larger dictionary has distinct contigs, the contig loop finds no error |
| Dictionaries.OrderCheckIsOrderedSubset | src/main/java/org/broadinstitute/hellbender/engine/MultiFeatureWalker.java:133-145 | the contig loop passes if and only if the smaller dictionary is an order-preserving subsequence of the larger |
| Dictionaries.OrderedSubsetReflexive | src/main/java/org/broadinstitute/hellbender/engine/MultiFeatureWalker.java:120-147 | every dictionary is compatible with itself |
| Dictionaries.OrderedSubsetTransitive | src/main/java/org/broadinstitute/hellbender/engine/MultiFeatureWalker.java:120-147 | compatibility composes, so repeated `bestDictionary` calls can only grow the dictionary compatibly |
| Dictionaries.BestLaw | src/main/java/org/broadinstitute/hellbender/engine/MultiFeatureWalker.java:120-147 | with both dictionaries present, `bestDictionary` succeeds if and only if the smaller one (the new one on a tie) is an ordered subset of the larger, and then returns the larger |
| Dictionaries.BestCoversBoth | src/main/java/org/broadinstitute/hellbender/engine/MultiFeatureWalker.java:120-147 | the result is null only when both inputs are, and every present input fits into it in order |
| Dictionaries.FoldBestPicksAnInput | src/main/java/org/broadinstitute/hellbender/engine/MultiFeatureWalker.java:90-112 | the settled dictionary is the starting one or one of the candidates, and it is null only when all of them are |
| Dictionaries.FoldBestCoversAll | src/main/java/org/broadinstitute/hellbender/engine/MultiFeatureWalker.java:90-112 | every dictionary offered fits in order into the settled one |
| Dictionaries.SubsetAndMisorderedExamples | src/test/java/org/broadinstitute/hellbender/engine/FeatureMergingWalkerUnitTest.java:27-79 | a subset dictionary is accepted and the larger one kept; a dictionary with two contigs swapped is rejected as out of order |
| StringOrder.CompareStrings | src/main/java/org/broadinstitute/hellbender/engine/MultiFeatureWalker.java:25 | the sign of `String.compareTo`: one of -1, 0, 1, and 0 exactly for equal strings |
| StringOrder.CompareStringsAntisymmetric | src/main/java/org/broadinstitute/hellbender/engine/MultiFeatureWalker.java:25 | swapping the arguments negates the string order |
| StringOrder.CompareStringsTransitive | src/main/java/org/broadinstitute/hellbender/engine/MultiFeatureWalker.java:25 | the string order is transitive, as the `TreeSet` requires |
| StringOrder.Insert | src/main/java/org/broadinstitute/hellbender/engine/MultiFeatureWalker.java:105 | `TreeSet.add` keeps the set sorted and duplicate-free and adds exactly the one name |
| StringOrder.InsertAll | src/main/java/org/broadinstitute/hellbender/engine/MultiFeatureWalker.java:105 | `addAll` keeps the set sorted and duplicate-free and adds exactly the names given |
| StringOrder.InsertAllAppend | src/main/java/org/broadinstitute/hellbender/engine/MultiFeatureWalker.java:98-112 | adding two lists in turn is adding their concatenation |
| StringOrder.StrictlySortedUnique | src/main/java/org/broadinstitute/hellbender/engine/MultiFeatureWalker.java:25 | a sorted, duplicate-free set is determined by its members |
| Walker.MultiFeatureWalker.constructor | src/main/java/org/broadinstitute/hellbender/engine/MultiFeatureWalker.java:24-25 | no dictionary yet and an empty sample set |
| Walker.MultiFeatureWalker.SetDictionaryAndSamples | src/main/java/org/broadinstitute/hellbender/engine/MultiFeatureWalker.java:90-118 | fails with the first incompatibility of the fold over master, reference, reads and headers, or with "no dictionary" when none is found; otherwise settles on the fold's dictionary and adds every header's samples to the set |
| Walker.MultiFeatureWalker.AddHeaders | src/main/java/org/broadinstitute/hellbender/engine/MultiFeatureWalker.java:98-112 | the loop over the sources is the fold over their header dictionaries and adds all their sample names, stopping at the first incompatibility |
| Walker.MultiFeatureWalker.AddHeader | src/main/java/org/broadinstitute/hellbender/engine/MultiFeatureWalker.java:99-111 | a header of SV-features or VCF kind reconciles its dictionary and adds its (non-null) samples; any other header changes nothing |
| Walker.MultiFeatureWalker.Reconcile | src/main/java/org/broadinstitute/hellbender/engine/MultiFeatureWalker.java:93 | `dictionary = bestDictionary(newDict, dictionary)`, leaving the dictionary as it was when that raises |
| Walker.SettledDictionary | src/main/java/org/broadinstitute/hellbender/engine/MultiFeatureWalker.java:90-118 | after success, the master, reference, reads and every header dictionary fit in order into the settled dictionary, which is one of them |
| Walker.SettledSamples | src/main/java/org/broadinstitute/hellbender/engine/MultiFeatureWalker.java:98-112 | the sample set is the one sorted, duplicate-free arrangement of the previous names and all header names |
| Loci.CompareLocatables | src/main/java/org/broadinstitute/hellbender/engine/MultiFeatureWalker.java:234 | the locus order yields -1, 0 or 1 |
| Loci.CompareLocatablesZero | src/main/java/org/broadinstitute/hellbender/engine/MultiFeatureWalker.java:234 | two loci compare equal exactly when contig, start and end agree |
| Loci.CompareLocatablesAntisymmetric | src/main/java/org/broadinstitute/hellbender/engine/MultiFeatureWalker.java:234 | swapping the loci negates the order |
| Loci.CompareLocatablesTransitive | src/main/java/org/broadinstitute/hellbender/engine/MultiFeatureWalker.java:234 | the locus order is transitive, including mixes of strict and non-strict steps |
| Merging.CompareEntriesPreorder | src/main/java/org/broadinstitute/hellbender/engine/MultiFeatureWalker.java:232-235 | `PQEntry.compareTo` is antisymmetric and transitive, and equal exactly at equal loci |
| Merging.PollEarliest | src/main/java/org/broadinstitute/hellbender/engine/MultiFeatureWalker.java:175 | `poll` takes an entry at or before every queued entry |
| Merging.MergingIterator.constructor | src/main/java/org/broadinstitute/hellbender/engine/MultiFeatureWalker.java:154-166 | the queue holds the first record of each non-empty input and nothing else, and nothing has been returned |
| Merging.MergingIterator.AddEntry | src/main/java/org/broadinstitute/hellbender/engine/MultiFeatureWalker.java:190-198 | takes the next record of the input into the queue and returns it, or returns null when the input is exhausted |
| Merging.MergingIterator.HasNext | src/main/java/org/broadinstitute/hellbender/engine/MultiFeatureWalker.java:169-171 | true exactly when the queue is non-empty; at exhaustion without error, every input has been returned in full, in order, and every input was sorted |
| Merging.MergingIterator.Next | src/main/java/org/broadinstitute/hellbender/engine/MultiFeatureWalker.java:174-188 | fails when exhausted; otherwise polls an earliest entry, refills from its input, and raises "inputs are not sorted" only when an input is out of order |
| Merging.NextInOrder | src/main/java/org/broadinstitute/hellbender/engine/MultiFeatureWalker.java:174-188 | polling an earliest entry keeps the returned stream non-decreasing and no later than anything still queued |
| Merging.CaughtMeansUnsorted | src/main/java/org/broadinstitute/hellbender/engine/MultiFeatureWalker.java:179-185 | a refill that sorts before the polled record proves its input out of order |
| Merging.AfterNext | src/main/java/org/broadinstitute/hellbender/engine/MultiFeatureWalker.java:174-188 | `next` keeps the iterator invariant: each input splits into returned, queued and unread records, with at most one queued |
| Merging.Exhausted | src/main/java/org/broadinstitute/hellbender/engine/MultiFeatureWalker.java:169-171 | with the queue empty and no error, every input has been returned in full and was sorted |
| Merging.StartState | src/main/java/org/broadinstitute/hellbender/engine/MultiFeatureWalker.java:154-166 | after construction, the iterator invariant holds with nothing returned |
| Merging.Traverse | src/main/java/org/broadinstitute/hellbender/engine/MultiFeatureWalker.java:58-68 | the traversal succeeds if and only if every input is in locus order; it then returns a non-decreasing stream that holds each input's records in their own order |
| Features.SampleIndex | src/main/java/org/broadinstitute/hellbender/tools/sv/DepthEvidence.java:58 | `getSampleIndex` gives a position holding the name, and null exactly when the header has no list or lacks the name |
| Features.SameLocusCompareZero | src/main/java/org/broadinstitute/hellbender/tools/sv/SplitReadEvidence.java:21-23 | the same-locus comparator is 0 exactly when sample and strand agree |
| Features.SameLocusCompareAntisymmetric | src/main/java/org/broadinstitute/hellbender/tools/sv/SplitReadEvidence.java:21-23 | swapping two records negates the same-locus comparator |
| Features.SameLocusCompareTransitive | src/main/java/org/broadinstitute/hellbender/tools/sv/SplitReadEvidence.java:21-23 | the same-locus comparator is transitive, as its priority queue requires |
| Features.StrictlyOrderedUnique | src/main/java/org/broadinstitute/hellbender/tools/sv/BafEvidenceSortMerger.java:13-15 | two strictly ordered sequences with the same records are equal, so the sorted output is determined by its input |
| CountUnion.MergedSingle | src/main/java/org/broadinstitute/hellbender/tools/sv/DepthEvidence.java:84-108 | a group of one record is mergeable and its union is its own counts |
| CountUnion.SlotValueMissing | src/main/java/org/broadinstitute/hellbender/tools/sv/DepthEvidence.java:95-106 | a slot of the union is missing exactly when no record supplies it |
| CountUnion.SlotValueOfSupplier | src/main/java/org/broadinstitute/hellbender/tools/sv/DepthEvidence.java:95-106 | a slot with one supplier holds that record's count |
| CountUnion.ConflictNotMergeable | src/main/java/org/broadinstitute/hellbender/tools/sv/DepthEvidence.java:97-103 | two records supplying one slot make the group unmergeable |
| CountUnion.MergedPermutation | src/main/java/org/broadinstitute/hellbender/tools/sv/DepthEvidence.java:84-108 | mergeability and the union do not depend on the order the queue yields the records |
| CountUnion.MergeInto | src/main/java/org/broadinstitute/hellbender/tools/sv/DepthEvidence.java:92-106 | merging one more vector passes if and only if the group stays mergeable, leaving the union in place; it raises the width mismatch exactly when widths differ, otherwise "multiple sources" for the first slot (1-based) both supply |
| DepthEvidence.Reindex | src/main/java/org/broadinstitute/hellbender/tools/sv/DepthEvidence.java:54-60 | one slot per requested name, holding the header's count for it or missing data; it fails exactly when an index lies outside the counts |
| DepthEvidence.ExtractSamples | src/main/java/org/broadinstitute/hellbender/tools/sv/DepthEvidence.java:47-62 | fails without an SV-features header; otherwise keeps the locus and re-indexes the counts to the requested names |
| DepthEvidence.ExtractAllSamplesIsIdentity | src/main/java/org/broadinstitute/hellbender/tools/sv/DepthEvidence.java:47-62 | narrowing to exactly the header's samples returns the record unchanged |
| DepthEvidence.ExtractSamplesTwice | src/main/java/org/broadinstitute/hellbender/tools/sv/DepthEvidence.java:47-62 | narrowing to a set and then to a subset of it, through a header listing the set, is narrowing straight to the subset |
| DepthEvidence.Equals | src/main/java/org/broadinstitute/hellbender/tools/sv/DepthEvidence.java:64-73 | `equals` is true exactly for records with equal locus and counts |
| DepthEvidence.UnionRecord | src/main/java/org/broadinstitute/hellbender/tools/sv/DepthEvidence.java:87-108 | the merged record sits at the locus of the record polled first and has one slot per sample |
| DepthEvidence.ResolveSameLocusFeatures | src/main/java/org/broadinstitute/hellbender/tools/sv/DepthEvidence.java:82-109 | an empty queue writes nothing; otherwise it passes if and only if the counts are mergeable, writing one union record; on failure nothing is written and the error is the width mismatch or "multiple sources" |
| SameLocus.PollMinimal | src/main/java/org/broadinstitute/hellbender/tools/sv/BafEvidence.java:81-83 | `poll` takes a record whose key is at or below every queued record's |
| SameLocus.IncreasingArrangementHasDistinctKeys | src/main/java/org/broadinstitute/hellbender/tools/sv/BafEvidence.java:76-92 | if some arrangement of the queue has strictly increasing keys, then no key occurs twice |
| SameLocus.DrainRejectingDuplicates | src/main/java/org/broadinstitute/hellbender/tools/sv/BafEvidence.java:76-92 | writes the records unchanged in strictly increasing key order; passes exactly when no key occurs twice and then writes every record; on a duplicate the error names a record carrying the least key that two queued records share (every lower key occurs once), and exactly the records whose key is below it have been written, each once |
| SameLocus.RepeatedRecordFailsFirst | src/main/java/org/broadinstitute/hellbender/tools/sv/BafEvidence.java:81-87 | the same BAF record queued twice ahead of two records of a later sample: failing on the repeated record, naming it, with nothing written, meets the drain's contract |
| SameLocus.RepeatedRecordNotSkipped | src/main/java/org/broadinstitute/hellbender/tools/sv/BafEvidence.java:81-87 | for that group, writing the repeated record once and naming the later sample does not meet the drain's contract |
| SortMergers.StrictlyOrderedHasNoDuplicates | src/main/java/org/broadinstitute/hellbender/tools/sv/BafEvidenceSortMerger.java:14 | a strictly ordered output has no two records with the same locus and key: the uniqueness criterion on locus and sample |
| SortMergers.ResolvedInOrder | src/main/java/org/broadinstitute/hellbender/tools/sv/BafEvidenceSortMerger.java:55-72 | resolving a group at a later locus extends a strictly ordered output to a strictly ordered one |
| SortMergers.StateAfterOpen | src/main/java/org/broadinstitute/hellbender/tools/sv/BafEvidenceSortMerger.java:32-34 | the first record establishes the merger invariant |
| SortMergers.StateAfterJoin | src/main/java/org/broadinstitute/hellbender/tools/sv/BafEvidenceSortMerger.java:37-38 | a record at the current locus keeps the invariant, and reopens the group only if it had been resolved already |
| SortMergers.StateAfterMoveOn | src/main/java/org/broadinstitute/hellbender/tools/sv/BafEvidenceSortMerger.java:39-42 | a record at a later locus keeps the invariant once the previous group is resolved |
| SortMergers.StateAfterResolve | src/main/java/org/broadinstitute/hellbender/tools/sv/BafEvidenceSortMerger.java:55-72 | resolving the group (or failing part way) keeps the invariant |
| SortMergers.SortMerger.constructor | src/main/java/org/broadinstitute/hellbender/tools/sv/BafEvidenceSortMerger.java:22-28 | an empty queue, no current locus, nothing received or written |
| SortMergers.SortMerger.ResolveSameLocusFeatures | src/main/java/org/broadinstitute/hellbender/tools/sv/SplitReadEvidenceSortMerger.java:58-75 | drains the queue into the output, rejecting duplicates: on a pass every queued record is written once in key order; on failure the error names the least duplicated key and exactly the records below it were written; keeps the merger invariant and the current locus |
| SortMergers.SortMerger.Open | src/main/java/org/broadinstitute/hellbender/tools/sv/BafEvidenceSortMerger.java:32-34 | the first record becomes the current locus and the one queued record |
| SortMergers.SortMerger.Join | src/main/java/org/broadinstitute/hellbender/tools/sv/BafEvidenceSortMerger.java:37-38 | a record at the current locus is queued; nothing is written |
| SortMergers.SortMerger.Advance | src/main/java/org/broadinstitute/hellbender/tools/sv/BafEvidenceSortMerger.java:41-42 | after resolution, a later record becomes the current locus and the one queued record |
| SortMergers.SortMerger.Write | src/main/java/org/broadinstitute/hellbender/tools/sv/BafEvidenceSortMerger.java:30-47 | the first record opens a group; one at the current locus joins it; a later one has the group resolved first; an earlier one raises "not in dictionary order" and changes nothing written |
| SortMergers.SortMerger.Close | src/main/java/org/broadinstitute/hellbender/tools/sv/BafEvidenceSortMerger.java:49-53 | resolves the last group and closes the sink exactly when that passes; when no resolution failed, the output then holds every record received, once, and it is strictly ordered unless a group was reopened |
| SortMergers.MergerOutputIsSortedInput | src/main/java/org/broadinstitute/hellbender/tools/sv/BafEvidenceSortMerger.java:13-72 | after a clean run, the output is the strictly ordered arrangement of what was written into the merger |
| DepthSortMerger.ListFoldFails | src/main/java/org/broadinstitute/hellbender/tools/sv/DepthEvidenceSortMerger.java:65-83 | a conflict among the first records dooms the whole list |
| DepthSortMerger.UnionOfList | src/main/java/org/broadinstitute/hellbender/tools/sv/DepthEvidenceSortMerger.java:62-83 | the count loop passes if and only if the list is mergeable and then yields the union; a failure comes from the first record `k` whose counts cannot be merged with those before it: the error is the width mismatch exactly when that record's width differs from the first record's, and otherwise "multiple sources" at the locus of the first record, naming the first slot that both record `k` and an earlier record supply |
| DepthSortMerger.DepthStateAfterOpen | src/main/java/org/broadinstitute/hellbender/tools/sv/DepthEvidenceSortMerger.java:35-37 | the first record establishes the depth merger invariant |
| DepthSortMerger.DepthStateAfterJoin | src/main/java/org/broadinstitute/hellbender/tools/sv/DepthEvidenceSortMerger.java:40-41 | a record at the current locus keeps the invariant, reopening only an already resolved group |
| DepthSortMerger.DepthStateAfterMoveOn | src/main/java/org/broadinstitute/hellbender/tools/sv/DepthEvidenceSortMerger.java:42-45 | a later record keeps the invariant once the list is resolved |
| DepthSortMerger.DepthStateAfterResolve | src/main/java/org/broadinstitute/hellbender/tools/sv/DepthEvidenceSortMerger.java:58-86 | writing the union of a mergeable list keeps the invariant and records the list as a resolved group |
| DepthSortMerger.DepthEvidenceSortMerger.constructor | src/main/java/org/broadinstitute/hellbender/tools/sv/DepthEvidenceSortMerger.java:25-31 | an empty list, no current locus, nothing received or written |
| DepthSortMerger.DepthEvidenceSortMerger.ResolveSameLocusFeatures | src/main/java/org/broadinstitute/hellbender/tools/sv/DepthEvidenceSortMerger.java:58-86 | an empty list writes nothing; otherwise it passes if and only if the list is mergeable, writing its union and clearing the list; on failure nothing changes |
| DepthSortMerger.DepthEvidenceSortMerger.Emit | src/main/java/org/broadinstitute/hellbender/tools/sv/DepthEvidenceSortMerger.java:84-85 | writes the union record and clears the list, recording the list as a resolved group |
| DepthSortMerger.DepthEvidenceSortMerger.Open | src/main/java/org/broadinstitute/hellbender/tools/sv/DepthEvidenceSortMerger.java:35-37 | the first record becomes the current locus and the one listed record |
| DepthSortMerger.DepthEvidenceSortMerger.Join | src/main/java/org/broadinstitute/hellbender/tools/sv/DepthEvidenceSortMerger.java:40-41 | a record at the current locus is listed; nothing is written |
| DepthSortMerger.DepthEvidenceSortMerger.Advance | src/main/java/org/broadinstitute/hellbender/tools/sv/DepthEvidenceSortMerger.java:44-45 | after resolution, a later record becomes the current locus and the one listed record |
| DepthSortMerger.DepthEvidenceSortMerger.Write | src/main/java/org/broadinstitute/hellbender/tools/sv/DepthEvidenceSortMerger.java:33-50 | the first record opens a list; one at the current locus joins it; a later one has the list resolved first (passing exactly when it is mergeable); an earlier one raises "not in dictionary order" |
| DepthSortMerger.DepthEvidenceSortMerger.Close | src/main/java/org/broadinstitute/hellbender/tools/sv/DepthEvidenceSortMerger.java:52-56 | closes the sink exactly when the last list resolves; the received records are then the resolved groups in order, each written as its union, strictly ordered unless a group was reopened |
| PrintEvidence.SelectBySample | src/main/java/org/broadinstitute/hellbender/tools/sv/BafEvidence.java:55-58 | the record itself exactly when its sample is among the names, null otherwise |
| PrintEvidence.SelectTwice | src/main/java/org/broadinstitute/hellbender/tools/sv/SplitReadEvidence.java:63-66 | selecting by two name sets in turn keeps exactly the records whose sample is in both |
| PrintEvidence.Extract | src/main/java/org/broadinstitute/hellbender/tools/sv/PrintSVEvidence.java:120 | `extractSamples` per record kind: depth records are re-indexed (and may raise), the others kept or dropped; a kept record keeps its locus and kind |
| PrintEvidence.Selection | src/main/java/org/broadinstitute/hellbender/tools/sv/PrintSVEvidence.java:116-124 | the record is unchanged without sample filtering, otherwise it is what `extractSamples` yields |
| PrintEvidence.ExtractIdempotent | src/main/java/org/broadinstitute/hellbender/tools/sv/PrintSVEvidence.java:108-120 | a narrowed record, narrowed again through the output header listing the same names, is unchanged |
| PrintEvidence.StrictlySortedIsDistinct | src/main/java/org/broadinstitute/hellbender/tools/sv/PrintSVEvidence.java:99-101 | the walker's sample set, which the tool adopts, holds no name twice |
| PrintEvidence.UnionRecordOfAny | src/main/java/org/broadinstitute/hellbender/tools/sv/DepthEvidence.java:87-108 | the union record of a same-locus group does not depend on which record the queue yields first |
| PrintEvidence.ResolveGroup | src/main/java/org/broadinstitute/hellbender/tools/sv/PrintSVEvidence.java:129 | the output codec's resolution: depth groups merge into one union record, other kinds are drained in key order rejecting duplicates, failing on the least duplicated key after writing exactly the records below it |
| PrintEvidence.StateAfterStepBack | src/main/java/org/broadinstitute/hellbender/tools/sv/PrintSVEvidence.java:128-131 | a record at an earlier locus starts a group and marks the output as out of order |
| PrintEvidence.ToolStateAfterResolve | src/main/java/org/broadinstitute/hellbender/tools/sv/PrintSVEvidence.java:129 | resolving the queued group (or failing part way) keeps the tool's invariant |
| PrintEvidence.ToolStateAfterJoin | src/main/java/org/broadinstitute/hellbender/tools/sv/PrintSVEvidence.java:125-127 | a record at the current locus keeps the invariant |
| PrintEvidence.ToolStateAfterStart | src/main/java/org/broadinstitute/hellbender/tools/sv/PrintSVEvidence.java:128-131 | after resolution, a record at another locus keeps the invariant, marking the output out of order exactly when that locus is earlier |
| PrintEvidence.PrintSVEvidence.constructor | src/main/java/org/broadinstitute/hellbender/tools/sv/PrintSVEvidence.java:48-69 | the sample names given on the command line, sample filtering on, no current locus, an empty queue |
| PrintEvidence.PrintSVEvidence.OnTraversalStart | src/main/java/org/broadinstitute/hellbender/tools/sv/PrintSVEvidence.java:99-105 | with no names given, adopt the walker's samples, and turn sample filtering off when there are none; names given are kept |
| PrintEvidence.PrintSVEvidence.ResolveSameLocusFeatures | src/main/java/org/broadinstitute/hellbender/tools/sv/PrintSVEvidence.java:129 | resolves the queued group into the sink by the codec's rule, keeping the current locus |
| PrintEvidence.PrintSVEvidence.Join | src/main/java/org/broadinstitute/hellbender/tools/sv/PrintSVEvidence.java:125-127 | a record at the current locus is queued; nothing is written |
| PrintEvidence.PrintSVEvidence.Start | src/main/java/org/broadinstitute/hellbender/tools/sv/PrintSVEvidence.java:130-131 | with the queue resolved, the record becomes the current locus and the one queued record |
| PrintEvidence.PrintSVEvidence.Apply | src/main/java/org/broadinstitute/hellbender/tools/sv/PrintSVEvidence.java:114-133 | an error or a dropped record changes nothing; a record at the current locus is queued; any other has the group resolved by the codec's rule and then starts a new group, earlier loci included |
| PrintEvidence.PrintSVEvidence.Take | src/main/java/org/broadinstitute/hellbender/tools/sv/PrintSVEvidence.java:114-133 | on records in locus order, a successful `apply` queues exactly what narrowing keeps and never moves the locus backwards |
| PrintEvidence.PrintSVEvidence.Place | src/main/java/org/broadinstitute/hellbender/tools/sv/PrintSVEvidence.java:125-132 | joins the current group, or resolves it and starts a new one |
| PrintEvidence.PrintSVEvidence.OnTraversalSuccess | src/main/java/org/broadinstitute/hellbender/tools/sv/PrintSVEvidence.java:135-141 | resolves the last group and closes the sink exactly when that passes; the output then holds every queued record once (depth: the groups' unions), strictly ordered unless a record came early or a resolution failed |
| PrintEvidence.Poll | src/main/java/org/broadinstitute/hellbender/engine/MultiFeatureWalker.java:62-63 | `next` yields a record of the output kind, at or after every record polled before, with one record fewer to come |
| PrintEvidence.Feed | src/main/java/org/broadinstitute/hellbender/engine/MultiFeatureWalker.java:64-65 | `apply` on the polled record with its input's header keeps the running invariant |
| PrintEvidence.Step | src/main/java/org/broadinstitute/hellbender/engine/MultiFeatureWalker.java:62-66 | one turn of the traversal loop keeps the running invariant and makes progress |
| PrintEvidence.Drive | src/main/java/org/broadinstitute/hellbender/engine/MultiFeatureWalker.java:58-68 | the loop fails whenever an input is unsorted; when it ends normally every input has been polled in full, in order |
| PrintEvidence.Launch | src/main/java/org/broadinstitute/hellbender/tools/sv/PrintSVEvidence.java:99-105 | the tool starts with its names defaulted to the walker's samples, and the iterator over all inputs |
| PrintEvidence.Finish | src/main/java/org/broadinstitute/hellbender/tools/sv/PrintSVEvidence.java:135-141 | after a clean traversal, a successful finish leaves a strictly ordered output holding the narrowed records (depth: their union per locus) |
| PrintEvidence.Run | src/main/java/org/broadinstitute/hellbender/tools/sv/PrintSVEvidence.java:99-141 | a run fails if an input is unsorted; a successful run closes the sink with a strictly ordered output that holds exactly the narrowed records of all inputs, for depth evidence one union record per locus |

## Left out

- Command-line parsing, the codec lookup from the output path, and the reflective check that every input codec produces the output kind (`PrintSVEvidence.java` lines 76-98) are not modelled. The model requires instead that every input record is of the output kind.
- Codecs, encoding and decoding, header I/O, `makeSink`, the compression level and the queue's initial capacity (lines 106-111) are not modelled. The output sink is a class that records what is written and whether it is closed. `FeatureSink` is not part of this model.
- `hashCode` of the records is not modelled. BAF `equals` with `Double.compare` is not modelled either: the BAF value is carried as a `real` and compared by value equality.
- DepthEvidence.ResolveSameLocusFeatures: the Java code merges into the first record's own `counts` array, so the record written aliases (and mutates) that input object. The model merges into a fresh array and writes a new record value.
- Strings are compared by Dafny character order. Java compares UTF-16 code units, so the two orders differ only on characters outside the Basic Multilingual Plane. `compareTo` is modelled by its sign.
- `IntervalUtils.compareLocatables` is not part of this model. It is taken as lexicographic on contig index in the dictionary, then start, then end. A contig unknown to the dictionary would make it raise; the model requires every record's contig to be in the settled dictionary.
- `SVFeaturesHeader.getSampleIndex` is not part of this model: `SVFeaturesHeader.java` has no such method. It is modelled as the position of the name in the header's sample list.
- `LocusDepth.java` and the concrete output codecs are not part of this model. Locus-depth records are modelled as sample, contig, position and opaque depths. The codecs' `resolveSameLocusFeatures` is modelled as the static resolve of their record kind: union for depth evidence, duplicate-rejecting drain for the others.
- Discordant-pair evidence and its merger are not modelled.
- `PriorityQueue` is a sequence; `poll` takes some minimal element. Tie order, heap layout and capacity are not modelled, and the contracts hold for any tie order.
- `progressMeter` updates are not modelled. Interval queries (`userIntervals`) are not modelled: each input is its whole record sequence.
- DepthSortMerger.DepthEvidenceSortMerger.ResolveSameLocusFeatures: the success path differs as well. The Java code merges into the `counts` array of the first listed record and writes that same object, so the output aliases a mutated input. The model copies the first record's counts into a fresh array and writes a new record value. After a failed union the model leaves the list and the output unchanged. The Java array has been partly merged by then, but the exception ends the run.
- SortMergers.SortMerger: `resolveSameLocusFeatures` is private in the BAF and locus-depth mergers and public in the split-read merger. The model's one class exposes it for all three.
- Merging.Traverse models the iterator alone; the interleaving of `apply` with the iterator is `PrintEvidence.Run`.
- PrintEvidence.Run: the orderings and contents are stated for a run that succeeds. On failure nothing is stated about the partial output.
