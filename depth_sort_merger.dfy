/**
 * `DepthEvidenceSortMerger`: a sink that takes depth evidence in dictionary
 * order of locus, gathers the records of one locus in arrival order, and
 * writes one record per locus whose counts are the union of the group's.
 */
module DepthSortMerger {
  import opened Wrappers
  import opened Dictionaries
  import opened Loci
  import opened Features
  import opened Sinks
  import opened SameLocus
  import opened CountUnion
  import opened DepthEvidence
  import opened SortMergers

  /** The groups one after the other. */
  function Flatten(groups: seq<seq<Feature>>): (r: seq<Feature>)
    ensures groups == [] ==> r == []
  {
    if groups == [] then [] else Flatten(groups[..|groups| - 1]) + groups[|groups| - 1]
  }

  lemma FlattenAppend(groups: seq<seq<Feature>>, g: seq<Feature>)
    ensures Flatten(groups + [g]) == Flatten(groups) + g
  {
    assert (groups + [g])[..|groups|] == groups;
  }

  /**
   * Output record `emitted[i]` is the resolution of group `groups[i]`: a
   * nonempty group of depth records at one locus whose counts can be merged,
   * written as the record at that locus holding their union.
   */
  ghost predicate Resolved(groups: seq<seq<Feature>>, emitted: seq<Feature>) {
    && |groups| == |emitted|
    && forall i | 0 <= i < |groups| ::
         && groups[i] != [] && AllDepth(groups[i]) && AllAt(groups[i], groups[i][0].Loc())
         && Mergeable(Counts(groups[i])) && emitted[i] == UnionRecord(groups[i][0], groups[i])
  }

  /**
   * The invariant of a depth-evidence merger, on the values of its fields: what
   * it received is its resolved groups followed by the list of the current
   * locus; each group was written as its union; unless a group was reopened the
   * output is strictly ordered by locus and no later than the current locus
   * (strictly earlier while the current list is not empty).
   */
  ghost predicate DepthState(dict: Dictionary, list: seq<Feature>, current: Option<Feature>, emitted: seq<Feature>,
                             received: seq<Feature>, groups: seq<seq<Feature>>, reopened: bool)
  {
    && AllKnownOfKind(dict, received, DepthKind)
    && AllDepth(list)
    && (current.None? ==> list == [] && received == [] && groups == [])
    && (current.Some? ==> KnownFeature(dict, current.value) && AllAt(list, current.value.Loc()))
    && received == Flatten(groups) + list
    && Resolved(groups, emitted)
    && (!reopened ==>
          && StrictlyOrdered(dict, emitted)
          && (current.Some? ==>
                && AtOrBefore(dict, emitted, current.value.Loc())
                && (list != [] ==> AllBefore(dict, emitted, current.value.Loc()))))
  }

  lemma DepthStateAfterOpen(dict: Dictionary, feature: Feature)
    requires KnownFeature(dict, feature) && feature.Depth?
    ensures DepthState(dict, [feature], Some(feature), [], [feature], [], false)
  {
    assert StrictlyOrdered(dict, []);
  }

  lemma DepthStateAfterJoin(dict: Dictionary, list: seq<Feature>, current: Feature, emitted: seq<Feature>,
                            received: seq<Feature>, groups: seq<seq<Feature>>, reopened: bool, feature: Feature)
    requires DepthState(dict, list, Some(current), emitted, received, groups, reopened)
    requires KnownFeature(dict, feature) && feature.Depth? && CompareLoci(dict, current, feature) == 0
    ensures DepthState(dict, list + [feature], Some(current), emitted, received + [feature], groups,
                       reopened || list == [])
  {
    CompareLocatablesZero(dict, current.Loc(), feature.Loc());
    AcceptOne(dict, received, DepthKind, feature);
  }

  lemma DepthStateAfterMoveOn(dict: Dictionary, current: Feature, emitted: seq<Feature>,
                              received: seq<Feature>, groups: seq<seq<Feature>>, reopened: bool, feature: Feature)
    requires DepthState(dict, [], Some(current), emitted, received, groups, reopened)
    requires KnownFeature(dict, feature) && feature.Depth? && CompareLoci(dict, current, feature) < 0
    ensures DepthState(dict, [feature], Some(feature), emitted, received + [feature], groups, reopened)
  {
    AcceptOne(dict, received, DepthKind, feature);
    if !reopened {
      MoveOn(dict, emitted, current.Loc(), feature.Loc());
    }
  }

  lemma DepthStateAfterResolve(dict: Dictionary, list: seq<Feature>, current: Feature, emitted: seq<Feature>,
                               received: seq<Feature>, groups: seq<seq<Feature>>, reopened: bool)
    requires DepthState(dict, list, Some(current), emitted, received, groups, reopened)
    requires list != [] && Mergeable(Counts(list))
    ensures DepthState(dict, [], Some(current), emitted + [UnionRecord(list[0], list)], received,
                       groups + [list], reopened)
  {
    var l := current.Loc();
    var merged := UnionRecord(list[0], list);
    FlattenAppend(groups, list);
    assert list[0] in list;
    ResolvedAppend(groups, emitted, list);
    if !reopened {
      AppendGroup(dict, emitted, [merged], l);
    }
  }

  /** A resolved group appended to the log, with its record appended to the output. */
  lemma ResolvedAppend(groups: seq<seq<Feature>>, emitted: seq<Feature>, list: seq<Feature>)
    requires Resolved(groups, emitted)
    requires list != [] && AllDepth(list) && AllAt(list, list[0].Loc()) && Mergeable(Counts(list))
    ensures Resolved(groups + [list], emitted + [UnionRecord(list[0], list)])
  {
    var groups': seq<seq<Feature>>, emitted': seq<Feature> := groups + [list], emitted + [UnionRecord(list[0], list)];
    forall i | 0 <= i < |groups'|
      ensures && groups'[i] != [] && AllDepth(groups'[i]) && AllAt(groups'[i], groups'[i][0].Loc())
              && Mergeable(Counts(groups'[i])) && emitted'[i] == UnionRecord(groups'[i][0], groups'[i])
    {
      if i < |groups| {
        assert groups'[i] == groups[i] && emitted'[i] == emitted[i];
      }
    }
  }

  /** A list whose first `n` count vectors cannot be merged cannot be merged as a whole. */
  lemma ListFoldFails(list: seq<Feature>, n: nat)
    requires AllDepth(list) && n <= |list| && !Mergeable(Counts(list[..n]))
    ensures !Mergeable(Counts(list))
  {
    assert list == list[..n] + list[n..];
    assert Counts(list) == Counts(list[..n]) + Counts(list[n..]);
    if Mergeable(Counts(list)) {
      MergeablePrefix(Counts(list[..n]), Counts(list[n..]));
    }
  }

  /** The count vectors of a prefix one record longer. */
  lemma CountsPrefix(list: seq<Feature>, n: nat)
    requires AllDepth(list) && n < |list|
    ensures Counts(list[..n + 1]) == Counts(list[..n]) + [list[n].counts]
  {
    assert list[..n + 1] == list[..n] + [list[n]];
  }

  /**
   * Record `k` of `list` is the first whose counts cannot be merged with those
   * before it, and `r` is the error folding it in raises: a width mismatch exactly
   * when its width differs from that of the first record, and otherwise, at the
   * locus of the first record, the first slot that both it and an earlier record
   * supply, as a 1-based sample number.
   */
  ghost predicate FailsAt(list: seq<Feature>, k: nat, r: Outcome)
    requires AllDepth(list)
  {
    && 1 <= k < |list|
    && Mergeable(Counts(list[..k])) && !Mergeable(Counts(list[..k + 1]))
    && (r == Fail(SampleListMismatch) <==> |list[k].counts| != |list[0].counts|)
    && (r.Fail? && r.error.MultipleSources? ==>
          var n := r.error.sampleNumber;
          && r == Fail(MultipleSources(n, list[0].contig, list[0].start, list[0].end))
          && 1 <= n <= |list[0].counts| == |list[k].counts|
          && SlotValue(Counts(list[..k]), n - 1) != MISSING_DATA && list[k].counts[n - 1] != MISSING_DATA
          && SlotsUnshared(Counts(list[..k + 1]), n - 1))
  }

  /** No slot below `m` is supplied by two vectors of `g`. */
  ghost predicate SlotsUnshared(g: seq<seq<int>>, m: int) {
    forall j | 0 <= j < m :: Suppliers(g, j) <= 1
  }

  /**
   * The loop of `resolveSameLocusFeatures`: fold the counts of each later record
   * of `list` into a copy of the counts of the first, in list order. It passes
   * exactly when the group's counts can be merged, and then yields their union;
   * a failure is the error of folding in the first record that breaks the union.
   */
  method UnionOfList(list: seq<Feature>) returns (r: Outcome, union: seq<int>)
    requires list != [] && AllDepth(list)
    ensures r.Pass? <==> Mergeable(Counts(list))
    ensures r.Pass? ==> union == Merged(Counts(list))
    ensures r.Fail? ==> r.error == SampleListMismatch || r.error.MultipleSources?
    ensures r.Fail? && r.error.MultipleSources? ==>
      r.error.contig == list[0].contig && r.error.start == list[0].start && r.error.end == list[0].end
    ensures r.Fail? ==> exists k :: FailsAt(list, k, r)
  {
    var evidence := list[0];
    var counts := new int[|evidence.counts|](i requires 0 <= i < |evidence.counts| => evidence.counts[i]);
    MergedSingle(evidence.counts);
    CountsPrefix(list, 0);
    assert Counts(list[..1]) == [evidence.counts];
    r := Pass;
    for ele := 1 to |list|
      invariant r.Pass? && Mergeable(Counts(list[..ele])) && counts[..] == Merged(Counts(list[..ele]))
    {
      var tmp := list[ele];
      CountsPrefix(list, ele);
      r := MergeInto(counts, tmp.counts, Counts(list[..ele]), evidence.contig, evidence.start, evidence.end);
      if r.Fail? {
        assert FailsAt(list, ele, r);
        ListFoldFails(list, ele + 1);
        return r, [];
      }
    }
    assert list[..|list|] == list;
    union := counts[..];
  }

  class DepthEvidenceSortMerger {
    const dictionary: Dictionary
    const outputSink: Sink
    var sameLocusList: seq<Feature>
    var currentLocus: Option<Feature>
    /** The output sink's contents before this merger wrote to it. */
    ghost const before: seq<Feature>
    /** The records this merger has written to the output sink. */
    ghost var emitted: seq<Feature>
    /** The records this merger has accepted. */
    ghost var received: seq<Feature>
    /** The groups resolved so far, one per record written. */
    ghost var groups: seq<seq<Feature>>
    /**
     * A record was listed at a locus whose group had already been written
     * (possible only after an outside call of `ResolveSameLocusFeatures`).
     */
    ghost var reopened: bool

    ghost predicate Valid()
      reads this, outputSink
    {
      && outputSink.written == before + emitted
      && DepthState(dictionary, sameLocusList, currentLocus, emitted, received, groups, reopened)
    }

    constructor (dictionary: Dictionary, outputSink: Sink)
      ensures Valid()
      ensures this.dictionary == dictionary && this.outputSink == outputSink
      ensures sameLocusList == [] && currentLocus.None? && before == outputSink.written
      ensures emitted == [] && received == [] && groups == [] && !reopened
    {
      this.dictionary := dictionary;
      this.outputSink := outputSink;
      sameLocusList := [];
      currentLocus := None;
      before := outputSink.written;
      emitted := [];
      received := [];
      groups := [];
      reopened := false;
      new;
      assert outputSink.written == before + [];
      assert StrictlyOrdered(dictionary, []);
    }

    /**
     * `resolveSameLocusFeatures`: nothing for an empty list; otherwise fold the
     * counts of each later record of the list into the counts of the first,
     * write the first with the union, and clear the list. A failed union
     * writes nothing and keeps the list.
     */
    method ResolveSameLocusFeatures() returns (r: Outcome)
      requires Valid() && !outputSink.closed
      modifies this, outputSink
      ensures Valid() && !outputSink.closed
      ensures currentLocus == old(currentLocus) && received == old(received) && reopened == old(reopened)
      ensures old(sameLocusList) == [] ==> r.Pass? && emitted == old(emitted) && groups == old(groups)
      ensures old(sameLocusList) != [] ==> (r.Pass? <==> Mergeable(Counts(old(sameLocusList))))
      ensures r.Pass? ==> sameLocusList == []
      ensures r.Pass? && old(sameLocusList) != [] ==>
        && emitted == old(emitted) + [UnionRecord(old(sameLocusList)[0], old(sameLocusList))]
        && groups == old(groups) + [old(sameLocusList)]
      ensures r.Fail? ==>
        && sameLocusList == old(sameLocusList) && emitted == old(emitted) && groups == old(groups)
        && (r.error == SampleListMismatch || r.error.MultipleSources?)
    {
      if sameLocusList == [] {
        return Pass;
      }
      var list := sameLocusList;
      var counts;
      r, counts := UnionOfList(list);
      if r.Fail? {
        return;
      }
      Emit(counts);
    }

    /** Write the first record of the list with the union of the list's counts, and clear the list. */
    method Emit(union: seq<int>)
      requires Valid() && !outputSink.closed && sameLocusList != []
      requires Mergeable(Counts(sameLocusList)) && union == Merged(Counts(sameLocusList))
      modifies this, outputSink
      ensures Valid() && !outputSink.closed
      ensures currentLocus == old(currentLocus) && received == old(received) && reopened == old(reopened)
      ensures sameLocusList == []
      ensures emitted == old(emitted) + [UnionRecord(old(sameLocusList)[0], old(sameLocusList))]
      ensures groups == old(groups) + [old(sameLocusList)]
    {
      var evidence := sameLocusList[0];
      ghost var list := sameLocusList;
      ghost var emitted' := emitted + [UnionRecord(evidence, list)];
      DepthStateAfterResolve(dictionary, list, currentLocus.value, emitted, received, groups, reopened);
      AppendOne(before, emitted, UnionRecord(evidence, list));
      outputSink.Write(Depth(evidence.contig, evidence.start, evidence.end, union));
      Commit(emitted', groups + [list]);
    }

    /** Record a written group: the list is cleared, and the group and its record are logged. */
    method Commit(ghost emitted': seq<Feature>, ghost groups': seq<seq<Feature>>)
      requires outputSink.written == before + emitted'
      requires DepthState(dictionary, [], currentLocus, emitted', received, groups', reopened)
      modifies this
      ensures Valid()
      ensures sameLocusList == [] && emitted == emitted' && groups == groups'
      ensures currentLocus == old(currentLocus) && received == old(received) && reopened == old(reopened)
    {
      emitted, groups, sameLocusList := emitted', groups', [];
    }

    /** The first record opens the first group. */
    method Open(feature: Feature)
      requires Valid() && currentLocus.None?
      requires KnownFeature(dictionary, feature) && feature.Depth?
      modifies this
      ensures Valid()
      ensures currentLocus == Some(feature) && sameLocusList == [feature] && received == [feature]
      ensures emitted == old(emitted) && groups == old(groups) && reopened == old(reopened)
    {
      DepthStateAfterOpen(dictionary, feature);
      currentLocus := Some(feature);
      sameLocusList := [feature];
      received := [feature];
    }

    /** A record at the current locus joins its group. */
    method Join(feature: Feature)
      requires Valid() && currentLocus.Some?
      requires KnownFeature(dictionary, feature) && feature.Depth?
      requires CompareLoci(dictionary, currentLocus.value, feature) == 0
      modifies this
      ensures Valid()
      ensures currentLocus == old(currentLocus) && sameLocusList == old(sameLocusList) + [feature]
      ensures received == old(received) + [feature] && emitted == old(emitted) && groups == old(groups)
      ensures reopened == (old(reopened) || old(sameLocusList) == [])
    {
      DepthStateAfterJoin(dictionary, sameLocusList, currentLocus.value, emitted, received, groups, reopened, feature);
      reopened := reopened || sameLocusList == [];
      sameLocusList := sameLocusList + [feature];
      received := received + [feature];
    }

    /** With the current group written, a record at a later locus opens the next group. */
    method Advance(feature: Feature)
      requires Valid() && currentLocus.Some? && sameLocusList == []
      requires KnownFeature(dictionary, feature) && feature.Depth?
      requires CompareLoci(dictionary, currentLocus.value, feature) < 0
      modifies this
      ensures Valid()
      ensures currentLocus == Some(feature) && sameLocusList == [feature]
      ensures received == old(received) + [feature] && emitted == old(emitted) && groups == old(groups)
      ensures reopened == old(reopened)
    {
      DepthStateAfterMoveOn(dictionary, currentLocus.value, emitted, received, groups, reopened, feature);
      currentLocus := Some(feature);
      sameLocusList := [feature];
      received := received + [feature];
    }

    /**
     * `write`: the first record opens a group; a record at the current locus
     * joins it; a record at a later locus first has the group resolved, then
     * opens its own; a record at an earlier locus is rejected.
     */
    method Write(feature: Feature) returns (r: Outcome)
      requires Valid() && !outputSink.closed
      requires KnownFeature(dictionary, feature) && feature.Depth?
      modifies this, outputSink
      ensures Valid() && !outputSink.closed
      ensures r.Pass? ==>
        received == old(received) + [feature] && currentLocus.Some? && currentLocus.value.Loc() == feature.Loc()
      ensures r.Fail? ==> received == old(received) && sameLocusList == old(sameLocusList)
      ensures old(currentLocus).None? ==>
        r.Pass? && currentLocus == Some(feature) && sameLocusList == [feature] && emitted == old(emitted)
      ensures old(currentLocus).Some? && CompareLoci(dictionary, old(currentLocus).value, feature) == 0 ==>
        r.Pass? && currentLocus == old(currentLocus) && sameLocusList == old(sameLocusList) + [feature] &&
        emitted == old(emitted)
      ensures old(currentLocus).Some? && CompareLoci(dictionary, old(currentLocus).value, feature) < 0 ==>
        && (old(sameLocusList) != [] ==> (r.Pass? <==> Mergeable(Counts(old(sameLocusList)))))
        && (r.Pass? ==> currentLocus == Some(feature) && sameLocusList == [feature])
        && (r.Pass? && old(sameLocusList) != [] ==>
              emitted == old(emitted) + [UnionRecord(old(sameLocusList)[0], old(sameLocusList))])
      ensures old(currentLocus).Some? && CompareLoci(dictionary, old(currentLocus).value, feature) > 0 ==>
        r == Fail(NotInDictionaryOrder) && emitted == old(emitted)
    {
      if currentLocus.None? {
        Open(feature);
        return Pass;
      }
      var cmp := CompareLoci(dictionary, currentLocus.value, feature);
      if cmp == 0 {
        CompareLocatablesZero(dictionary, currentLocus.value.Loc(), feature.Loc());
        Join(feature);
        return Pass;
      } else if cmp < 0 {
        r := ResolveSameLocusFeatures();
        if r.Fail? {
          return;
        }
        Advance(feature);
      } else {
        return Fail(NotInDictionaryOrder);
      }
    }

    /**
     * `close`: resolve the last group, then close the output sink. Then every
     * record received belongs to exactly one written group, in order.
     */
    method Close() returns (r: Outcome)
      requires Valid() && !outputSink.closed
      modifies this, outputSink
      ensures Valid()
      ensures old(sameLocusList) != [] ==> (r.Pass? <==> Mergeable(Counts(old(sameLocusList))))
      ensures r.Pass? <==> outputSink.closed
      ensures r.Pass? ==> Flatten(groups) == received && Resolved(groups, emitted)
      ensures r.Pass? && !reopened ==> StrictlyOrdered(dictionary, emitted)
    {
      r := ResolveSameLocusFeatures();
      if r.Fail? {
        return;
      }
      outputSink.Close();
    }
  }
}
