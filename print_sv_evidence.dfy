/**
 * The `PrintSVEvidence` tool: it receives the walker's merged stream of
 * evidence records, narrows each record to the chosen samples, gathers the
 * records of one locus in a priority queue ordered by the output codec's
 * same-locus comparator, and has the codec resolve each gathered group into the
 * output sink. Unlike the sort mergers it never checks that a record comes no
 * earlier than the current locus: it relies on the merging iterator for that.
 */
module PrintEvidence {
  import opened Wrappers
  import opened Dictionaries
  import opened Loci
  import opened StringOrder
  import opened Features
  import opened Sinks
  import opened SameLocus
  import opened CountUnion
  import opened DepthEvidence
  import opened SortMergers
  import opened DepthSortMerger
  import opened Merging
  import Walker

  /**
   * `extractSamples` of BAF, split-read and locus-depth evidence: the record
   * itself when its sample is among `names`, null otherwise.
   */
  function SelectBySample(f: Feature, names: seq<string>): (r: Option<Feature>)
    requires !f.Depth?
    ensures r.Some? <==> f.sample in names
    ensures r.Some? ==> r.value == f
  {
    if f.sample in names then Some(f) else None
  }

  /**
   * Selecting by one list of names and then by another keeps exactly the
   * records whose sample is in both.
   */
  lemma SelectTwice(f: Feature, outer: seq<string>, inner: seq<string>)
    requires !f.Depth?
    ensures var once := SelectBySample(f, outer);
            (if once.None? then None else SelectBySample(once.value, inner))
              == (if f.sample in outer && f.sample in inner then Some(f) else None)
  {
  }

  /**
   * `featureArg.extractSamples(sampleNames, header)`, dispatched on the record's
   * class: depth evidence is re-indexed through its header and never dropped
   * (but may raise); the other kinds are kept or dropped whole. A kept record
   * stays at its locus and keeps its kind.
   */
  function Extract(f: Feature, names: seq<string>, header: Header): (r: Result<Option<Feature>>)
    ensures !f.Depth? ==> r == Ok(SelectBySample(f, names))
    ensures f.Depth? ==> (r.Ok? <==> ExtractSamples(f, names, header).Ok?)
    ensures f.Depth? && r.Err? ==> r.error == ExtractSamples(f, names, header).error
    ensures f.Depth? && r.Ok? ==> r.value == Some(ExtractSamples(f, names, header).value)
    ensures r.Ok? && r.value.Some? ==> r.value.value.Loc() == f.Loc() && r.value.value.Depth? == f.Depth?
  {
    if f.Depth? then
      match ExtractSamples(f, names, header)
      case Err(e) => Err(e)
      case Ok(g) => Ok(Some(g))
    else Ok(SelectBySample(f, names))
  }

  /**
   * What `apply` makes of its argument: the record unchanged when there is no
   * sample filtering, otherwise what `extractSamples` yields.
   */
  function Selection(noSampleFiltering: bool, names: seq<string>, f: Feature, header: Header): (r: Result<Option<Feature>>)
    ensures noSampleFiltering ==> r == Ok(Some(f))
    ensures !noSampleFiltering ==> r == Extract(f, names, header)
  {
    if noSampleFiltering then Ok(Some(f)) else Extract(f, names, header)
  }

  /**
   * Narrowing is idempotent: a record kept by narrowing to `names` is kept, and
   * is unchanged, when narrowed to `names` again through a header that lists
   * exactly `names`, as the tool's own output header does.
   */
  lemma ExtractIdempotent(f: Feature, names: seq<string>, header: Header, dict: Option<Dictionary>)
    requires Distinct(names)
    requires Extract(f, names, header).Ok? && Extract(f, names, header).value.Some?
    ensures var g := Extract(f, names, header).value.value;
            Extract(g, names, SVFeaturesHeader(dict, Some(names))) == Ok(Some(g))
  {
    var g := Extract(f, names, header).value.value;
    if f.Depth? {
      ExtractAllSamplesIsIdentity(g, names, dict);
    }
  }

  /** A sorted, duplicate-free list of names holds no name twice. */
  lemma StrictlySortedIsDistinct(s: seq<string>)
    requires StrictlySorted(s)
    ensures Distinct(s)
  {
    forall i, j | 0 <= i < j < |s| ensures s[i] != s[j] {
      assert CompareStrings(s[i], s[j]) < 0;
    }
  }

  /**
   * What the output codec's `resolveSameLocusFeatures` does with `group`, `out`
   * being what it writes: depth evidence is merged into one record holding the
   * union of the group's counts; the other kinds are written unchanged in key
   * order, rejecting a duplicate key.
   */
  ghost predicate GroupResolved(kind: Kind, group: seq<Feature>, out: seq<Feature>, r: Outcome) {
    if kind == DepthKind then
      && AllDepth(group)
      && (group == [] ==> r.Pass? && out == [])
      && (group != [] ==>
            && (r.Pass? <==> Mergeable(Counts(group)))
            && (r.Pass? ==> out == [UnionRecord(group[0], group)])
            && (r.Fail? ==> out == []))
    else
      RejectedDuplicates(group, out, r)
  }

  /** The union record of a group at one locus does not depend on which record is polled first. */
  lemma UnionRecordOfAny(first: Feature, group: seq<Feature>, l: Locus)
    requires first in group && AllDepth(group) && AllAt(group, l) && Mergeable(Counts(group))
    ensures UnionRecord(first, group) == UnionRecord(group[0], group)
  {
    assert group[0] in group;
  }

  /**
   * `outputCodec.resolveSameLocusFeatures(sameLocusQueue, outputSink)` for a
   * group of records of the codec's kind at one locus; `rest` is what is left in
   * the queue.
   */
  method ResolveGroup(kind: Kind, group: seq<Feature>, ghost l: Locus, sink: Sink)
    returns (r: Outcome, rest: seq<Feature>, ghost out: seq<Feature>)
    requires !sink.closed && AllAt(group, l) && forall f | f in group :: OfKind(f, kind)
    modifies sink
    ensures !sink.closed && sink.written == old(sink.written) + out
    ensures GroupResolved(kind, group, out, r)
    ensures r.Pass? ==> rest == []
    ensures kind == DepthKind && r.Fail? ==> rest == group
    ensures multiset(rest) <= multiset(group)
  {
    if kind == DepthKind {
      r := DepthEvidence.ResolveSameLocusFeatures(group, sink);
      if r.Pass? && group != [] {
        ghost var first :| first in group && sink.written == old(sink.written) + [UnionRecord(first, group)];
        UnionRecordOfAny(first, group, l);
      }
      out := sink.written[|old(sink.written)|..];
      rest := if r.Pass? then [] else group;
    } else {
      r, rest := DrainRejectingDuplicates(group, sink);
      out := sink.written[|old(sink.written)|..];
    }
  }

  /** A record at an earlier locus than the current one opens a new group, and the output loses its order. */
  lemma StateAfterStepBack(dict: Dictionary, kind: Kind, current: Feature,
                           emitted: seq<Feature>, received: seq<Feature>, failed: bool, disordered: bool, feature: Feature)
    requires MergerState(dict, kind, [], Some(current), emitted, received, failed, disordered)
    requires KnownFeature(dict, feature) && OfKind(feature, kind)
    ensures MergerState(dict, kind, [feature], Some(feature), emitted, received + [feature], failed, true)
  {
    AcceptOne(dict, received, kind, feature);
    if !failed {
      Enqueue(emitted, [], received, feature.Loc(), feature);
    }
  }

  lemma DepthStateAfterStepBack(dict: Dictionary, current: Feature, emitted: seq<Feature>,
                                received: seq<Feature>, groups: seq<seq<Feature>>, disordered: bool, feature: Feature)
    requires DepthState(dict, [], Some(current), emitted, received, groups, disordered)
    requires KnownFeature(dict, feature) && feature.Depth?
    ensures DepthState(dict, [feature], Some(feature), emitted, received + [feature], groups, true)
  {
    AcceptOne(dict, received, DepthKind, feature);
  }

  /**
   * The invariant of the tool's grouping, on the values of its fields: that of
   * the depth-evidence merger for depth evidence, that of the rejecting sort
   * mergers otherwise, with "a record arrived at an earlier locus" in place of
   * "a group was reopened".
   */
  ghost predicate ToolState(dict: Dictionary, kind: Kind, queue: seq<Feature>, current: Option<Feature>,
                            emitted: seq<Feature>, received: seq<Feature>, groups: seq<seq<Feature>>,
                            failed: bool, disordered: bool)
  {
    && (forall f | f in queue :: OfKind(f, kind))
    && (current.Some? ==> AllAt(queue, current.value.Loc()))
    && (kind == DepthKind ==> DepthState(dict, queue, current, emitted, received, groups, disordered))
    && (kind != DepthKind ==> MergerState(dict, kind, queue, current, emitted, received, failed, disordered))
  }

  /** The groups resolved after resolving `group`: depth evidence records each group it writes. */
  function GroupsAfter(kind: Kind, groups: seq<seq<Feature>>, group: seq<Feature>, r: Outcome): seq<seq<Feature>> {
    if kind == DepthKind && r.Pass? && group != [] then groups + [group] else groups
  }

  lemma AppendAll(before: seq<Feature>, out0: seq<Feature>, out: seq<Feature>)
    ensures (before + out0) + out == before + (out0 + out)
    ensures (out0 + out)[|out0|..] == out && out0 <= out0 + out
  {
  }

  /** Resolving the current group (or failing part way) keeps the invariant. */
  lemma ToolStateAfterResolve(dict: Dictionary, kind: Kind, group: seq<Feature>, current: Option<Feature>,
                              out0: seq<Feature>, out: seq<Feature>, rest: seq<Feature>, received: seq<Feature>,
                              groups: seq<seq<Feature>>, failed: bool, disordered: bool, r: Outcome,
                              emitted': seq<Feature>, groups': seq<seq<Feature>>, failed': bool)
    requires ToolState(dict, kind, group, current, out0, received, groups, failed, disordered)
    requires GroupResolved(kind, group, out, r) && multiset(rest) <= multiset(group)
    requires r.Pass? ==> rest == []
    requires kind == DepthKind && r.Fail? ==> rest == group
    requires emitted' == out0 + out && groups' == GroupsAfter(kind, groups, group, r) && failed' == (failed || r.Fail?)
    ensures ToolState(dict, kind, rest, current, emitted', received, groups', failed', disordered)
  {
    if kind == DepthKind {
      if r.Pass? && group != [] {
        DepthStateAfterResolve(dict, group, current.value, out0, received, groups, disordered);
      } else {
        assert out0 + out == out0;
      }
    } else {
      StateAfterResolve(dict, kind, group, current, out0, out, rest, received, failed, disordered, r);
    }
    forall f | f in rest ensures f in group {
      assert f in multiset(rest);
    }
  }

  /** A record at the current locus joins its group. */
  lemma ToolStateAfterJoin(dict: Dictionary, kind: Kind, queue: seq<Feature>, current: Feature,
                           emitted: seq<Feature>, received: seq<Feature>, groups: seq<seq<Feature>>,
                           failed: bool, disordered: bool, feature: Feature)
    requires ToolState(dict, kind, queue, Some(current), emitted, received, groups, failed, disordered)
    requires KnownFeature(dict, feature) && OfKind(feature, kind) && CompareLoci(dict, current, feature) == 0
    ensures ToolState(dict, kind, queue + [feature], Some(current), emitted, received + [feature], groups,
                      failed, disordered || queue == [])
  {
    CompareLocatablesZero(dict, current.Loc(), feature.Loc());
    if kind == DepthKind {
      DepthStateAfterJoin(dict, queue, current, emitted, received, groups, disordered, feature);
    } else {
      StateAfterJoin(dict, kind, queue, current, emitted, received, failed, disordered, feature);
    }
  }

  /**
   * With the previous group resolved, a record at another locus (or the first
   * record) opens a group of its own; one at an earlier locus loses the order.
   */
  lemma ToolStateAfterStart(dict: Dictionary, kind: Kind, current: Option<Feature>,
                            emitted: seq<Feature>, received: seq<Feature>, groups: seq<seq<Feature>>,
                            failed: bool, disordered: bool, feature: Feature)
    requires ToolState(dict, kind, [], current, emitted, received, groups, failed, disordered)
    requires KnownFeature(dict, feature) && OfKind(feature, kind)
    requires current.Some? ==> CompareLoci(dict, current.value, feature) != 0
    ensures ToolState(dict, kind, [feature], Some(feature), emitted, received + [feature], groups, failed,
                      disordered || (current.Some? && CompareLoci(dict, current.value, feature) > 0))
  {
    if current.None? {
      if kind == DepthKind {
        DepthStateAfterOpen(dict, feature);
      } else {
        StateAfterOpen(dict, kind, feature);
      }
    } else if CompareLoci(dict, current.value, feature) < 0 {
      if kind == DepthKind {
        DepthStateAfterMoveOn(dict, current.value, emitted, received, groups, disordered, feature);
      } else {
        StateAfterMoveOn(dict, kind, current.value, emitted, received, failed, disordered, feature);
      }
    } else if kind == DepthKind {
      DepthStateAfterStepBack(dict, current.value, emitted, received, groups, disordered, feature);
    } else {
      StateAfterStepBack(dict, kind, current.value, emitted, received, failed, disordered, feature);
    }
  }

  /**
   * `resolveSameLocusFeatures` on the tool's grouping state: resolve the queued
   * group into the sink, keeping the invariant.
   */
  method ResolveState(dict: Dictionary, kind: Kind, queue: seq<Feature>, current: Option<Feature>,
                      ghost emitted: seq<Feature>, ghost received: seq<Feature>, ghost groups: seq<seq<Feature>>,
                      ghost failed: bool, ghost disordered: bool, sink: Sink)
    returns (r: Outcome, rest: seq<Feature>, ghost out: seq<Feature>, ghost groups': seq<seq<Feature>>, ghost failed': bool)
    requires ToolState(dict, kind, queue, current, emitted, received, groups, failed, disordered) && !sink.closed
    modifies sink
    ensures !sink.closed && sink.written == old(sink.written) + out
    ensures GroupResolved(kind, queue, out, r) && (r.Pass? ==> rest == []) && failed' == (failed || r.Fail?)
    ensures ToolState(dict, kind, rest, current, emitted + out, received, groups', failed', disordered)
  {
    ghost var l := if current.Some? then current.value.Loc() else Locus("", 0, 0);
    r, rest, out := ResolveGroup(kind, queue, l, sink);
    groups' := GroupsAfter(kind, groups, queue, r);
    failed' := failed || r.Fail?;
    ToolStateAfterResolve(dict, kind, queue, current, emitted, out, rest, received, groups, failed, disordered, r,
                          emitted + out, groups', failed');
  }

  class PrintSVEvidence {
    const dictionary: Dictionary
    /** The record kind of the output codec, which every input produces as well. */
    const kind: Kind
    const outputSink: Sink
    /** The `LinkedHashSet` of sample names to keep, in insertion order. */
    var sampleNames: seq<string>
    var noSampleFiltering: bool
    var currentLocus: Option<Feature>
    /** The priority queue of the current locus's records, in the order they were added. */
    var sameLocusQueue: seq<Feature>
    /** The output sink's contents before the tool wrote to it. */
    ghost const before: seq<Feature>
    /** The records the tool has written to the output sink. */
    ghost var emitted: seq<Feature>
    /** The records (after narrowing) that `apply` has queued. */
    ghost var received: seq<Feature>
    /** For depth evidence: the groups resolved so far, one per record written. */
    ghost var groups: seq<seq<Feature>>
    /** A resolution raised an exception part way. */
    ghost var failed: bool
    /** A record arrived at an earlier locus than the current one. */
    ghost var disordered: bool

    ghost predicate Valid()
      reads this, outputSink
    {
      && outputSink.written == before + emitted
      && Distinct(sampleNames)
      && ToolState(dictionary, kind, sameLocusQueue, currentLocus, emitted, received, groups, failed, disordered)
    }

    /** Between calls of `apply` the current locus's group is never empty. */
    ghost predicate Grouping()
      reads this
    {
      !failed && currentLocus.Some? ==> sameLocusQueue != []
    }

    /** The tool as its arguments leave it: `sampleNames` holds the names given on the command line. */
    constructor (dictionary: Dictionary, kind: Kind, outputSink: Sink, sampleNames: seq<string>)
      requires Distinct(sampleNames)
      ensures Valid() && Grouping()
      ensures this.dictionary == dictionary && this.kind == kind && this.outputSink == outputSink
      ensures this.sampleNames == sampleNames && !noSampleFiltering
      ensures currentLocus.None? && sameLocusQueue == [] && before == outputSink.written
      ensures emitted == [] && received == [] && groups == [] && !failed && !disordered
    {
      this.dictionary := dictionary;
      this.kind := kind;
      this.outputSink := outputSink;
      this.sampleNames := sampleNames;
      noSampleFiltering := false;
      currentLocus := None;
      sameLocusQueue := [];
      before := outputSink.written;
      emitted := [];
      received := [];
      groups := [];
      failed := false;
      disordered := false;
      new;
      assert outputSink.written == before + [];
    }

    /**
     * The sample defaulting of `onTraversalStart`: with no names given, keep the
     * samples the walker gathered from the headers; with none there either, do
     * no sample filtering at all.
     */
    method OnTraversalStart(walkerSamples: seq<string>)
      requires Valid() && Grouping() && StrictlySorted(walkerSamples)
      modifies this
      ensures Valid() && Grouping()
      ensures old(sampleNames) != [] ==> sampleNames == old(sampleNames) && noSampleFiltering == old(noSampleFiltering)
      ensures old(sampleNames) == [] ==>
        sampleNames == walkerSamples && noSampleFiltering == (old(noSampleFiltering) || walkerSamples == [])
      ensures currentLocus == old(currentLocus) && sameLocusQueue == old(sameLocusQueue)
      ensures emitted == old(emitted) && received == old(received) && groups == old(groups)
      ensures failed == old(failed) && disordered == old(disordered)
    {
      if sampleNames == [] {
        StrictlySortedIsDistinct(walkerSamples);
        sampleNames := walkerSamples;
        if sampleNames == [] {
          noSampleFiltering := true;
        }
      }
    }

    /** Resolve the current group into the output sink; `currentLocus` is kept. */
    method ResolveSameLocusFeatures() returns (r: Outcome, ghost out: seq<Feature>)
      requires Valid() && !outputSink.closed
      modifies this, outputSink
      ensures Valid() && !outputSink.closed
      ensures sampleNames == old(sampleNames) && noSampleFiltering == old(noSampleFiltering)
      ensures currentLocus == old(currentLocus) && received == old(received) && disordered == old(disordered)
      ensures emitted == old(emitted) + out && GroupResolved(kind, old(sameLocusQueue), out, r)
      ensures r.Pass? ==> sameLocusQueue == []
      ensures failed == (old(failed) || r.Fail?)
    {
      var rest;
      ghost var groups', failed';
      r, rest, out, groups', failed' := ResolveState(dictionary, kind, sameLocusQueue, currentLocus, emitted, received,
                                                     groups, failed, disordered, outputSink);
      AppendAll(before, emitted, out);
      Commit(rest, emitted + out, groups', failed');
    }

    /** Take on the grouping state a resolution leaves. */
    method Commit(rest: seq<Feature>, ghost emitted': seq<Feature>, ghost groups': seq<seq<Feature>>, ghost failed': bool)
      requires Distinct(sampleNames) && outputSink.written == before + emitted'
      requires ToolState(dictionary, kind, rest, currentLocus, emitted', received, groups', failed', disordered)
      modifies this
      ensures Valid()
      ensures sameLocusQueue == rest && emitted == emitted' && groups == groups' && failed == failed'
      ensures sampleNames == old(sampleNames) && noSampleFiltering == old(noSampleFiltering)
      ensures currentLocus == old(currentLocus) && received == old(received) && disordered == old(disordered)
    {
      emitted, groups, sameLocusQueue, failed := emitted', groups', rest, failed';
    }

    /** A record at the current locus joins its group. */
    method Join(feature: Feature)
      requires Valid() && currentLocus.Some?
      requires KnownFeature(dictionary, feature) && OfKind(feature, kind)
      requires CompareLoci(dictionary, currentLocus.value, feature) == 0
      modifies this
      ensures Valid()
      ensures currentLocus == old(currentLocus) && sameLocusQueue == old(sameLocusQueue) + [feature]
      ensures received == old(received) + [feature] && emitted == old(emitted) && groups == old(groups)
      ensures failed == old(failed) && disordered == (old(disordered) || old(sameLocusQueue) == [])
      ensures sampleNames == old(sampleNames) && noSampleFiltering == old(noSampleFiltering)
    {
      ToolStateAfterJoin(dictionary, kind, sameLocusQueue, currentLocus.value, emitted, received, groups, failed,
                         disordered, feature);
      disordered := disordered || sameLocusQueue == [];
      sameLocusQueue := sameLocusQueue + [feature];
      received := received + [feature];
    }

    /**
     * With the previous group resolved, a record at another locus (or the first
     * record) becomes the current locus and the one record of its group.
     */
    method Start(feature: Feature)
      requires Valid() && sameLocusQueue == []
      requires KnownFeature(dictionary, feature) && OfKind(feature, kind)
      requires currentLocus.Some? ==> CompareLoci(dictionary, currentLocus.value, feature) != 0
      modifies this
      ensures Valid()
      ensures currentLocus == Some(feature) && sameLocusQueue == [feature]
      ensures received == old(received) + [feature] && emitted == old(emitted) && groups == old(groups)
      ensures failed == old(failed)
      ensures disordered == (old(disordered) ||
                             (old(currentLocus).Some? && CompareLoci(dictionary, old(currentLocus).value, feature) > 0))
      ensures sampleNames == old(sampleNames) && noSampleFiltering == old(noSampleFiltering)
    {
      ToolStateAfterStart(dictionary, kind, currentLocus, emitted, received, groups, failed, disordered, feature);
      disordered := disordered || (currentLocus.Some? && CompareLoci(dictionary, currentLocus.value, feature) > 0);
      currentLocus := Some(feature);
      sameLocusQueue := [feature];
      received := received + [feature];
    }

    /**
     * `apply`: narrow the record (unless there is no sample filtering) and drop
     * it if nothing of it is kept; a record at the current locus joins its
     * group; any other record, the first included, has the current group
     * resolved and then starts a group of its own, whether its locus is later or
     * earlier.
     */
    method Apply(featureArg: Feature, header: Header) returns (r: Outcome)
      requires Valid() && Grouping() && !outputSink.closed
      requires KnownFeature(dictionary, featureArg) && OfKind(featureArg, kind)
      modifies this, outputSink
      ensures Valid() && Grouping() && !outputSink.closed
      ensures sampleNames == old(sampleNames) && noSampleFiltering == old(noSampleFiltering)
      ensures old(emitted) <= emitted
      ensures var sel := Selection(noSampleFiltering, sampleNames, featureArg, header);
        && (sel.Err? || sel.value.None? ==>
              && r == (if sel.Err? then Fail(sel.error) else Pass)
              && currentLocus == old(currentLocus) && sameLocusQueue == old(sameLocusQueue)
              && emitted == old(emitted) && received == old(received) && groups == old(groups)
              && failed == old(failed) && disordered == old(disordered))
        && (sel.Ok? && sel.value.Some? ==>
              var g := sel.value.value;
              && KnownFeature(dictionary, g) && OfKind(g, kind)
              && (old(currentLocus).Some? && CompareLoci(dictionary, old(currentLocus).value, g) == 0 ==>
                    && r.Pass? && currentLocus == old(currentLocus)
                    && sameLocusQueue == old(sameLocusQueue) + [g]
                    && emitted == old(emitted) && received == old(received) + [g] && failed == old(failed))
              && (old(currentLocus).None? || CompareLoci(dictionary, old(currentLocus).value, g) != 0 ==>
                    && GroupResolved(kind, old(sameLocusQueue), emitted[|old(emitted)|..], r)
                    && failed == (old(failed) || r.Fail?)
                    && (r.Pass? ==> currentLocus == Some(g) && sameLocusQueue == [g] && received == old(received) + [g]))
              && (r.Pass? && !old(failed) ==>
                    (disordered <==>
                       old(disordered) ||
                       (old(currentLocus).Some? && CompareLoci(dictionary, old(currentLocus).value, g) > 0))))
    {
      var narrowed := Selection(noSampleFiltering, sampleNames, featureArg, header);
      if narrowed.Err? {
        return Fail(narrowed.error);
      }
      if narrowed.value.None? {
        return Pass;
      }
      r := Place(narrowed.value.value);
    }

    /**
     * `apply` on a record in locus order, while no resolution has failed and no
     * record has come in early: it queues what narrowing keeps, and the current
     * locus stays or moves to the record's.
     */
    method Take(feature: Feature, header: Header) returns (r: Outcome)
      requires Valid() && Grouping() && !outputSink.closed && !failed && !disordered
      requires KnownFeature(dictionary, feature) && OfKind(feature, kind)
      requires currentLocus.Some? ==> CompareLoci(dictionary, currentLocus.value, feature) <= 0
      modifies this, outputSink
      ensures Valid() && Grouping() && !outputSink.closed
      ensures sampleNames == old(sampleNames) && noSampleFiltering == old(noSampleFiltering)
      ensures r.Pass? ==>
        && !failed && !disordered
        && received == old(received) + Chosen(Selection(noSampleFiltering, sampleNames, feature, header))
        && (currentLocus.Some? ==> currentLocus == old(currentLocus) || currentLocus.value.Loc() == feature.Loc())
    {
      r := Apply(feature, header);
    }

    /**
     * The grouping part of `apply`, for a record already narrowed: join the
     * current group, or resolve it and start a new one.
     */
    method Place(feature: Feature) returns (r: Outcome)
      requires Valid() && Grouping() && !outputSink.closed
      requires KnownFeature(dictionary, feature) && OfKind(feature, kind)
      modifies this, outputSink
      ensures Valid() && Grouping() && !outputSink.closed
      ensures sampleNames == old(sampleNames) && noSampleFiltering == old(noSampleFiltering)
      ensures old(emitted) <= emitted
      ensures old(currentLocus).Some? && CompareLoci(dictionary, old(currentLocus).value, feature) == 0 ==>
        && r.Pass? && currentLocus == old(currentLocus)
        && sameLocusQueue == old(sameLocusQueue) + [feature]
        && emitted == old(emitted) && received == old(received) + [feature] && failed == old(failed)
      ensures old(currentLocus).None? || CompareLoci(dictionary, old(currentLocus).value, feature) != 0 ==>
        && GroupResolved(kind, old(sameLocusQueue), emitted[|old(emitted)|..], r)
        && failed == (old(failed) || r.Fail?)
        && (r.Pass? ==> currentLocus == Some(feature) && sameLocusQueue == [feature] && received == old(received) + [feature])
      ensures r.Pass? && !old(failed) ==>
        (disordered <==>
           old(disordered) || (old(currentLocus).Some? && CompareLoci(dictionary, old(currentLocus).value, feature) > 0))
    {
      if currentLocus.Some? && CompareLoci(dictionary, currentLocus.value, feature) == 0 {
        Join(feature);
        return Pass;
      }
      ghost var out;
      r, out := ResolveSameLocusFeatures();
      AppendAll([], old(emitted), out);
      if r.Fail? {
        return;
      }
      Start(feature);
    }

    /**
     * `onTraversalSuccess`: resolve the last group once, then close the output
     * sink. Unless a resolution failed or a record came in at an earlier locus,
     * the output is then strictly ordered; for the rejecting kinds it holds every
     * record queued, once each, and for depth evidence one union record per
     * group of same-locus records received.
     */
    method OnTraversalSuccess() returns (r: Outcome)
      requires Valid() && Grouping() && !outputSink.closed
      modifies this, outputSink
      ensures Valid()
      ensures old(emitted) <= emitted
      ensures GroupResolved(kind, old(sameLocusQueue), emitted[|old(emitted)|..], r)
      ensures r.Pass? <==> outputSink.closed
      ensures sampleNames == old(sampleNames) && noSampleFiltering == old(noSampleFiltering)
      ensures received == old(received) && disordered == old(disordered) && (r.Pass? ==> failed == old(failed))
      ensures r.Pass? && kind != DepthKind && !failed ==> multiset(emitted) == multiset(received)
      ensures r.Pass? && kind == DepthKind ==> Flatten(groups) == received && Resolved(groups, emitted)
      ensures r.Pass? && !failed && !disordered ==> StrictlyOrdered(dictionary, emitted)
    {
      ghost var out;
      r, out := ResolveSameLocusFeatures();
      AppendAll([], old(emitted), out);
      if r.Fail? {
        return;
      }
      outputSink.Close();
    }
  }

  /**
   * The records `apply` queues for a run of merged entries: each record
   * narrowed through the header of its own input, the dropped ones left out.
   */
  function Kept(noSampleFiltering: bool, names: seq<string>, es: seq<Entry>, headers: seq<Header>): (r: seq<Feature>)
    requires forall e | e in es :: e.source < |headers|
    ensures |r| <= |es|
  {
    if es == [] then []
    else
      var init, last := es[..|es| - 1], es[|es| - 1];
      assert forall e | e in init :: e in es;
      Kept(noSampleFiltering, names, init, headers) +
        Chosen(Selection(noSampleFiltering, names, last.feature, headers[last.source]))
  }

  /** The record a selection keeps, if any. */
  function Chosen(sel: Result<Option<Feature>>): (r: seq<Feature>)
    ensures |r| <= 1 && (r != [] <==> sel.Ok? && sel.value.Some?)
  {
    match sel
    case Ok(Some(g)) => [g]
    case _ => []
  }

  lemma KeptAppend(noSampleFiltering: bool, names: seq<string>, es: seq<Entry>, e: Entry, headers: seq<Header>)
    requires forall x | x in es :: x.source < |headers|
    requires e.source < |headers|
    ensures Kept(noSampleFiltering, names, es + [e], headers) ==
      Kept(noSampleFiltering, names, es, headers) +
        Chosen(Selection(noSampleFiltering, names, e.feature, headers[e.source]))
  {
    assert (es + [e])[..|es|] == es;
  }

  /** An entry of a run is among the records the run holds for its own input. */
  lemma {:induction false} FromContains(es: seq<Entry>, k: nat)
    requires k < |es|
    ensures es[k].feature in From(es, es[k].source)
    decreases |es|
  {
    var init := es[..|es| - 1];
    if k < |es| - 1 {
      FromContains(init, k);
    }
  }

  /** A queued entry holds a record of the input it names. */
  lemma QueuedFromSource(dict: Dictionary, sources: seq<seq<Feature>>, remaining: seq<seq<Feature>>,
                         queue: seq<Entry>, taken: seq<Entry>, failed: bool, k: nat)
    requires IterState(dict, sources, remaining, queue, taken, failed) && k < |queue|
    ensures queue[k].source < |sources| && queue[k].feature in sources[queue[k].source]
  {
    assert queue[k] in queue;
    FromContains(queue, k);
  }

  /** In a run in locus order, the last entry is at or after every entry. */
  lemma LastIsLatest(dict: Dictionary, taken: seq<Entry>, t: Entry)
    requires NonDecreasing(dict, Records(taken)) && t in taken
    ensures KnownFeature(dict, t.feature) && KnownFeature(dict, taken[|taken| - 1].feature)
    ensures CompareLoci(dict, t.feature, taken[|taken| - 1].feature) <= 0
  {
    var i :| 0 <= i < |taken| && taken[i] == t;
    var n := |taken| - 1;
    assert Records(taken)[i] == t.feature && Records(taken)[n] == taken[n].feature;
    assert Records(taken)[i] in Records(taken) && Records(taken)[n] in Records(taken);
    if i == n {
      CompareLocatablesZero(dict, t.feature.Loc(), t.feature.Loc());
    }
  }

  /**
   * The loop of `traverse` driving the tool: the iterator and the tool are
   * both in order, no resolution has failed and no record has arrived at an
   * earlier locus; the tool has queued the narrowed records of the entries
   * polled so far, and its current locus is that of one of them.
   */
  ghost predicate Running(it: MergingIterator, tool: PrintSVEvidence, dict: Dictionary, sources: seq<seq<Feature>>,
                          headers: seq<Header>, kind: Kind, sink: Sink)
    reads it, tool, sink
  {
    && it.Valid() && it.dictionary == dict && it.sources == sources && it.headers == headers && !it.failed
    && ToolRunning(tool, dict, headers, kind, sink, it.taken)
  }

  /** The tool's half of `Running`, given the entries polled so far. */
  ghost predicate ToolRunning(tool: PrintSVEvidence, dict: Dictionary, headers: seq<Header>, kind: Kind, sink: Sink,
                              taken: seq<Entry>)
    reads tool, sink
  {
    && tool.outputSink == sink && tool.Valid() && tool.Grouping() && !sink.closed
    && tool.dictionary == dict && tool.kind == kind && !tool.failed && !tool.disordered
    && (forall e | e in taken :: e.source < |headers|)
    && tool.received == Kept(tool.noSampleFiltering, tool.sampleNames, taken, headers)
    && (tool.currentLocus.Some? ==> exists t | t in taken :: t.feature.Loc() == tool.currentLocus.value.Loc())
  }

  /**
   * The iterator's half of a turn of `traverse`: `next`. An entry it returns
   * holds a record of the output kind, at or after every entry polled before.
   */
  method Poll(it: MergingIterator, ghost kind: Kind) returns (r: Result<Entry>)
    requires it.Valid() && !it.failed && it.queue != []
    requires forall s | 0 <= s < |it.sources| :: forall f | f in it.sources[s] :: OfKind(f, kind)
    modifies it
    ensures it.Valid()
    ensures r.Ok? ==>
      && !it.failed && it.taken == old(it.taken) + [r.value]
      && r.value.source < |it.headers| && KnownFeature(it.dictionary, r.value.feature) && OfKind(r.value.feature, kind)
      && (forall t | t in old(it.taken) :: KnownFeature(it.dictionary, t.feature) &&
                                           CompareLoci(it.dictionary, t.feature, r.value.feature) <= 0)
      && Pending(it.remaining) + |it.queue| < old(Pending(it.remaining) + |it.queue|)
  {
    ghost var rem0, q0, t0 := it.remaining, it.queue, it.taken;
    ghost var k;
    r, k := it.Next();
    if r.Err? {
      return;
    }
    PendingConsume(rem0, q0[k].source);
    QueuedFromSource(it.dictionary, it.sources, rem0, q0, t0, false, k);
    forall t | t in t0
      ensures KnownFeature(it.dictionary, t.feature) && CompareLoci(it.dictionary, t.feature, r.value.feature) <= 0
    {
      LastIsLatest(it.dictionary, it.taken, t);
    }
  }

  /**
   * One turn of `traverse`: poll the next entry and `apply` the tool to its
   * record. Unless that fails, the loop keeps its state, with one record fewer
   * to come.
   */
  method Step(it: MergingIterator, tool: PrintSVEvidence, ghost dict: Dictionary, ghost sources: seq<seq<Feature>>,
              ghost headers: seq<Header>, ghost kind: Kind, ghost sink: Sink)
    returns (r: Outcome)
    requires Running(it, tool, dict, sources, headers, kind, sink) && it.queue != []
    requires forall s | 0 <= s < |sources| :: forall f | f in sources[s] :: OfKind(f, kind)
    modifies it, tool, sink
    ensures tool.sampleNames == old(tool.sampleNames) && tool.noSampleFiltering == old(tool.noSampleFiltering)
    ensures r.Pass? ==> Running(it, tool, dict, sources, headers, kind, sink)
    ensures r.Pass? ==> Pending(it.remaining) + |it.queue| < old(Pending(it.remaining) + |it.queue|)
  {
    ghost var t0 := it.taken;
    var next := Poll(it, kind);
    if next.Err? {
      return Fail(next.error);
    }
    var e := next.value;
    r := Feed(tool, e, it.headers[e.source], dict, headers, kind, sink, t0);
  }

  /**
   * The tool's half of a turn of `traverse`: `apply` on a record at or after
   * every one polled before. Unless it fails, the tool has queued the narrowed
   * record and has not gone backwards.
   */
  method Feed(tool: PrintSVEvidence, e: Entry, header: Header, ghost dict: Dictionary, ghost headers: seq<Header>,
              ghost kind: Kind, ghost sink: Sink, ghost taken: seq<Entry>)
    returns (r: Outcome)
    requires ToolRunning(tool, dict, headers, kind, sink, taken)
    requires e.source < |headers| && header == headers[e.source]
    requires KnownFeature(dict, e.feature) && OfKind(e.feature, kind)
    requires forall t | t in taken :: KnownFeature(dict, t.feature) && CompareLoci(dict, t.feature, e.feature) <= 0
    modifies tool, sink
    ensures tool.sampleNames == old(tool.sampleNames) && tool.noSampleFiltering == old(tool.noSampleFiltering)
    ensures r.Pass? ==> ToolRunning(tool, dict, headers, kind, sink, taken + [e])
  {
    assert e in taken + [e];
    ghost var t;
    if tool.currentLocus.Some? {
      t :| t in taken && t.feature.Loc() == tool.currentLocus.value.Loc();
      assert t in taken + [e];
      assert CompareLoci(dict, tool.currentLocus.value, e.feature) <= 0;
    }
    ghost var locus := tool.currentLocus;
    r := tool.Take(e.feature, header);
    if r.Fail? {
      return;
    }
    KeptAppend(tool.noSampleFiltering, tool.sampleNames, taken, e, headers);
    if tool.currentLocus.Some? && tool.currentLocus == locus {
      assert t in taken + [e];
    }
  }

  /**
   * A run of the tool: the walker has settled on its dictionary and sample
   * set; the tool defaults its sample names; `traverse` polls the merging
   * iterator and calls `apply` on each record with its input's header; then
   * `onTraversalSuccess` resolves the last group and closes the sink. A run that
   * succeeds had every input in locus order, and writes a strictly ordered
   * output: for the rejecting kinds exactly the narrowed records of all inputs,
   * for depth evidence one union record per locus of them.
   */
  method Run(walker: Walker.MultiFeatureWalker, sources: seq<seq<Feature>>, headers: seq<Header>, kind: Kind,
             requested: seq<string>, sink: Sink)
    returns (r: Outcome, ghost merged: seq<Entry>, ghost groups: seq<seq<Feature>>)
    requires walker.Valid() && walker.dictionary.Some?
    requires |headers| == |sources|
    requires forall s | 0 <= s < |sources| :: forall f | f in sources[s] ::
      KnownFeature(walker.dictionary.value, f) && OfKind(f, kind)
    requires Distinct(requested) && !sink.closed
    modifies sink
    ensures !AllSorted(walker.dictionary.value, sources) ==> r.Fail?
    ensures r.Pass? ==>
      && sink.closed && old(sink.written) <= sink.written
      && NonDecreasing(walker.dictionary.value, Records(merged))
      && (forall s | 0 <= s < |sources| :: From(merged, s) == sources[s])
      && (forall e | e in merged :: e.source < |headers|)
      && StrictlyOrdered(walker.dictionary.value, sink.written[|old(sink.written)|..])
    ensures r.Pass? && kind != DepthKind ==>
      var names := if requested == [] then walker.samples else requested;
      var noFilter := requested == [] && walker.samples == [];
      multiset(sink.written[|old(sink.written)|..]) == multiset(Kept(noFilter, names, merged, headers))
    ensures r.Pass? && kind == DepthKind ==>
      var names := if requested == [] then walker.samples else requested;
      var noFilter := requested == [] && walker.samples == [];
      Flatten(groups) == Kept(noFilter, names, merged, headers) && Resolved(groups, sink.written[|old(sink.written)|..])
  {
    var dict := walker.dictionary.value;
    ghost var names := if requested == [] then walker.samples else requested;
    ghost var noFilter := requested == [] && walker.samples == [];
    var it, tool := Launch(walker, sources, headers, kind, requested, sink);
    r := Drive(it, tool, dict, sources, headers, kind, sink);
    merged, groups := it.taken, tool.groups;
    if r.Fail? {
      return;
    }
    assert tool.sampleNames == names && tool.noSampleFiltering == noFilter;
    assert tool.before == old(sink.written);
    r, groups := Finish(it, tool, dict, sources, headers, kind, sink);
  }

  /**
   * The loop of `traverse`: poll and apply until the iterator runs dry. It
   * stops at the first failure, and it runs dry only when every input was in
   * locus order, all of it polled.
   */
  method Drive(it: MergingIterator, tool: PrintSVEvidence, ghost dict: Dictionary, ghost sources: seq<seq<Feature>>,
               ghost headers: seq<Header>, ghost kind: Kind, ghost sink: Sink)
    returns (r: Outcome)
    requires Running(it, tool, dict, sources, headers, kind, sink)
    requires forall s | 0 <= s < |sources| :: forall f | f in sources[s] :: OfKind(f, kind)
    modifies it, tool, sink
    ensures tool.sampleNames == old(tool.sampleNames) && tool.noSampleFiltering == old(tool.noSampleFiltering)
    ensures !AllSorted(dict, sources) ==> r.Fail?
    ensures r.Pass? ==>
      && Running(it, tool, dict, sources, headers, kind, sink)
      && NonDecreasing(dict, Records(it.taken))
      && (forall s | 0 <= s < |sources| :: From(it.taken, s) == sources[s])
  {
    while true
      invariant Running(it, tool, dict, sources, headers, kind, sink)
      invariant tool.sampleNames == old(tool.sampleNames) && tool.noSampleFiltering == old(tool.noSampleFiltering)
      decreases Pending(it.remaining) + |it.queue|
    {
      var more := it.HasNext();
      if !more {
        return Pass;
      }
      r := Step(it, tool, dict, sources, headers, kind, sink);
      if r.Fail? {
        return;
      }
    }
  }

  /**
   * The start of a run: the tool, with its sample names defaulted to the
   * walker's, and the merging iterator over the inputs.
   */
  method Launch(walker: Walker.MultiFeatureWalker, sources: seq<seq<Feature>>, headers: seq<Header>, kind: Kind,
                requested: seq<string>, sink: Sink)
    returns (it: MergingIterator, tool: PrintSVEvidence)
    requires walker.Valid() && walker.dictionary.Some?
    requires |headers| == |sources|
    requires forall s | 0 <= s < |sources| :: forall f | f in sources[s] :: KnownFeature(walker.dictionary.value, f)
    requires Distinct(requested) && !sink.closed
    ensures fresh(it) && fresh(tool)
    ensures Running(it, tool, walker.dictionary.value, sources, headers, kind, sink) && it.taken == []
    ensures tool.before == sink.written
    ensures tool.sampleNames == (if requested == [] then walker.samples else requested)
    ensures tool.noSampleFiltering == (requested == [] && walker.samples == [])
  {
    var dict := walker.dictionary.value;
    tool := new PrintSVEvidence(dict, kind, sink, requested);
    tool.OnTraversalStart(walker.samples);
    it := new MergingIterator(dict, sources, headers);
  }

  /**
   * The end of a run whose inputs were all read through in order:
   * `onTraversalSuccess`. When it succeeds, the output is strictly ordered and
   * holds the narrowed records of every input: for the rejecting kinds each of
   * them once, for depth evidence their union per locus.
   */
  method Finish(it: MergingIterator, tool: PrintSVEvidence, ghost dict: Dictionary, ghost sources: seq<seq<Feature>>,
                ghost headers: seq<Header>, ghost kind: Kind, ghost sink: Sink)
    returns (r: Outcome, ghost groups: seq<seq<Feature>>)
    requires Running(it, tool, dict, sources, headers, kind, sink)
    modifies tool, sink
    ensures tool.sampleNames == old(tool.sampleNames) && tool.noSampleFiltering == old(tool.noSampleFiltering)
    ensures r.Pass? ==>
      && sink.closed && tool.before <= sink.written
      && StrictlyOrdered(dict, sink.written[|tool.before|..])
    ensures r.Pass? && kind != DepthKind ==>
      multiset(sink.written[|tool.before|..]) ==
        multiset(Kept(tool.noSampleFiltering, tool.sampleNames, it.taken, headers))
    ensures r.Pass? && kind == DepthKind ==>
      && Flatten(groups) == Kept(tool.noSampleFiltering, tool.sampleNames, it.taken, headers)
      && Resolved(groups, sink.written[|tool.before|..])
  {
    r := tool.OnTraversalSuccess();
    groups := tool.groups;
    assert sink.written[|tool.before|..] == tool.emitted;
  }
}
