/**
 * The sort mergers: sinks that accept records in dictionary order of locus,
 * gather the records of one locus, and pass each gathered group on to an output
 * sink once a later locus arrives (or on close). `SortMerger` stands for
 * `BafEvidenceSortMerger`, `SplitReadEvidenceSortMerger` and `LocusDepthSortMerger`,
 * which differ only in their record kind and hence their same-locus comparator;
 * `DepthEvidenceSortMerger` merges each group into one record instead.
 */
module SortMergers {
  import opened Wrappers
  import opened Dictionaries
  import opened Loci
  import opened Features
  import opened Sinks
  import opened SameLocus
  import opened CountUnion
  import opened DepthEvidence

  /** Every record of `g` is at locus `l`. */
  ghost predicate AllAt(g: seq<Feature>, l: Locus) {
    forall f | f in g :: f.Loc() == l
  }

  /** Every record of `out` is at a locus before `l`. */
  ghost predicate AllBefore(dict: Dictionary, out: seq<Feature>, l: Locus)
    requires Known(dict, l)
  {
    forall f | f in out :: KnownFeature(dict, f) && CompareLocatables(dict, f.Loc(), l) < 0
  }

  /** Every record of `out` is at `l` or at a locus before it. */
  ghost predicate AtOrBefore(dict: Dictionary, out: seq<Feature>, l: Locus)
    requires Known(dict, l)
  {
    forall f | f in out :: KnownFeature(dict, f) && CompareLocatables(dict, f.Loc(), l) <= 0
  }

  /**
   * Passing on a group of one locus, in strictly increasing key order, after
   * records all at earlier loci keeps the output strictly ordered.
   */
  lemma AppendGroup(dict: Dictionary, out: seq<Feature>, group: seq<Feature>, l: Locus)
    requires Known(dict, l)
    requires StrictlyOrdered(dict, out) && AllBefore(dict, out, l)
    requires AllAt(group, l) && KeysIncrease(group)
    ensures StrictlyOrdered(dict, out + group) && AtOrBefore(dict, out + group, l)
  {
    var s := out + group;
    forall i, j | 0 <= i < j < |s| ensures Precedes(dict, s[i], s[j]) {
      if j < |out| {
        assert s[i] == out[i] && s[j] == out[j];
      } else if i < |out| {
        assert s[j] == group[j - |out|] && s[j] in group;
        assert s[i] in out;
      } else {
        assert s[i] == group[i - |out|] && s[j] == group[j - |out|];
        assert s[i] in group && s[j] in group;
        CompareLocatablesZero(dict, s[i].Loc(), s[j].Loc());
      }
    }
  }

  /** What is at or before a locus is before any later locus. */
  lemma MoveOn(dict: Dictionary, out: seq<Feature>, l: Locus, next: Locus)
    requires Known(dict, l) && Known(dict, next)
    requires AtOrBefore(dict, out, l) && CompareLocatables(dict, l, next) < 0
    ensures AllBefore(dict, out, next)
  {
    forall f | f in out ensures CompareLocatables(dict, f.Loc(), next) < 0 {
      CompareLocatablesTransitive(dict, f.Loc(), l, next);
    }
  }

  lemma BeforeIsAtOrBefore(dict: Dictionary, out: seq<Feature>, l: Locus)
    requires Known(dict, l) && AllBefore(dict, out, l)
    ensures AtOrBefore(dict, out, l)
  {
  }

  /** The records drawn from a group are at the group's locus. */
  lemma SubGroupAt(part: seq<Feature>, group: seq<Feature>, l: Locus)
    requires multiset(part) <= multiset(group) && AllAt(group, l)
    ensures AllAt(part, l)
  {
    forall f | f in part ensures f.Loc() == l {
      assert f in multiset(part);
    }
  }

  /** No two records of a strictly ordered stream share both their locus and their same-locus key. */
  lemma StrictlyOrderedHasNoDuplicates(dict: Dictionary, s: seq<Feature>)
    requires StrictlyOrdered(dict, s)
    ensures forall i, j | 0 <= i < j < |s| ::
      !(s[i].Loc() == s[j].Loc() && KeySample(s[i]) == KeySample(s[j]) && KeyStrand(s[i]) == KeyStrand(s[j]))
  {
    forall i, j | 0 <= i < j < |s|
      ensures !(s[i].Loc() == s[j].Loc() && KeySample(s[i]) == KeySample(s[j]) && KeyStrand(s[i]) == KeyStrand(s[j]))
    {
      assert s[i] in s && s[j] in s;
      CompareLocatablesZero(dict, s[i].Loc(), s[j].Loc());
      SameLocusCompareZero(s[i], s[j]);
    }
  }

  /** The part of the sink's contents written after `before + out0`. */
  lemma Splice(before: seq<Feature>, out0: seq<Feature>, w0: seq<Feature>, w: seq<Feature>) returns (out: seq<Feature>)
    requires w0 == before + out0 && w0 <= w
    ensures out == w[|w0|..] && w == before + (out0 + out) && (out0 + out)[|out0|..] == out
  {
    out := w[|w0|..];
    assert w == w0 + out;
  }

  /** Resolving an empty group writes nothing and passes. */
  lemma NothingFromNothing(out: seq<Feature>, r: Outcome)
    requires RejectedDuplicates([], out, r)
    ensures out == [] && r.Pass?
  {
    assert |out| == |multiset(out)| == 0;
  }

  /** The group resolved at locus `l` follows what was passed on before it. */
  lemma ResolvedInOrder(dict: Dictionary, out0: seq<Feature>, group: seq<Feature>, out: seq<Feature>, l: Locus, r: Outcome)
    requires Known(dict, l) && AllAt(group, l) && RejectedDuplicates(group, out, r)
    requires StrictlyOrdered(dict, out0) && AtOrBefore(dict, out0, l)
    requires group != [] ==> AllBefore(dict, out0, l)
    ensures StrictlyOrdered(dict, out0 + out) && AtOrBefore(dict, out0 + out, l)
  {
    if group == [] {
      NothingFromNothing(out, r);
      assert out0 + out == out0;
    } else {
      SubGroupAt(out, group, l);
      AppendGroup(dict, out0, out, l);
    }
  }

  /** Queueing one more record at the group's locus keeps the group and the accounting. */
  lemma Enqueue(emitted: seq<Feature>, queue: seq<Feature>, received: seq<Feature>, l: Locus, feature: Feature)
    requires AllAt(queue, l) && feature.Loc() == l
    requires multiset(emitted) + multiset(queue) == multiset(received)
    ensures AllAt(queue + [feature], l)
    ensures multiset(emitted) + multiset(queue + [feature]) == multiset(received + [feature])
  {
  }

  /** Every record of `s` is known to `dict` and of kind `kind`. */
  ghost predicate AllKnownOfKind(dict: Dictionary, s: seq<Feature>, kind: Kind) {
    forall f | f in s :: KnownFeature(dict, f) && OfKind(f, kind)
  }

  lemma AcceptOne(dict: Dictionary, s: seq<Feature>, kind: Kind, feature: Feature)
    requires AllKnownOfKind(dict, s, kind) && KnownFeature(dict, feature) && OfKind(feature, kind)
    ensures AllKnownOfKind(dict, s + [feature], kind)
  {
  }

  /**
   * The invariant of a sort merger, on the values of its fields: every record
   * received is known and of the merger's kind; unless a resolution failed, what
   * was passed on and what is queued are exactly what was received, and the queue
   * is at the current locus; unless a group was also reopened, what was passed on
   * is strictly ordered and comes no later than the current locus (strictly
   * earlier while the current group is still queued).
   */
  ghost predicate MergerState(dict: Dictionary, kind: Kind, queue: seq<Feature>, current: Option<Feature>,
                              emitted: seq<Feature>, received: seq<Feature>, failed: bool, reopened: bool)
  {
    && AllKnownOfKind(dict, received, kind)
    && (current.None? ==> queue == [] && received == [] && emitted == [])
    && (current.Some? ==> KnownFeature(dict, current.value))
    && (!failed ==>
          && multiset(emitted) + multiset(queue) == multiset(received)
          && (current.Some? ==> AllAt(queue, current.value.Loc())))
    && (!failed && !reopened ==>
          && StrictlyOrdered(dict, emitted)
          && (current.Some? ==>
                && AtOrBefore(dict, emitted, current.value.Loc())
                && (queue != [] ==> AllBefore(dict, emitted, current.value.Loc()))))
  }

  /** The first record opens the first group. */
  lemma StateAfterOpen(dict: Dictionary, kind: Kind, feature: Feature)
    requires KnownFeature(dict, feature) && OfKind(feature, kind)
    ensures MergerState(dict, kind, [feature], Some(feature), [], [feature], false, false)
  {
    assert StrictlyOrdered(dict, []);
  }

  /** A record at the current locus joins its group; the group is reopened if it was already passed on. */
  lemma StateAfterJoin(dict: Dictionary, kind: Kind, queue: seq<Feature>, current: Feature,
                       emitted: seq<Feature>, received: seq<Feature>, failed: bool, reopened: bool, feature: Feature)
    requires MergerState(dict, kind, queue, Some(current), emitted, received, failed, reopened)
    requires KnownFeature(dict, feature) && OfKind(feature, kind) && CompareLoci(dict, current, feature) == 0
    ensures MergerState(dict, kind, queue + [feature], Some(current), emitted, received + [feature], failed,
                        reopened || queue == [])
  {
    CompareLocatablesZero(dict, current.Loc(), feature.Loc());
    AcceptOne(dict, received, kind, feature);
    if !failed {
      Enqueue(emitted, queue, received, feature.Loc(), feature);
    }
  }

  /** With the group of the current locus passed on, a record at a later locus opens the next group. */
  lemma StateAfterMoveOn(dict: Dictionary, kind: Kind, current: Feature,
                         emitted: seq<Feature>, received: seq<Feature>, failed: bool, reopened: bool, feature: Feature)
    requires MergerState(dict, kind, [], Some(current), emitted, received, failed, reopened)
    requires KnownFeature(dict, feature) && OfKind(feature, kind) && CompareLoci(dict, current, feature) < 0
    ensures MergerState(dict, kind, [feature], Some(feature), emitted, received + [feature], failed, reopened)
  {
    AcceptOne(dict, received, kind, feature);
    if !failed {
      Enqueue(emitted, [], received, feature.Loc(), feature);
    }
    if !failed && !reopened {
      MoveOn(dict, emitted, current.Loc(), feature.Loc());
    }
  }

  /** Passing on the current group (or failing part way) keeps the invariant. */
  lemma StateAfterResolve(dict: Dictionary, kind: Kind, group: seq<Feature>, current: Option<Feature>,
                          out0: seq<Feature>, out: seq<Feature>, rest: seq<Feature>, received: seq<Feature>,
                          failed: bool, reopened: bool, r: Outcome)
    requires MergerState(dict, kind, group, current, out0, received, failed, reopened)
    requires RejectedDuplicates(group, out, r) && multiset(rest) <= multiset(group)
    requires r.Pass? ==> rest == []
    ensures MergerState(dict, kind, rest, current, out0 + out, received, failed || r.Fail?, reopened)
  {
    if group == [] {
      NothingFromNothing(out, r);
      assert out0 + out == out0;
    }
    if !failed && !reopened && current.Some? {
      ResolvedInOrder(dict, out0, group, out, current.value.Loc(), r);
    }
  }

  class SortMerger {
    const dictionary: Dictionary
    /** The record kind, fixed by the Java class (BAF, split-read or locus-depth evidence). */
    const kind: Kind
    const outputSink: Sink
    var sameLocusQueue: seq<Feature>
    var currentLocus: Option<Feature>
    /** The output sink's contents before this merger wrote to it. */
    ghost const before: seq<Feature>
    /** The records this merger has passed on to the output sink. */
    ghost var emitted: seq<Feature>
    /** The records this merger has accepted. */
    ghost var received: seq<Feature>
    /** A resolution failed part way; what is buffered is then no longer accounted for. */
    ghost var failed: bool
    /**
     * A record was queued at a locus whose group had already been passed on
     * (possible only after an outside call of `ResolveSameLocusFeatures`).
     */
    ghost var reopened: bool

    ghost predicate Valid()
      reads this, outputSink
    {
      && outputSink.written == before + emitted
      && MergerState(dictionary, kind, sameLocusQueue, currentLocus, emitted, received, failed, reopened)
    }

    constructor (dictionary: Dictionary, kind: Kind, outputSink: Sink)
      ensures Valid()
      ensures this.dictionary == dictionary && this.kind == kind && this.outputSink == outputSink
      ensures sameLocusQueue == [] && currentLocus.None? && before == outputSink.written
      ensures emitted == [] && received == [] && !failed && !reopened
    {
      this.dictionary := dictionary;
      this.kind := kind;
      this.outputSink := outputSink;
      sameLocusQueue := [];
      currentLocus := None;
      before := outputSink.written;
      emitted := [];
      received := [];
      failed := false;
      reopened := false;
      new;
      assert outputSink.written == before + [];
    }

    /**
     * `resolveSameLocusFeatures`: drain the queue in key order into the output
     * sink, rejecting a duplicate key. `currentLocus` is kept.
     */
    method ResolveSameLocusFeatures() returns (r: Outcome)
      requires Valid() && !outputSink.closed
      modifies this, outputSink
      ensures Valid() && !outputSink.closed
      ensures currentLocus == old(currentLocus) && received == old(received) && reopened == old(reopened)
      ensures old(emitted) <= emitted
      ensures RejectedDuplicates(old(sameLocusQueue), emitted[|old(emitted)|..], r)
      ensures r.Pass? ==> sameLocusQueue == []
      ensures failed == (old(failed) || r.Fail?)
    {
      ghost var group := sameLocusQueue;
      ghost var out0 := emitted;
      var rest;
      r, rest := DrainRejectingDuplicates(sameLocusQueue, outputSink);
      ghost var out := Splice(before, out0, old(outputSink.written), outputSink.written);
      assert RejectedDuplicates(group, out, r);
      StateAfterResolve(dictionary, kind, group, currentLocus, out0, out, rest, received, failed, reopened, r);
      Commit(rest, out0 + out, failed || r.Fail?);
    }

    /** Take on the state a resolution leaves. */
    method Commit(rest: seq<Feature>, ghost emitted': seq<Feature>, ghost failed': bool)
      requires outputSink.written == before + emitted'
      requires MergerState(dictionary, kind, rest, currentLocus, emitted', received, failed', reopened)
      modifies this
      ensures Valid()
      ensures sameLocusQueue == rest && emitted == emitted' && failed == failed'
      ensures currentLocus == old(currentLocus) && received == old(received) && reopened == old(reopened)
    {
      emitted, sameLocusQueue, failed := emitted', rest, failed';
    }

    /** The first record opens the first group. */
    method Open(feature: Feature)
      requires Valid() && currentLocus.None?
      requires KnownFeature(dictionary, feature) && OfKind(feature, kind)
      modifies this
      ensures Valid()
      ensures currentLocus == Some(feature) && sameLocusQueue == [feature] && received == [feature]
      ensures emitted == old(emitted) && failed == old(failed) && reopened == old(reopened)
    {
      StateAfterOpen(dictionary, kind, feature);
      currentLocus := Some(feature);
      sameLocusQueue := [feature];
      received := [feature];
    }

    /** A record at the current locus joins its group. */
    method Join(feature: Feature)
      requires Valid() && currentLocus.Some?
      requires KnownFeature(dictionary, feature) && OfKind(feature, kind)
      requires CompareLoci(dictionary, currentLocus.value, feature) == 0
      modifies this
      ensures Valid()
      ensures currentLocus == old(currentLocus) && sameLocusQueue == old(sameLocusQueue) + [feature]
      ensures received == old(received) + [feature] && emitted == old(emitted) && failed == old(failed)
      ensures reopened == (old(reopened) || old(sameLocusQueue) == [])
    {
      StateAfterJoin(dictionary, kind, sameLocusQueue, currentLocus.value, emitted, received, failed, reopened, feature);
      reopened := reopened || sameLocusQueue == [];
      sameLocusQueue := sameLocusQueue + [feature];
      received := received + [feature];
    }

    /** With the current group passed on, a record at a later locus opens the next group. */
    method Advance(feature: Feature)
      requires Valid() && currentLocus.Some? && sameLocusQueue == []
      requires KnownFeature(dictionary, feature) && OfKind(feature, kind)
      requires CompareLoci(dictionary, currentLocus.value, feature) < 0
      modifies this
      ensures Valid()
      ensures currentLocus == Some(feature) && sameLocusQueue == [feature]
      ensures received == old(received) + [feature] && emitted == old(emitted)
      ensures failed == old(failed) && reopened == old(reopened)
    {
      StateAfterMoveOn(dictionary, kind, currentLocus.value, emitted, received, failed, reopened, feature);
      currentLocus := Some(feature);
      sameLocusQueue := [feature];
      received := received + [feature];
    }

    /**
     * `write`: the first record opens a group; a record at the current locus
     * joins it; a record at a later locus first has the group resolved, then
     * opens its own; a record at an earlier locus is rejected.
     */
    method Write(feature: Feature) returns (r: Outcome)
      requires Valid() && !outputSink.closed
      requires KnownFeature(dictionary, feature) && OfKind(feature, kind)
      modifies this, outputSink
      ensures Valid() && !outputSink.closed
      ensures old(emitted) <= emitted && reopened == (old(reopened) || (old(currentLocus).Some? &&
        CompareLoci(dictionary, old(currentLocus).value, feature) == 0 && old(sameLocusQueue) == []))
      ensures r.Pass? ==>
        received == old(received) + [feature] && currentLocus.Some? && currentLocus.value.Loc() == feature.Loc()
      ensures r.Fail? ==> received == old(received)
      ensures old(currentLocus).None? ==>
        r.Pass? && currentLocus == Some(feature) && sameLocusQueue == [feature] && emitted == old(emitted)
      ensures old(currentLocus).Some? && CompareLoci(dictionary, old(currentLocus).value, feature) == 0 ==>
        r.Pass? && currentLocus == old(currentLocus) && sameLocusQueue == old(sameLocusQueue) + [feature] &&
        emitted == old(emitted)
      ensures old(currentLocus).Some? && CompareLoci(dictionary, old(currentLocus).value, feature) < 0 ==>
        && RejectedDuplicates(old(sameLocusQueue), emitted[|old(emitted)|..], r)
        && (r.Pass? ==> currentLocus == Some(feature) && sameLocusQueue == [feature])
      ensures old(currentLocus).Some? && CompareLoci(dictionary, old(currentLocus).value, feature) > 0 ==>
        r == Fail(NotInDictionaryOrder) && emitted == old(emitted) && sameLocusQueue == old(sameLocusQueue)
      ensures failed == (old(failed) || (r.Fail? && r != Fail(NotInDictionaryOrder)))
    {
      if currentLocus.None? {
        Open(feature);
        return Pass;
      }
      var cmp := CompareLoci(dictionary, currentLocus.value, feature);
      if cmp == 0 {
        CompareLocatablesZero(dictionary, currentLocus.value.Loc(), feature.Loc());
        Join(feature);
        return Pass;
      } else if cmp < 0 {
        r := ResolveSameLocusFeatures();
        if r.Fail? {
          return;
        }
        Advance(feature);
      } else {
        return Fail(NotInDictionaryOrder);
      }
    }

    /**
     * `close`: resolve the last group, then close the output sink. Unless a
     * resolution failed or a group was reopened, everything received has then
     * been passed on, once each, as the one strictly ordered arrangement of it.
     */
    method Close() returns (r: Outcome)
      requires Valid() && !outputSink.closed
      modifies this, outputSink
      ensures Valid()
      ensures old(emitted) <= emitted
      ensures RejectedDuplicates(old(sameLocusQueue), emitted[|old(emitted)|..], r)
      ensures r.Pass? <==> outputSink.closed
      ensures r.Pass? && !failed ==> multiset(emitted) == multiset(received)
      ensures r.Pass? && !failed && !reopened ==> StrictlyOrdered(dictionary, emitted)
    {
      r := ResolveSameLocusFeatures();
      if r.Fail? {
        return;
      }
      outputSink.Close();
    }
  }

  /**
   * What a merger that finished cleanly has written is fixed by what it received:
   * any strictly ordered arrangement of the received records is it.
   */
  lemma MergerOutputIsSortedInput(m: SortMerger, sorted: seq<Feature>)
    requires m.Valid() && !m.failed && !m.reopened && m.sameLocusQueue == []
    requires StrictlyOrdered(m.dictionary, sorted) && multiset(sorted) == multiset(m.received)
    ensures m.emitted == sorted
  {
    StrictlyOrderedUnique(m.dictionary, m.emitted, sorted);
  }
}
