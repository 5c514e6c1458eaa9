/**
 * Read-depth evidence (`DepthEvidence`): one count per sample over an interval.
 * Its samples are positional, so narrowing a record to a set of samples
 * re-indexes the counts through the source's header, and same-locus records are
 * resolved by the slot-wise union of their counts.
 */
module DepthEvidence {
  import opened Wrappers
  import opened Dictionaries
  import opened Features
  import opened CountUnion
  import opened Sinks
  import opened SameLocus

  /** The count a record contributes for sample `name`, given its header's sample list. */
  function SlotFor(counts: seq<int>, headerNames: Option<seq<string>>, name: string): int
    requires SlotInRange(counts, headerNames, name)
  {
    match SampleIndex(headerNames, name)
    case None => MISSING_DATA
    case Some(j) => counts[j]
  }

  /** The header index of `name`, if any, addresses one of the record's counts. */
  predicate SlotInRange(counts: seq<int>, headerNames: Option<seq<string>>, name: string) {
    var j := SampleIndex(headerNames, name);
    j.None? || j.value < |counts|
  }

  /** The counts re-indexed to `names`, one slot per name, in order. */
  function Reindex(counts: seq<int>, names: seq<string>, headerNames: Option<seq<string>>): (r: Result<seq<int>>)
    ensures r.Ok? <==> forall i | 0 <= i < |names| :: SlotInRange(counts, headerNames, names[i])
    ensures r.Err? ==> r.error == CountIndexOutOfRange
    ensures r.Ok? ==> |r.value| == |names|
    ensures r.Ok? ==> forall i | 0 <= i < |names| :: r.value[i] == SlotFor(counts, headerNames, names[i])
  {
    if names == [] then Ok([])
    else if !SlotInRange(counts, headerNames, names[0]) then Err(CountIndexOutOfRange)
    else
      match Reindex(counts, names[1..], headerNames)
      case Err(e) =>
        assert exists i | 1 <= i < |names| :: !SlotInRange(counts, headerNames, names[i]) by {
          var i' :| 0 <= i' < |names[1..]| && !SlotInRange(counts, headerNames, names[1..][i']);
          assert names[i' + 1] == names[1..][i'];
        }
        Err(e)
      case Ok(tail) =>
        assert forall i | 1 <= i < |names| :: names[i] == names[1..][i - 1];
        Ok([SlotFor(counts, headerNames, names[0])] + tail)
  }

  /**
   * `extractSamples`: narrow a record to the samples `names` (in the iteration order
   * of the tool's sample-name set). Only a source with an `SVFeaturesHeader` says which
   * sample each count belongs to; a name the header lacks gets `MISSING_DATA`.
   */
  function ExtractSamples(f: DepthRecord, names: seq<string>, header: Header): (r: Result<DepthRecord>)
    ensures !header.SVFeaturesHeader? ==> r == Err(MissingHeader)
    ensures header.SVFeaturesHeader? ==>
      (r.Ok? <==> forall i | 0 <= i < |names| :: SlotInRange(f.counts, header.sampleNames, names[i]))
    ensures r.Err? ==> r.error == MissingHeader || r.error == CountIndexOutOfRange
    ensures r.Ok? ==>
      && header.SVFeaturesHeader?
      && r.value.contig == f.contig && r.value.start == f.start && r.value.end == f.end
      && |r.value.counts| == |names|
      && forall i | 0 <= i < |names| :: r.value.counts[i] == SlotFor(f.counts, header.sampleNames, names[i])
  {
    if !header.SVFeaturesHeader? then Err(MissingHeader)
    else
      match Reindex(f.counts, names, header.sampleNames)
      case Err(e) => Err(e)
      case Ok(counts) => Ok(Depth(f.contig, f.start, f.end, counts))
  }

  /** Narrowing a record to exactly the samples its header lists, in that order, changes nothing. */
  lemma ExtractAllSamplesIsIdentity(f: DepthRecord, names: seq<string>, dict: Option<Dictionary>)
    requires Distinct(names) && |f.counts| == |names|
    ensures ExtractSamples(f, names, SVFeaturesHeader(dict, Some(names))) == Ok(f)
  {
    forall i | 0 <= i < |names| ensures SampleIndex(Some(names), names[i]) == Some(i) {
      var j := SampleIndex(Some(names), names[i]);
      assert j.Some?;
    }
    var r := ExtractSamples(f, names, SVFeaturesHeader(dict, Some(names)));
    assert r.value.counts == f.counts;
  }

  /**
   * Narrowing twice is narrowing once: narrowing to `outer` and then, through a
   * header that lists `outer`, to names all among `outer`, is narrowing straight
   * to those names.
   */
  lemma ExtractSamplesTwice(f: DepthRecord, outer: seq<string>, inner: seq<string>, header: Header, dict: Option<Dictionary>)
    requires Distinct(outer) && forall n | n in inner :: n in outer
    requires ExtractSamples(f, outer, header).Ok?
    ensures ExtractSamples(ExtractSamples(f, outer, header).value, inner, SVFeaturesHeader(dict, Some(outer)))
         == ExtractSamples(f, inner, header)
  {
    var g := ExtractSamples(f, outer, header).value;
    forall i | 0 <= i < |inner|
      ensures SlotInRange(g.counts, Some(outer), inner[i])
      ensures SlotInRange(f.counts, header.sampleNames, inner[i])
      ensures SlotFor(g.counts, Some(outer), inner[i]) == SlotFor(f.counts, header.sampleNames, inner[i])
    {
      var j := IndexOf(outer, inner[i]);
      assert outer[j] == inner[i];
    }
    var left := ExtractSamples(g, inner, SVFeaturesHeader(dict, Some(outer)));
    var right := ExtractSamples(f, inner, header);
    assert left.value.counts == right.value.counts;
  }

  /**
   * `equals`: field by field, the counts element by element. It is exactly the
   * equality of the records as values.
   */
  function Equals(a: DepthRecord, b: DepthRecord): (r: bool)
    ensures r <==> a == b
  {
    var same := a.start == b.start && a.end == b.end && a.contig == b.contig &&
      |a.counts| == |b.counts| && forall i | 0 <= i < |a.counts| :: a.counts[i] == b.counts[i];
    assert same ==> a.counts == b.counts;
    same
  }

  /** All records of `g` are depth evidence (the element type of the Java queue or list). */
  ghost predicate AllDepth(g: seq<Feature>) {
    forall f | f in g :: f.Depth?
  }

  /** The count vectors of a group of depth records, in order. */
  function Counts(g: seq<Feature>): (r: seq<seq<int>>)
    requires AllDepth(g)
    ensures |r| == |g| && forall i | 0 <= i < |g| :: r[i] == g[i].counts
  {
    seq(|g|, i requires 0 <= i < |g| => g[i].counts)
  }

  lemma CountsWithout(q: seq<Feature>, k: nat)
    requires AllDepth(q) && k < |q|
    ensures AllDepth(Without(q, k))
    ensures multiset(Counts(q)) == multiset(Counts(Without(q, k))) + multiset{q[k].counts}
  {
    assert q == q[..k] + [q[k]] + q[k + 1..];
    assert Counts(q) == Counts(q[..k]) + [q[k].counts] + Counts(q[k + 1..]);
    assert Counts(Without(q, k)) == Counts(q[..k]) + Counts(q[k + 1..]);
  }

  /** The record a resolved group becomes: the locus of `first`, the union of the group's counts. */
  function UnionRecord(first: Feature, g: seq<Feature>): (r: DepthRecord)
    requires first.Depth? && AllDepth(g) && g != [] && Mergeable(Counts(g))
    ensures r.Loc() == first.Loc() && |r.counts| == |g[0].counts|
  {
    Depth(first.contig, first.start, first.end, Merged(Counts(g)))
  }

  /** Moving the counts of `rest[k]` into the folded part keeps the accounting. */
  lemma FoldStep(seen: seq<seq<int>>, rest: seq<Feature>, k: nat, queue: seq<Feature>)
    requires AllDepth(rest) && AllDepth(queue) && k < |rest|
    requires multiset(seen) + multiset(Counts(rest)) == multiset(Counts(queue))
    ensures AllDepth(Without(rest, k))
    ensures multiset(seen + [rest[k].counts]) + multiset(Counts(Without(rest, k))) == multiset(Counts(queue))
  {
    CountsWithout(rest, k);
  }

  /** A fold that fails on a prefix of some arrangement of the group fails for the group. */
  lemma FoldFails(seen: seq<seq<int>>, rest: seq<Feature>, queue: seq<Feature>)
    requires AllDepth(rest) && AllDepth(queue) && !Mergeable(seen)
    requires multiset(seen) + multiset(Counts(rest)) == multiset(Counts(queue))
    ensures !Mergeable(Counts(queue))
  {
    assert multiset(seen + Counts(rest)) == multiset(Counts(queue));
    MergedPermutation(seen + Counts(rest), Counts(queue));
    if Mergeable(Counts(queue)) {
      MergeablePrefix(seen, Counts(rest));
    }
  }

  /**
   * The static `resolveSameLocusFeatures`: poll one record, fold the counts of
   * every other queued record into its counts, then write it. Nothing is written
   * for an empty queue or on failure; the union fails exactly when the group's
   * counts cannot be merged, whatever order the queue yields them in.
   */
  method ResolveSameLocusFeatures(queue: seq<Feature>, sink: Sink) returns (r: Outcome)
    requires AllDepth(queue) && !sink.closed
    modifies sink
    ensures !sink.closed
    ensures queue == [] ==> r.Pass? && sink.written == old(sink.written)
    ensures queue != [] ==> (r.Pass? <==> Mergeable(Counts(queue)))
    ensures r.Pass? && queue != [] ==>
      exists first | first in queue :: sink.written == old(sink.written) + [UnionRecord(first, queue)]
    ensures r.Fail? ==> sink.written == old(sink.written)
    ensures r.Fail? ==> r.error == SampleListMismatch || r.error.MultipleSources?
  {
    if queue == [] {
      return Pass;
    }
    var k := PollMinimal(queue);
    var evidence := queue[k];
    var rest := Without(queue, k);
    CountsWithout(queue, k);
    var evCounts := new int[|evidence.counts|](i requires 0 <= i < |evidence.counts| => evidence.counts[i]);
    ghost var seen := [evidence.counts];
    MergedSingle(evidence.counts);
    r := Pass;
    while rest != []
      invariant AllDepth(rest) && seen != [] && Mergeable(seen) && evCounts[..] == Merged(seen)
      invariant multiset(seen) + multiset(Counts(rest)) == multiset(Counts(queue))
      invariant sink.written == old(sink.written) && !sink.closed && r.Pass?
      decreases |rest|
    {
      k := PollMinimal(rest);
      var tmp := rest[k];
      FoldStep(seen, rest, k, queue);
      r := MergeInto(evCounts, tmp.counts, seen, evidence.contig, evidence.start, evidence.end);
      if r.Fail? {
        FoldFails(seen + [tmp.counts], Without(rest, k), queue);
        return;
      }
      seen := seen + [tmp.counts];
      rest := Without(rest, k);
    }
    assert Counts(rest) == [];
    MergedPermutation(seen, Counts(queue));
    assert evCounts[..] == Merged(Counts(queue));
    sink.Write(Depth(evidence.contig, evidence.start, evidence.end, evCounts[..]));
    assert sink.written == old(sink.written) + [UnionRecord(evidence, queue)];
  }
}
