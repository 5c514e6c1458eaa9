/**
 * `MultiFeatureWalker` before traversal: settling on one sequence dictionary
 * among the master dictionary, the reference's, the reads' and those of the
 * feature sources' headers, and gathering the sample names those headers list
 * into one sorted, duplicate-free set.
 */
module Walker {
  import opened Wrappers
  import opened Dictionaries
  import opened StringOrder
  import opened Features

  /**
   * The dictionary a source's header offers. A header of another kind offers
   * none; the walker skips it, which is what `bestDictionary` does with an
   * absent dictionary anyway.
   */
  function HeaderDictionary(h: Header): (r: Option<Dictionary>)
    ensures h.OtherHeader? ==> r.None?
  {
    match h
    case SVFeaturesHeader(d, _) => d
    case VcfHeader(d, _) => d
    case OtherHeader => None
  }

  /** The sample names a source's header contributes (none for a null list or another kind of header). */
  function HeaderSamples(h: Header): (r: seq<string>)
    ensures h.OtherHeader? ==> r == []
  {
    match h
    case SVFeaturesHeader(_, names) => if names.Some? then names.value else []
    case VcfHeader(_, names) => names
    case OtherHeader => []
  }

  /** The dictionaries offered by a run of headers, in order. */
  function HeaderDictionaries(headers: seq<Header>): (r: seq<Option<Dictionary>>)
    ensures |r| == |headers| && forall i | 0 <= i < |headers| :: r[i] == HeaderDictionary(headers[i])
  {
    seq(|headers|, i requires 0 <= i < |headers| => HeaderDictionary(headers[i]))
  }

  /** The sample names of a run of headers, concatenated in order. */
  function HeadersSamples(headers: seq<Header>): (r: seq<string>)
    ensures forall y :: y in r <==> exists i | 0 <= i < |headers| :: y in HeaderSamples(headers[i])
    decreases |headers|
  {
    if headers == [] then []
    else
      var init := headers[..|headers| - 1];
      var last := headers[|headers| - 1];
      var r := HeadersSamples(init) + HeaderSamples(last);
      assert forall i | 0 <= i < |init| :: init[i] == headers[i];
      r
  }

  /**
   * The candidate dictionaries in the order the walker consults them: the
   * reference's if there is a reference, the reads' if there are reads, then
   * each source's header.
   */
  function Candidates(hasReference: bool, referenceDict: Option<Dictionary>,
                      hasReads: bool, readsDict: Option<Dictionary>, headers: seq<Header>)
    : (r: seq<Option<Dictionary>>)
    ensures |r| == (if hasReference then 1 else 0) + (if hasReads then 1 else 0) + |headers|
    ensures hasReference ==> r[0] == referenceDict
  {
    (if hasReference then [referenceDict] else []) + (if hasReads then [readsDict] else [])
      + HeaderDictionaries(headers)
  }

  class MultiFeatureWalker {
    /** The dictionary settled on (null until `setDictionaryAndSamples` runs). */
    var dictionary: Option<Dictionary>
    /** The `TreeSet` of sample names. */
    var samples: seq<string>

    ghost predicate Valid()
      reads this
    {
      StrictlySorted(samples)
    }

    constructor()
      ensures Valid() && dictionary.None? && samples == []
    {
      dictionary := None;
      samples := [];
    }

    /**
     * `setDictionaryAndSamples`: fold `bestDictionary` over the candidates,
     * starting from the master dictionary, and add every header's samples to the
     * set. It fails with the first incompatibility the fold meets, and when no
     * dictionary is found at all.
     */
    method SetDictionaryAndSamples(master: Option<Dictionary>, hasReference: bool, referenceDict: Option<Dictionary>,
                                   hasReads: bool, readsDict: Option<Dictionary>, headers: seq<Header>)
      returns (r: Outcome)
      requires Valid()
      modifies this
      ensures Valid()
      ensures var fold := FoldBest(master, Candidates(hasReference, referenceDict, hasReads, readsDict, headers));
              && (fold.Err? ==> r == Fail(fold.error))
              && (fold.Ok? && fold.value.None? ==> r == Fail(NoDictionary))
              && (fold.Ok? && fold.value.Some? ==> r == Pass && dictionary == fold.value)
      ensures r.Pass? ==> samples == InsertAll(old(samples), HeadersSamples(headers))
    {
      ghost var all := Candidates(hasReference, referenceDict, hasReads, readsDict, headers);
      ghost var pending := all;
      dictionary := master;
      if hasReference {
        FoldStep(dictionary, pending);
        r := Reconcile(referenceDict);
        if r.Fail? {
          return;
        }
        pending := pending[1..];
      }
      if hasReads {
        FoldStep(dictionary, pending);
        r := Reconcile(readsDict);
        if r.Fail? {
          return;
        }
        pending := pending[1..];
      }
      assert pending == HeaderDictionaries(headers);
      assert FoldBest(master, all) == FoldBest(dictionary, pending);
      r := AddHeaders(headers);
      if r.Fail? {
        return;
      }
      if dictionary.None? {
        return Fail(NoDictionary);
      }
    }

    /**
     * The loop over the feature sources: fold each header's dictionary into the
     * current one and add its samples, stopping at the first incompatibility.
     */
    method AddHeaders(headers: seq<Header>) returns (r: Outcome)
      requires Valid()
      modifies this
      ensures Valid()
      ensures var fold := FoldBest(old(dictionary), HeaderDictionaries(headers));
              && (fold.Err? ==> r == Fail(fold.error))
              && (fold.Ok? ==> r == Pass && dictionary == fold.value &&
                                samples == InsertAll(old(samples), HeadersSamples(headers)))
    {
      ghost var pending := HeaderDictionaries(headers);
      r := Pass;
      for i := 0 to |headers|
        invariant pending == HeaderDictionaries(headers)[i..]
        invariant FoldBest(old(dictionary), HeaderDictionaries(headers)) == FoldBest(dictionary, pending)
        invariant Valid() && r == Pass
        invariant samples == InsertAll(old(samples), HeadersSamples(headers[..i]))
      {
        assert headers[..i + 1][..i] == headers[..i];
        InsertAllAppend(old(samples), HeadersSamples(headers[..i]), HeaderSamples(headers[i]));
        assert pending[0] == HeaderDictionary(headers[i]);
        ghost var before := dictionary;
        r := AddHeader(headers[i]);
        FoldStep(before, pending);
        if r.Fail? {
          return;
        }
        pending := pending[1..];
      }
      assert headers[..|headers|] == headers;
    }

    /** `dictionary = bestDictionary(newDict, dictionary)`, raising what it raises. */
    method Reconcile(newDict: Option<Dictionary>) returns (r: Outcome)
      modifies this
      ensures samples == old(samples)
      ensures var best := Best(newDict, old(dictionary));
              && (best.Err? ==> r == Fail(best.error) && dictionary == old(dictionary))
              && (best.Ok? ==> r == Pass && dictionary == best.value)
    {
      var best := BestDictionary(newDict, dictionary);
      if best.Err? {
        return Fail(best.error);
      }
      dictionary := best.value;
      return Pass;
    }

    /**
     * One turn of the loop over the feature sources: reconcile the header's
     * dictionary with the current one and add the header's samples.
     */
    method AddHeader(h: Header) returns (r: Outcome)
      requires Valid()
      modifies this
      ensures Valid()
      ensures var best := Best(HeaderDictionary(h), old(dictionary));
              && (best.Err? ==> r == Fail(best.error))
              && (best.Ok? ==> r == Pass && dictionary == best.value &&
                                samples == InsertAll(old(samples), HeaderSamples(h)))
    {
      r := Pass;
      assert h.OtherHeader? ==> InsertAll(samples, []) == samples;
      match h
      case SVFeaturesHeader(d, names) =>
        r := Reconcile(d);
        if r.Fail? {
          return;
        }
        if names.Some? {
          samples := InsertAll(samples, names.value);
        }
      case VcfHeader(d, names) =>
        r := Reconcile(d);
        if r.Fail? {
          return;
        }
        samples := InsertAll(samples, names);
      case OtherHeader =>
    }
  }

  /** One step of the fold: the first candidate either fails the fold or moves it on. */
  lemma FoldStep(cur: Option<Dictionary>, pending: seq<Option<Dictionary>>)
    requires pending != []
    ensures Best(pending[0], cur).Err? ==> FoldBest(cur, pending) == Err(Best(pending[0], cur).error)
    ensures Best(pending[0], cur).Ok? ==> FoldBest(cur, pending) == FoldBest(Best(pending[0], cur).value, pending[1..])
  {
  }

  /**
   * What a successful `setDictionaryAndSamples` guarantees of the dictionary:
   * it is one of the inputs, and every dictionary offered fits into it with its
   * contigs in the same order.
   */
  lemma SettledDictionary(master: Option<Dictionary>, hasReference: bool, referenceDict: Option<Dictionary>,
                          hasReads: bool, readsDict: Option<Dictionary>, headers: seq<Header>)
    requires var fold := FoldBest(master, Candidates(hasReference, referenceDict, hasReads, readsDict, headers));
             fold.Ok? && fold.value.Some?
    ensures var d := FoldBest(master, Candidates(hasReference, referenceDict, hasReads, readsDict, headers)).value.value;
            && (master.Some? ==> IsOrderedSubset(master.value, d))
            && (hasReference && referenceDict.Some? ==> IsOrderedSubset(referenceDict.value, d))
            && (hasReads && readsDict.Some? ==> IsOrderedSubset(readsDict.value, d))
            && (forall i | 0 <= i < |headers| && HeaderDictionary(headers[i]).Some? ::
                  IsOrderedSubset(HeaderDictionary(headers[i]).value, d))
            && (Some(d) == master || Some(d) in Candidates(hasReference, referenceDict, hasReads, readsDict, headers))
  {
    var all := Candidates(hasReference, referenceDict, hasReads, readsDict, headers);
    FoldBestCoversAll(master, all);
    FoldBestPicksAnInput(master, all);
    var d := FoldBest(master, all).value.value;
    var offset := (if hasReference then 1 else 0) + (if hasReads then 1 else 0);
    if hasReference && referenceDict.Some? {
      assert all[0] == referenceDict;
    }
    if hasReads && readsDict.Some? {
      assert all[offset - 1] == readsDict;
    }
    assert all[offset..] == HeaderDictionaries(headers);
    HeadersCovered(all, offset, headers, d);
  }

  /** The headers' share of the candidates fits into `d` when every candidate does. */
  lemma HeadersCovered(all: seq<Option<Dictionary>>, offset: nat, headers: seq<Header>, d: Dictionary)
    requires offset <= |all| && all[offset..] == HeaderDictionaries(headers)
    requires forall k | 0 <= k < |all| && all[k].Some? :: IsOrderedSubset(all[k].value, d)
    ensures forall i | 0 <= i < |headers| && HeaderDictionary(headers[i]).Some? ::
              IsOrderedSubset(HeaderDictionary(headers[i]).value, d)
  {
    forall i | 0 <= i < |headers| && HeaderDictionary(headers[i]).Some?
      ensures IsOrderedSubset(HeaderDictionary(headers[i]).value, d)
    {
      assert all[offset..][i] == all[offset + i];
    }
  }

  /**
   * The sample set after `setDictionaryAndSamples` is the one sorted,
   * duplicate-free arrangement of the names already there and those the
   * headers list: any such sequence is it.
   */
  lemma SettledSamples(oldSamples: seq<string>, headers: seq<Header>, samples: seq<string>)
    requires StrictlySorted(oldSamples) && StrictlySorted(samples)
    requires forall y :: y in samples <==> y in oldSamples || y in HeadersSamples(headers)
    ensures samples == InsertAll(oldSamples, HeadersSamples(headers))
  {
    StrictlySortedUnique(samples, InsertAll(oldSamples, HeadersSamples(headers)));
  }
}
