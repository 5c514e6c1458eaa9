/**
 * Sequence dictionaries and the pairwise reconciliation `bestDictionary` of
 * MultiFeatureWalker: of two dictionaries the larger one is kept, provided the
 * contigs of the smaller one occur in it in the same relative order.
 */
module Dictionaries {
  import opened Wrappers

  /** A sequence dictionary, reduced to its contig names in dictionary order. */
  type Dictionary = seq<string>

  /** A SAMSequenceDictionary never holds two contigs with one name. */
  ghost predicate Distinct(d: Dictionary) {
    forall i, j | 0 <= i < j < |d| :: d[i] != d[j]
  }

  /** `getSequenceIndex`: the position of `name` in `d`, or -1 when it is absent. */
  function IndexOf(d: Dictionary, name: string): (r: int)
    ensures -1 <= r < |d|
    ensures r >= 0 ==> d[r] == name
    ensures r == -1 <==> name !in d
  {
    if d == [] then -1
    else if d[0] == name then 0
    else
      var i := IndexOf(d[1..], name);
      assert name in d[1..] ==> name in d;
      if i == -1 then -1 else i + 1
  }

  /** `idx` places the contigs of `small` in `large`, at strictly increasing positions. */
  ghost predicate Embedding(small: seq<string>, large: Dictionary, idx: seq<int>) {
    && |idx| == |small|
    && (forall k | 0 <= k < |idx| :: 0 <= idx[k] < |large| && large[idx[k]] == small[k])
    && (forall k, l | 0 <= k < l < |idx| :: idx[k] < idx[l])
  }

  /**
   * The compatibility `bestDictionary` demands: `small` is an order-preserving
   * subsequence of `large` (gaps allowed).
   */
  ghost predicate IsOrderedSubset(small: seq<string>, large: Dictionary) {
    exists idx :: Embedding(small, large, idx)
  }

  /**
   * The loop of `bestDictionary` over the contigs of the smaller dictionary,
   * with `lastIdx` the position in `large` of the contig checked before:
   * `None` when each contig is found after its predecessor, otherwise the first failure.
   */
  function OrderError(small: seq<string>, large: Dictionary, lastIdx: int): (r: Option<Error>)
    ensures r.Some? ==>
              || (r.value.ContigNotFound? && r.value.contig in small && r.value.contig !in large)
              || (r.value.ContigOutOfOrder? && r.value.contig in small && r.value.contig in large)
  {
    if small == [] then None
    else
      var newIdx := IndexOf(large, small[0]);
      if newIdx == -1 then Some(ContigNotFound(small[0]))
      else if newIdx <= lastIdx then Some(ContigOutOfOrder(small[0]))
      else
        var r := OrderError(small[1..], large, newIdx);
        assert r.Some? ==> r.value.contig in small[1..];
        r
  }

  /**
   * `bestDictionary(newDict, curDict)` as a function: an absent dictionary yields
   * the other one; otherwise the larger (`curDict` on equal sizes) if it is compatible
   * with the smaller.
   */
  function Best(newDict: Option<Dictionary>, curDict: Option<Dictionary>): Result<Option<Dictionary>> {
    if curDict.None? then Ok(newDict)
    else if newDict.None? then Ok(curDict)
    else
      var small := if |newDict.value| <= |curDict.value| then newDict.value else curDict.value;
      var large := if |newDict.value| <= |curDict.value| then curDict.value else newDict.value;
      match OrderError(small, large, -1)
      case Some(e) => Err(e)
      case None => Ok(Some(large))
  }

  /** `bestDictionary`, with its loop over the smaller dictionary and the `lastIdx` accumulator. */
  method BestDictionary(newDict: Option<Dictionary>, curDict: Option<Dictionary>)
    returns (r: Result<Option<Dictionary>>)
    ensures r == Best(newDict, curDict)
  {
    if curDict.None? {
      return Ok(newDict);
    }
    if newDict.None? {
      return Ok(curDict);
    }
    var smallDict, largeDict;
    if |newDict.value| <= |curDict.value| {
      smallDict, largeDict := newDict.value, curDict.value;
    } else {
      smallDict, largeDict := curDict.value, newDict.value;
    }
    var lastIdx := -1;
    for i := 0 to |smallDict|
      invariant OrderError(smallDict, largeDict, -1) == OrderError(smallDict[i..], largeDict, lastIdx)
    {
      assert smallDict[i..][1..] == smallDict[i + 1..];
      var newIdx := IndexOf(largeDict, smallDict[i]);
      if newIdx == -1 {
        return Err(ContigNotFound(smallDict[i]));
      }
      if newIdx <= lastIdx {
        return Err(ContigOutOfOrder(smallDict[i]));
      }
      lastIdx := newIdx;
    }
    return Ok(Some(largeDict));
  }

  /** A passing check yields the positions it found, which embed `small` in `large`. */
  lemma {:induction false} OrderOkEmbeds(small: seq<string>, large: Dictionary, lastIdx: int)
    returns (idx: seq<int>)
    requires OrderError(small, large, lastIdx).None?
    ensures Embedding(small, large, idx)
    ensures forall k | 0 <= k < |idx| :: lastIdx < idx[k]
  {
    if small == [] {
      idx := [];
    } else {
      var newIdx := IndexOf(large, small[0]);
      var rest := OrderOkEmbeds(small[1..], large, newIdx);
      idx := [newIdx] + rest;
    }
  }

  /** With distinct names, any embedding above `lastIdx` is exactly what the check finds. */
  lemma {:induction false} EmbeddingPassesCheck(small: seq<string>, large: Dictionary, idx: seq<int>, lastIdx: int)
    requires Distinct(large)
    requires Embedding(small, large, idx)
    requires forall k | 0 <= k < |idx| :: lastIdx < idx[k]
    ensures OrderError(small, large, lastIdx).None?
  {
    if small != [] {
      assert IndexOf(large, small[0]) == idx[0];
      EmbeddingPassesCheck(small[1..], large, idx[1..], idx[0]);
    }
  }

  /** The check of `bestDictionary` passes exactly for order-preserving subsets. */
  lemma OrderCheckIsOrderedSubset(small: seq<string>, large: Dictionary)
    requires Distinct(large)
    ensures OrderError(small, large, -1).None? <==> IsOrderedSubset(small, large)
  {
    if OrderError(small, large, -1).None? {
      var idx := OrderOkEmbeds(small, large, -1);
    }
    if IsOrderedSubset(small, large) {
      var idx :| Embedding(small, large, idx);
      EmbeddingPassesCheck(small, large, idx, -1);
    }
  }

  lemma OrderedSubsetReflexive(d: Dictionary)
    ensures IsOrderedSubset(d, d)
  {
    var idx := seq(|d|, k => k);
    assert Embedding(d, d, idx);
  }

  lemma OrderedSubsetTransitive(a: seq<string>, b: Dictionary, c: Dictionary)
    requires IsOrderedSubset(a, b) && IsOrderedSubset(b, c)
    ensures IsOrderedSubset(a, c)
  {
    var ab :| Embedding(a, b, ab);
    var bc :| Embedding(b, c, bc);
    var ac := seq(|ab|, k requires 0 <= k < |ab| => bc[ab[k]]);
    assert Embedding(a, c, ac);
  }

  /**
   * The reconciliation law: two present dictionaries reconcile exactly when the
   * smaller is an order-preserving subset of the larger, and the result is then
   * the larger one (`curDict` when they have the same size); it never truncates
   * or rebuilds either argument.
   */
  lemma BestLaw(newDict: Dictionary, curDict: Dictionary)
    requires Distinct(newDict) && Distinct(curDict)
    ensures var r := Best(Some(newDict), Some(curDict));
            if |newDict| <= |curDict| then
              (r.Ok? <==> IsOrderedSubset(newDict, curDict)) && (r.Ok? ==> r.value == Some(curDict))
            else
              (r.Ok? <==> IsOrderedSubset(curDict, newDict)) && (r.Ok? ==> r.value == Some(newDict))
  {
    OrderCheckIsOrderedSubset(newDict, curDict);
    OrderCheckIsOrderedSubset(curDict, newDict);
  }

  /** A successful reconciliation yields a dictionary both arguments are compatible with. */
  lemma BestCoversBoth(newDict: Option<Dictionary>, curDict: Option<Dictionary>)
    requires Best(newDict, curDict).Ok?
    ensures var r := Best(newDict, curDict).value;
            && (r.None? <==> newDict.None? && curDict.None?)
            && (newDict.Some? ==> r.Some? && IsOrderedSubset(newDict.value, r.value))
            && (curDict.Some? ==> r.Some? && IsOrderedSubset(curDict.value, r.value))
  {
    if newDict.Some? && curDict.Some? {
      var n, c := newDict.value, curDict.value;
      if |n| <= |c| {
        var _ := OrderOkEmbeds(n, c, -1);
        OrderedSubsetReflexive(c);
      } else {
        var _ := OrderOkEmbeds(c, n, -1);
        OrderedSubsetReflexive(n);
      }
    } else if newDict.Some? {
      OrderedSubsetReflexive(newDict.value);
    } else if curDict.Some? {
      OrderedSubsetReflexive(curDict.value);
    }
  }

  /** The left fold of `bestDictionary` over `candidates`, starting from `cur`. */
  function FoldBest(cur: Option<Dictionary>, candidates: seq<Option<Dictionary>>): Result<Option<Dictionary>>
    decreases |candidates|
  {
    if candidates == [] then Ok(cur)
    else
      match Best(candidates[0], cur)
      case Err(e) => Err(e)
      case Ok(next) => FoldBest(next, candidates[1..])
  }

  /**
   * A successful fold picks one of its inputs, never a new dictionary, and is
   * absent only when every input is.
   */
  lemma {:induction false} FoldBestPicksAnInput(cur: Option<Dictionary>, candidates: seq<Option<Dictionary>>)
    requires FoldBest(cur, candidates).Ok?
    ensures var r := FoldBest(cur, candidates).value;
            && (r.None? <==> cur.None? && forall k | 0 <= k < |candidates| :: candidates[k].None?)
            && (r.Some? ==> r == cur || r in candidates)
    decreases |candidates|
  {
    if candidates != [] {
      var next := Best(candidates[0], cur).value;
      assert next.None? <==> candidates[0].None? && cur.None?;
      assert next.Some? ==> next == cur || next == candidates[0];
      var rest := candidates[1..];
      assert candidates == [candidates[0]] + rest;
      FoldBestPicksAnInput(next, rest);
      var r := FoldBest(cur, candidates).value;
      assert r == FoldBest(next, rest).value;
      assert forall k | 1 <= k < |candidates| :: candidates[k] == rest[k - 1];
    }
  }

  /** Every present input of a successful fold is an order-preserving subset of its result. */
  lemma {:induction false} FoldBestCoversAll(cur: Option<Dictionary>, candidates: seq<Option<Dictionary>>)
    requires FoldBest(cur, candidates).Ok?
    ensures var r := FoldBest(cur, candidates).value;
            && (cur.Some? ==> r.Some? && IsOrderedSubset(cur.value, r.value))
            && (forall k | 0 <= k < |candidates| && candidates[k].Some? ::
                  r.Some? && IsOrderedSubset(candidates[k].value, r.value))
    decreases |candidates|
  {
    if candidates == [] {
      if cur.Some? {
        OrderedSubsetReflexive(cur.value);
      }
    } else {
      BestCoversBoth(candidates[0], cur);
      var next := Best(candidates[0], cur).value;
      FoldBestCoversAll(next, candidates[1..]);
      var r := FoldBest(cur, candidates).value;
      assert r == FoldBest(next, candidates[1..]).value;
      if cur.Some? {
        OrderedSubsetTransitive(cur.value, next.value, r.value);
      }
      forall k | 0 <= k < |candidates| && candidates[k].Some?
        ensures r.Some? && IsOrderedSubset(candidates[k].value, r.value)
      {
        if k == 0 {
          OrderedSubsetTransitive(candidates[0].value, next.value, r.value);
        } else {
          assert candidates[1..][k - 1] == candidates[k];
        }
      }
    }
  }

  /**
   * The unit test's situations: a chr20/chr21 subset reconciles with a larger
   * dictionary that has them in the same order, and the same two contigs in
   * reverse order do not.
   */
  lemma SubsetAndMisorderedExamples()
    ensures Best(Some(["chr20", "chr21"]), Some(["chr9", "chr10", "chr20", "chr21"]))
            == Ok(Some(["chr9", "chr10", "chr20", "chr21"]))
    ensures Best(Some(["chr21", "chr20"]), Some(["chr9", "chr10", "chr20", "chr21"]))
            == Err(ContigOutOfOrder("chr20"))
  {
  }
}
