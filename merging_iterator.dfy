/**
 * `MultiFeatureWalker.MergingIterator`: the merge of several sorted feature
 * sources into one stream in locus order. A priority queue holds the next
 * record of each source; `next` polls the earliest, refills from the same
 * source, and fails when the refill sorts before the record just polled,
 * which is the only check that the sources are sorted at all.
 */
module Merging {
  import opened Wrappers
  import opened Dictionaries
  import opened Loci
  import opened Features
  import opened SameLocus

  /** `PQEntry`: a record and the input it was read from, which names its header. */
  datatype Entry = Entry(feature: Feature, source: nat)

  /** `PQEntry.compareTo`: entries are ordered by the locus of their records. */
  function CompareEntries(dict: Dictionary, a: Entry, b: Entry): int
    requires KnownFeature(dict, a.feature) && KnownFeature(dict, b.feature)
  {
    CompareLoci(dict, a.feature, b.feature)
  }

  /**
   * `compareTo` is a total preorder, as the priority queue needs: antisymmetric,
   * transitive, and zero exactly on records at one locus.
   */
  lemma CompareEntriesPreorder(dict: Dictionary, a: Entry, b: Entry, c: Entry)
    requires KnownFeature(dict, a.feature) && KnownFeature(dict, b.feature) && KnownFeature(dict, c.feature)
    ensures CompareEntries(dict, a, b) == -CompareEntries(dict, b, a)
    ensures CompareEntries(dict, a, b) == 0 <==> a.feature.Loc() == b.feature.Loc()
    ensures CompareEntries(dict, a, b) <= 0 && CompareEntries(dict, b, c) <= 0 ==> CompareEntries(dict, a, c) <= 0
  {
    CompareLocatablesAntisymmetric(dict, a.feature.Loc(), b.feature.Loc());
    CompareLocatablesZero(dict, a.feature.Loc(), b.feature.Loc());
    CompareLocatablesTransitive(dict, a.feature.Loc(), b.feature.Loc(), c.feature.Loc());
  }

  /** The records of a run of entries, in order. */
  function Records(es: seq<Entry>): (r: seq<Feature>)
    ensures |r| == |es| && forall i | 0 <= i < |es| :: r[i] == es[i].feature
  {
    seq(|es|, i requires 0 <= i < |es| => es[i].feature)
  }

  /** The records of `es` that came from input `s`, in order. */
  function From(es: seq<Entry>, s: nat): (r: seq<Feature>)
    ensures |r| <= |es|
  {
    if es == [] then []
    else
      var init := es[..|es| - 1];
      var last := es[|es| - 1];
      From(init, s) + (if last.source == s then [last.feature] else [])
  }

  /** A record picked out for input `s` is the record of an entry from `s`. */
  lemma {:induction false} FromMember(es: seq<Entry>, s: nat, f: Feature)
    requires f in From(es, s)
    ensures Entry(f, s) in es
    decreases |es|
  {
    var init := es[..|es| - 1];
    if f in From(init, s) {
      FromMember(init, s, f);
      assert init[..] <= es;
    }
  }

  lemma {:induction false} FromConcat(a: seq<Entry>, b: seq<Entry>, s: nat)
    ensures From(a + b, s) == From(a, s) + From(b, s)
    decreases |b|
  {
    if b == [] {
      assert a + b == a;
    } else {
      var b' := b[..|b| - 1];
      assert (a + b)[..|a + b| - 1] == a + b';
      FromConcat(a, b', s);
    }
  }

  lemma FromSingle(e: Entry, s: nat)
    ensures From([e], s) == if e.source == s then [e.feature] else []
  {
    assert [e][..0] == [];
  }

  /**
   * Taking entry `k` out of a queue that holds at most one entry per input
   * takes its record out of its own input's part and leaves the others.
   */
  lemma FromWithout(q: seq<Entry>, k: nat, s: nat)
    requires k < |q| && |From(q, s)| <= 1
    ensures q[k].source == s ==> From(q, s) == [q[k].feature] && From(Without(q, k), s) == []
    ensures q[k].source != s ==> From(Without(q, k), s) == From(q, s)
  {
    if q[k].source == s {
      FromWithoutOwn(q, k);
    } else {
      FromAround(q, k, s);
    }
  }

  /** An input with its one queued entry taken out has none left in the queue. */
  lemma FromWithoutOwn(q: seq<Entry>, k: nat)
    requires k < |q| && |From(q, q[k].source)| <= 1
    ensures From(q, q[k].source) == [q[k].feature] && From(Without(q, k), q[k].source) == []
  {
    var s := q[k].source;
    FromAround(q, k, s);
    var fa, fb := From(q[..k], s), From(q[k + 1..], s);
    assert |fa| + 1 + |fb| <= 1;
    assert fa == [] && fb == [];
  }

  /** The records of input `s` before, at and after position `k`. */
  lemma FromAround(q: seq<Entry>, k: nat, s: nat)
    requires k < |q|
    ensures From(q, s) == From(q[..k], s) + (if q[k].source == s then [q[k].feature] else []) + From(q[k + 1..], s)
    ensures From(Without(q, k), s) == From(q[..k], s) + From(q[k + 1..], s)
  {
    var a, b := q[..k], q[k + 1..];
    assert q == (a + [q[k]]) + b;
    FromConcat(a + [q[k]], b, s);
    FromConcat(a, [q[k]], s);
    FromConcat(a, b, s);
    FromSingle(q[k], s);
  }

  /** Every record of `fs` is at or before every later one. */
  ghost predicate NonDecreasing(dict: Dictionary, fs: seq<Feature>) {
    && (forall f | f in fs :: KnownFeature(dict, f))
    && (forall i, j | 0 <= i < j < |fs| :: CompareLoci(dict, fs[i], fs[j]) <= 0)
  }

  /** Every input is in locus order. */
  ghost predicate AllSorted(dict: Dictionary, sources: seq<seq<Feature>>) {
    forall s | 0 <= s < |sources| :: NonDecreasing(dict, sources[s])
  }

  /** The records of one input, picked out of an ordered run, are in order. */
  lemma {:induction false} FromOrdered(dict: Dictionary, es: seq<Entry>, s: nat)
    requires NonDecreasing(dict, Records(es))
    ensures NonDecreasing(dict, From(es, s))
    decreases |es|
  {
    if es != [] {
      var init := es[..|es| - 1];
      var last := es[|es| - 1];
      assert Records(init) == Records(es)[..|es| - 1];
      FromOrdered(dict, init, s);
      if last.source == s {
        var r := From(es, s);
        var n := |From(init, s)|;
        assert Records(es)[|es| - 1] == last.feature;
        forall i | 0 <= i < n ensures CompareLoci(dict, r[i], last.feature) <= 0 {
          assert r[i] in From(init, s);
          FromMember(init, s, r[i]);
          var j :| 0 <= j < |init| && init[j] == Entry(r[i], s);
          assert Records(es)[j] == r[i];
        }
      }
    }
  }

  /** The part of the inputs not yet read, after reading one record from input `s`. */
  function Consume(remaining: seq<seq<Feature>>, s: nat): (r: seq<seq<Feature>>)
    requires s < |remaining|
    ensures |r| == |remaining|
  {
    if remaining[s] == [] then remaining else remaining[s := remaining[s][1..]]
  }

  /** The entry `addEntry` puts in the queue for input `s`: its next record, if any. */
  function Refill(remaining: seq<seq<Feature>>, s: nat): (r: seq<Entry>)
    requires s < |remaining|
    ensures |r| <= 1
  {
    if remaining[s] == [] then [] else [Entry(remaining[s][0], s)]
  }

  /**
   * The iterator's state as values: every input is split into the records
   * already polled (`taken`), the one waiting in the queue, and those not yet
   * read; an input with nothing in the queue is exhausted. An input is caught
   * out of order only if one is; until then, the polled records are in locus
   * order and none is after anything still queued.
   */
  ghost predicate IterState(dict: Dictionary, sources: seq<seq<Feature>>, remaining: seq<seq<Feature>>,
                            queue: seq<Entry>, taken: seq<Entry>, failed: bool) {
    && |remaining| == |sources|
    && (forall s | 0 <= s < |sources| :: forall f | f in sources[s] :: KnownFeature(dict, f))
    && (forall e | e in queue :: e.source < |sources| && KnownFeature(dict, e.feature))
    && (forall s | 0 <= s < |sources| :: sources[s] == From(taken, s) + From(queue, s) + remaining[s])
    && (forall s | 0 <= s < |sources| :: |From(queue, s)| <= 1 && (From(queue, s) == [] ==> remaining[s] == []))
    && (failed ==> !AllSorted(dict, sources))
    && (!failed ==>
          && NonDecreasing(dict, Records(taken))
          && forall d, e | d in taken && e in queue :: CompareEntries(dict, d, e) <= 0)
  }

  /** `next` detects an input out of order: the refill sorts before the record polled from the same input. */
  ghost predicate CaughtOutOfOrder(dict: Dictionary, remaining: seq<seq<Feature>>, polled: Entry)
    requires polled.source < |remaining| && KnownFeature(dict, polled.feature)
    requires forall f | f in remaining[polled.source] :: KnownFeature(dict, f)
  {
    remaining[polled.source] != [] && CompareLoci(dict, remaining[polled.source][0], polled.feature) < 0
  }

  /** The structural half of `next`: polling entry `k` and refilling from its input keeps the split. */
  lemma NextSplit(dict: Dictionary, sources: seq<seq<Feature>>, remaining: seq<seq<Feature>>,
                  queue: seq<Entry>, taken: seq<Entry>, failed: bool, k: nat)
    requires IterState(dict, sources, remaining, queue, taken, failed) && k < |queue|
    ensures var e := queue[k];
            var q' := Without(queue, k) + Refill(remaining, e.source);
            && (forall s | 0 <= s < |sources| ::
                  sources[s] == From(taken + [e], s) + From(q', s) + Consume(remaining, e.source)[s])
            && (forall s | 0 <= s < |sources| ::
                  |From(q', s)| <= 1 && (From(q', s) == [] ==> Consume(remaining, e.source)[s] == []))
            && sources[e.source] == From(taken, e.source) + [e.feature] + remaining[e.source]
  {
    var e := queue[k];
    forall s | 0 <= s < |sources|
      ensures var q' := Without(queue, k) + Refill(remaining, e.source);
              && sources[s] == From(taken + [e], s) + From(q', s) + Consume(remaining, e.source)[s]
              && |From(q', s)| <= 1 && (From(q', s) == [] ==> Consume(remaining, e.source)[s] == [])
    {
      SplitStep(sources[s], taken, queue, remaining, k, s);
    }
    FromWithout(queue, k, e.source);
  }

  /** `NextSplit` for one input `s`. */
  lemma SplitStep(src: seq<Feature>, taken: seq<Entry>, queue: seq<Entry>, remaining: seq<seq<Feature>>, k: nat, s: nat)
    requires k < |queue| && queue[k].source < |remaining| && s < |remaining|
    requires src == From(taken, s) + From(queue, s) + remaining[s]
    requires |From(queue, s)| <= 1 && (From(queue, s) == [] ==> remaining[s] == [])
    ensures var e := queue[k];
            var q' := Without(queue, k) + Refill(remaining, e.source);
            && src == From(taken + [e], s) + From(q', s) + Consume(remaining, e.source)[s]
            && |From(q', s)| <= 1 && (From(q', s) == [] ==> Consume(remaining, e.source)[s] == [])
  {
    if s != queue[k].source {
      SplitStepOther(src, taken, queue, remaining, k, s);
    } else {
      SplitStepOwn(src, taken, queue, remaining, k);
    }
  }

  /** `SplitStep` for an input other than the one the record came from: nothing moves. */
  lemma SplitStepOther(src: seq<Feature>, taken: seq<Entry>, queue: seq<Entry>, remaining: seq<seq<Feature>>, k: nat, s: nat)
    requires k < |queue| && queue[k].source < |remaining| && s < |remaining| && s != queue[k].source
    requires src == From(taken, s) + From(queue, s) + remaining[s]
    requires |From(queue, s)| <= 1 && (From(queue, s) == [] ==> remaining[s] == [])
    ensures var e := queue[k];
            var q' := Without(queue, k) + Refill(remaining, e.source);
            && src == From(taken + [e], s) + From(q', s) + Consume(remaining, e.source)[s]
            && |From(q', s)| <= 1 && (From(q', s) == [] ==> Consume(remaining, e.source)[s] == [])
  {
    var e := queue[k];
    var q' := Without(queue, k) + Refill(remaining, e.source);
    FromAppendOther(taken, e, s);
    FromWithout(queue, k, s);
    FromConcat(Without(queue, k), Refill(remaining, e.source), s);
    FromRefillOther(remaining, e.source, s);
    assert From(q', s) == From(queue, s);
    ConsumeOther(remaining, e.source, s);
  }

  /** An entry from another input adds nothing to input `s`'s records. */
  lemma FromAppendOther(es: seq<Entry>, e: Entry, s: nat)
    requires e.source != s
    ensures From(es + [e], s) == From(es, s)
  {
    assert (es + [e])[..|es|] == es;
  }

  /** A refill from another input adds nothing to input `s`'s records. */
  lemma FromRefillOther(remaining: seq<seq<Feature>>, t: nat, s: nat)
    requires t < |remaining| && t != s
    ensures From(Refill(remaining, t), s) == []
  {
    if remaining[t] != [] {
      FromSingle(Entry(remaining[t][0], t), s);
    }
  }

  /** Reading from input `t` leaves input `s`'s unread records alone. */
  lemma ConsumeOther(remaining: seq<seq<Feature>>, t: nat, s: nat)
    requires t < |remaining| && s < |remaining| && t != s
    ensures Consume(remaining, t)[s] == remaining[s]
  {
  }

  /** `SplitStep` for the input the record came from: its next record, if any, joins the queue. */
  lemma SplitStepOwn(src: seq<Feature>, taken: seq<Entry>, queue: seq<Entry>, remaining: seq<seq<Feature>>, k: nat)
    requires k < |queue| && queue[k].source < |remaining|
    requires var s := queue[k].source;
             && src == From(taken, s) + From(queue, s) + remaining[s]
             && |From(queue, s)| <= 1
    ensures var e := queue[k];
            var s := e.source;
            var q' := Without(queue, k) + Refill(remaining, s);
            && src == From(taken + [e], s) + From(q', s) + Consume(remaining, s)[s]
            && |From(q', s)| <= 1 && (From(q', s) == [] ==> Consume(remaining, s)[s] == [])
  {
    var e := queue[k];
    var s := e.source;
    var refill := Refill(remaining, s);
    var q' := Without(queue, k) + refill;
    FromConcat(taken, [e], s);
    FromSingle(e, s);
    FromWithout(queue, k, s);
    FromConcat(Without(queue, k), refill, s);
    if remaining[s] == [] {
      assert From(refill, s) == [];
      assert From(q', s) == [] && Consume(remaining, s)[s] == [];
    } else {
      FromSingle(refill[0], s);
      assert From(q', s) == [remaining[s][0]];
      assert Consume(remaining, s)[s] == remaining[s][1..];
      MoveOne(From(taken, s), e.feature, remaining[s]);
    }
  }

  /** Moving the boundaries of a three-part split one record to the right. */
  lemma MoveOne(a: seq<Feature>, f: Feature, r: seq<Feature>)
    requires r != []
    ensures a + [f] + r == (a + [f]) + [r[0]] + r[1..]
  {
    assert r == [r[0]] + r[1..];
  }

  /** `next` catches an out-of-order refill only when that input really is out of order. */
  lemma CaughtMeansUnsorted(dict: Dictionary, sources: seq<seq<Feature>>, remaining: seq<seq<Feature>>,
                            taken: seq<Entry>, e: Entry)
    requires e.source < |sources| == |remaining| && KnownFeature(dict, e.feature)
    requires forall f | f in sources[e.source] :: KnownFeature(dict, f)
    requires sources[e.source] == From(taken, e.source) + [e.feature] + remaining[e.source]
    requires forall f | f in remaining[e.source] :: KnownFeature(dict, f)
    requires CaughtOutOfOrder(dict, remaining, e)
    ensures !AllSorted(dict, sources)
  {
    var src := sources[e.source];
    var i := |From(taken, e.source)|;
    assert src[i] == e.feature && src[i + 1] == remaining[e.source][0];
    assert src[i] in src && src[i + 1] in src;
    CompareLocatablesAntisymmetric(dict, src[i].Loc(), src[i + 1].Loc());
    assert !NonDecreasing(dict, src);
  }

  /** The ordering half of `next`: a minimal poll and an in-order refill keep the polled records sorted. */
  lemma NextInOrder(dict: Dictionary, queue: seq<Entry>, taken: seq<Entry>, k: nat, refill: seq<Entry>)
    requires k < |queue| && |refill| <= 1
    requires forall e | e in queue + refill :: KnownFeature(dict, e.feature)
    requires NonDecreasing(dict, Records(taken))
    requires forall d, e | d in taken && e in queue :: CompareEntries(dict, d, e) <= 0
    requires forall e | e in queue :: CompareEntries(dict, queue[k], e) <= 0
    requires forall e | e in refill :: CompareEntries(dict, queue[k], e) <= 0
    ensures NonDecreasing(dict, Records(taken + [queue[k]]))
    ensures forall d, e | d in taken + [queue[k]] && e in Without(queue, k) + refill :: CompareEntries(dict, d, e) <= 0
  {
    var p := queue[k];
    var t' := taken + [p];
    assert Records(t') == Records(taken) + [p.feature];
    assert forall d | d in taken :: CompareEntries(dict, d, p) <= 0;
    forall d, e | d in t' && e in Without(queue, k) + refill ensures CompareEntries(dict, d, e) <= 0 {
      assert multiset(queue) == multiset(Without(queue, k)) + multiset{p};
      assert e in queue || e in refill;
      CompareEntriesPreorder(dict, d, p, e);
    }
    forall i, j | 0 <= i < j < |t'| ensures CompareLoci(dict, Records(t')[i], Records(t')[j]) <= 0 {
      if j == |taken| {
        assert t'[i] in taken;
      }
    }
  }

  /**
   * The polled records so far are all the records of every input, in order, once
   * the queue is empty and nothing was caught out of order; so every input was sorted.
   */
  lemma Exhausted(dict: Dictionary, sources: seq<seq<Feature>>, remaining: seq<seq<Feature>>,
                  taken: seq<Entry>)
    requires IterState(dict, sources, remaining, [], taken, false)
    ensures forall s | 0 <= s < |sources| :: From(taken, s) == sources[s]
    ensures NonDecreasing(dict, Records(taken))
    ensures AllSorted(dict, sources)
  {
    forall s | 0 <= s < |sources| ensures From(taken, s) == sources[s] && NonDecreasing(dict, sources[s]) {
      assert From([], s) == [];
      FromOrdered(dict, taken, s);
    }
  }

  /**
   * The whole of `next` on values: polling an earliest entry `k` and refilling
   * from its input keeps the iterator's state, and catches the input out of
   * order only if it is.
   */
  lemma AfterNext(dict: Dictionary, sources: seq<seq<Feature>>, remaining: seq<seq<Feature>>,
                  queue: seq<Entry>, taken: seq<Entry>, failed: bool, k: nat)
    requires IterState(dict, sources, remaining, queue, taken, failed) && k < |queue|
    requires forall e | e in queue :: CompareEntries(dict, queue[k], e) <= 0
    ensures queue[k].source < |remaining| && forall f | f in remaining[queue[k].source] :: KnownFeature(dict, f)
    ensures var e := queue[k];
            var caught := CaughtOutOfOrder(dict, remaining, e);
            && IterState(dict, sources, Consume(remaining, e.source), Without(queue, k) + Refill(remaining, e.source),
                         taken + [e], failed || caught)
            && (caught ==> !AllSorted(dict, sources))
  {
    var e := queue[k];
    NextSplit(dict, sources, remaining, queue, taken, failed, k);
    assert forall f | f in remaining[e.source] :: f in sources[e.source];
    var caught := CaughtOutOfOrder(dict, remaining, e);
    var refill := Refill(remaining, e.source);
    if !failed && !caught {
      if refill != [] {
        CompareLocatablesAntisymmetric(dict, refill[0].feature.Loc(), e.feature.Loc());
      }
      NextInOrder(dict, queue, taken, k, refill);
    }
    if caught {
      CaughtMeansUnsorted(dict, sources, remaining, taken, e);
    }
    if refill != [] {
      assert remaining[e.source][0] in remaining[e.source];
    }
    QueueAfterPoll(dict, queue, k, refill, |sources|);
  }

  /** The queue after a poll and a refill holds entries of known inputs and records, as before. */
  lemma QueueAfterPoll(dict: Dictionary, queue: seq<Entry>, k: nat, refill: seq<Entry>, n: nat)
    requires k < |queue|
    requires forall e | e in queue :: e.source < n && KnownFeature(dict, e.feature)
    requires forall e | e in refill :: e.source < n && KnownFeature(dict, e.feature)
    ensures forall x | x in Without(queue, k) + refill :: x.source < n && KnownFeature(dict, x.feature)
  {
    forall x | x in Without(queue, k) ensures x in queue {
      assert multiset(queue) == multiset(Without(queue, k)) + multiset{queue[k]};
      assert x in multiset(Without(queue, k));
    }
  }

  /** `AfterNext`, stated on the values the iterator's fields take after `next`. */
  lemma NextKeepsState(dict: Dictionary, sources: seq<seq<Feature>>, remaining: seq<seq<Feature>>,
                       queue: seq<Entry>, taken: seq<Entry>, failed: bool, k: nat,
                       remaining': seq<seq<Feature>>, queue': seq<Entry>, taken': seq<Entry>, failed': bool)
    requires IterState(dict, sources, remaining, queue, taken, failed) && k < |queue|
    requires forall e | e in queue :: CompareEntries(dict, queue[k], e) <= 0
    requires queue[k].source < |remaining|
    requires remaining' == Consume(remaining, queue[k].source)
    requires queue' == Without(queue, k) + Refill(remaining, queue[k].source)
    requires taken' == taken + [queue[k]]
    requires failed' == (failed || (remaining[queue[k].source] != [] &&
                         CompareEntries(dict, Entry(remaining[queue[k].source][0], queue[k].source), queue[k]) < 0))
    ensures IterState(dict, sources, remaining', queue', taken', failed')
  {
    AfterNext(dict, sources, remaining, queue, taken, failed, k);
  }

  /** `PriorityQueue.poll` under `compareTo`: the position of some earliest entry (ties unspecified). */
  method PollEarliest(dict: Dictionary, queue: seq<Entry>) returns (k: nat)
    requires queue != [] && forall e | e in queue :: KnownFeature(dict, e.feature)
    ensures k < |queue|
    ensures forall e | e in queue :: CompareEntries(dict, queue[k], e) <= 0
  {
    k := 0;
    for i := 1 to |queue|
      invariant k < |queue|
      invariant forall j | 0 <= j < i :: CompareEntries(dict, queue[k], queue[j]) <= 0
    {
      CompareEntriesPreorder(dict, queue[i], queue[k], queue[k]);
      if CompareEntries(dict, queue[i], queue[k]) < 0 {
        forall j | 0 <= j < i ensures CompareEntries(dict, queue[i], queue[j]) <= 0 {
          CompareEntriesPreorder(dict, queue[i], queue[k], queue[j]);
        }
        k := i;
      }
    }
  }

  /** The state during construction: inputs before `i` have their first record queued. */
  ghost predicate Starting(dict: Dictionary, sources: seq<seq<Feature>>, remaining: seq<seq<Feature>>,
                           queue: seq<Entry>, i: nat) {
    && i <= |sources| == |remaining|
    && (forall s | 0 <= s < |sources| :: forall f | f in sources[s] :: KnownFeature(dict, f))
    && (forall e | e in queue :: e.source < i && KnownFeature(dict, e.feature))
    && (forall s | 0 <= s < i :: From(queue, s) == (if sources[s] == [] then [] else [sources[s][0]]))
    && (forall s | 0 <= s < i :: remaining[s] == (if sources[s] == [] then [] else sources[s][1..]))
    && (forall s | i <= s < |sources| :: From(queue, s) == [] && remaining[s] == sources[s])
  }

  /** Adding the first record of input `i` to the queue, during construction. */
  lemma StartStep(dict: Dictionary, queue: seq<Entry>, remaining: seq<seq<Feature>>, sources: seq<seq<Feature>>, i: nat)
    requires Starting(dict, sources, remaining, queue, i) && i < |sources|
    ensures Starting(dict, sources, Consume(remaining, i), queue + Refill(remaining, i), i + 1)
  {
    var q', rem' := queue + Refill(remaining, i), Consume(remaining, i);
    forall s | 0 <= s < |sources|
      ensures s <= i ==> && From(q', s) == (if sources[s] == [] then [] else [sources[s][0]])
                         && rem'[s] == (if sources[s] == [] then [] else sources[s][1..])
      ensures i < s ==> From(q', s) == [] && rem'[s] == sources[s]
    {
      StartStepAt(dict, queue, remaining, sources, i, s);
    }
    forall e | e in q' ensures e.source < i + 1 && KnownFeature(dict, e.feature) {
      if e !in queue {
        assert sources[i][0] in sources[i];
      }
    }
  }

  /** `StartStep` for one input `s`. */
  lemma StartStepAt(dict: Dictionary, queue: seq<Entry>, remaining: seq<seq<Feature>>, sources: seq<seq<Feature>>,
                    i: nat, s: nat)
    requires Starting(dict, sources, remaining, queue, i) && i < |sources| && s < |sources|
    ensures var q', rem' := queue + Refill(remaining, i), Consume(remaining, i);
            && (s <= i ==> && From(q', s) == (if sources[s] == [] then [] else [sources[s][0]])
                           && rem'[s] == (if sources[s] == [] then [] else sources[s][1..]))
            && (i < s ==> From(q', s) == [] && rem'[s] == sources[s])
  {
    FromConcat(queue, Refill(remaining, i), s);
    if s == i {
      assert remaining[i] == sources[i] && From(queue, i) == [];
      if sources[i] != [] {
        FromSingle(Entry(sources[i][0], i), s);
      }
    } else {
      FromRefillOther(remaining, i, s);
      ConsumeOther(remaining, i, s);
    }
  }

  /** After one `addEntry` per input, the iterator's state holds with nothing polled. */
  lemma StartState(dict: Dictionary, sources: seq<seq<Feature>>, remaining: seq<seq<Feature>>, queue: seq<Entry>)
    requires Starting(dict, sources, remaining, queue, |sources|)
    ensures IterState(dict, sources, remaining, queue, [], false)
  {
    forall s | 0 <= s < |sources| ensures sources[s] == From([], s) + From(queue, s) + remaining[s] {
      assert From([], s) == [];
      if sources[s] != [] {
        assert sources[s] == [sources[s][0]] + sources[s][1..];
      }
    }
    assert Records([]) == [];
  }

  class MergingIterator {
    const dictionary: Dictionary
    /** The header of each input (`PQContext.getHeader`). */
    const headers: seq<Header>
    /** The records of each input, in the order its iterator yields them. */
    ghost const sources: seq<seq<Feature>>
    /** What each input's iterator has not yet yielded. */
    var remaining: seq<seq<Feature>>
    /** The priority queue, as the sequence of its entries (its heap order is not modelled). */
    var queue: seq<Entry>
    /** Every entry polled so far, in order. */
    ghost var taken: seq<Entry>
    /** Whether `next` has caught an input out of order. */
    ghost var failed: bool

    ghost predicate Valid()
      reads this
    {
      |headers| == |sources| && IterState(dictionary, sources, remaining, queue, taken, failed)
    }

    /** The constructor: one `addEntry` per input, in turn. */
    constructor(dict: Dictionary, sources: seq<seq<Feature>>, headers: seq<Header>)
      requires |headers| == |sources|
      requires forall s | 0 <= s < |sources| :: forall f | f in sources[s] :: KnownFeature(dict, f)
      ensures Valid() && !failed && taken == []
      ensures this.sources == sources && this.headers == headers && dictionary == dict
      ensures forall s | 0 <= s < |sources| :: From(queue, s) == if sources[s] == [] then [] else [sources[s][0]]
    {
      dictionary := dict;
      this.headers := headers;
      this.sources := sources;
      remaining := sources;
      queue := [];
      taken := [];
      failed := false;
      new;
      for i := 0 to |sources|
        invariant dictionary == dict && this.sources == sources && this.headers == headers
        invariant taken == [] && !failed
        invariant Starting(dict, sources, remaining, queue, i)
      {
        StartStep(dict, queue, remaining, sources, i);
        var _ := AddEntry(i);
      }
      StartState(dict, sources, remaining, queue);
    }

    /** `addEntry`: move the next record of input `s`, if any, into the queue. */
    method AddEntry(s: nat) returns (e: Option<Entry>)
      requires s < |remaining|
      modifies this
      ensures e == if old(remaining)[s] == [] then None else Some(Entry(old(remaining)[s][0], s))
      ensures queue == old(queue) + Refill(old(remaining), s)
      ensures remaining == Consume(old(remaining), s)
      ensures taken == old(taken) && failed == old(failed)
    {
      if remaining[s] == [] {
        return None;
      }
      var entry := Entry(remaining[s][0], s);
      remaining := remaining[s := remaining[s][1..]];
      queue := queue + [entry];
      return Some(entry);
    }

    /** `hasNext`: something is still queued; when nothing is, every input has been read through. */
    method HasNext() returns (b: bool)
      requires Valid()
      ensures b <==> queue != []
      ensures !b && !failed ==>
        && (forall s | 0 <= s < |sources| :: From(taken, s) == sources[s])
        && NonDecreasing(dictionary, Records(taken))
        && AllSorted(dictionary, sources)
    {
      b := queue != [];
      if !b && !failed {
        Exhausted(dictionary, sources, remaining, taken);
      }
    }

    /**
     * `next`: poll an earliest entry, refill from its input, and return it,
     * unless the refill sorts before it. Each entry returned is at or after
     * every entry returned before, and the check fails only on an input that is
     * really out of order.
     */
    method Next() returns (r: Result<Entry>, ghost k: nat)
      requires Valid()
      modifies this
      ensures Valid()
      ensures old(queue) == [] ==>
        r == Err(IteratorExhausted) && queue == old(queue) && remaining == old(remaining) &&
        taken == old(taken) && failed == old(failed)
      ensures old(queue) != [] ==>
        k < |old(queue)| &&
        var polled := old(queue)[k];
        && (forall e | e in old(queue) :: CompareEntries(dictionary, polled, e) <= 0)
        && queue == Without(old(queue), k) + Refill(old(remaining), polled.source)
        && remaining == Consume(old(remaining), polled.source)
        && taken == old(taken) + [polled]
        && (r.Ok? || r.error.InputsNotSorted?)
        && (r.Ok? ==> r.value == polled && failed == old(failed))
      ensures r.Err? && r.error.InputsNotSorted? ==> failed && !AllSorted(dictionary, sources)
    {
      k := 0;
      if queue == [] {
        return Err(IteratorExhausted), k;
      }
      ghost var q0, r0, t0, f0 := queue, remaining, taken, failed;
      var idx := PollEarliest(dictionary, queue);
      k := idx;
      var entry := queue[idx];
      queue := Without(queue, idx);
      taken := taken + [entry];
      var newEntry := AddEntry(entry.source);
      var outOfOrder := newEntry.Some? && CompareEntries(dictionary, newEntry.value, entry) < 0;
      if outOfOrder {
        failed := true;
      }
      NextKeepsState(dictionary, sources, r0, q0, t0, f0, idx, remaining, queue, taken, failed);
      if outOfOrder {
        var f := newEntry.value.feature;
        return Err(InputsNotSorted(f.contig, f.Start())), k;
      }
      return Ok(entry), k;
    }
  }

  /** The number of records the inputs have not yet yielded. */
  function Pending(remaining: seq<seq<Feature>>): nat
  {
    if remaining == [] then 0 else Pending(remaining[..|remaining| - 1]) + |remaining[|remaining| - 1]|
  }

  lemma {:induction false} PendingUpdate(remaining: seq<seq<Feature>>, s: nat, x: seq<Feature>)
    requires s < |remaining|
    ensures Pending(remaining[s := x]) + |remaining[s]| == Pending(remaining) + |x|
    decreases |remaining|
  {
    var n := |remaining| - 1;
    assert remaining[s := x][..n] == if s == n then remaining[..n] else remaining[..n][s := x];
    if s < n {
      PendingUpdate(remaining[..n], s, x);
    }
  }

  /** Reading one record from input `s` moves it from the inputs to the queue. */
  lemma PendingConsume(remaining: seq<seq<Feature>>, s: nat)
    requires s < |remaining|
    ensures Pending(Consume(remaining, s)) + |Refill(remaining, s)| == Pending(remaining)
  {
    if remaining[s] != [] {
      PendingUpdate(remaining, s, remaining[s][1..]);
    }
  }

  /**
   * `traverse`, with the tool's `apply` left to the caller: merge the inputs
   * into one stream. It fails exactly when some input is out of order; otherwise
   * the stream is in locus order and holds every record of every input, each
   * input's records in their own order.
   */
  method Traverse(dict: Dictionary, sources: seq<seq<Feature>>, headers: seq<Header>)
    returns (out: seq<Entry>, r: Outcome)
    requires |headers| == |sources|
    requires forall s | 0 <= s < |sources| :: forall f | f in sources[s] :: KnownFeature(dict, f)
    ensures r.Pass? <==> AllSorted(dict, sources)
    ensures r.Fail? ==> r.error.InputsNotSorted?
    ensures r.Pass? ==>
      && NonDecreasing(dict, Records(out))
      && forall s | 0 <= s < |sources| :: From(out, s) == sources[s]
  {
    var it := new MergingIterator(dict, sources, headers);
    out := [];
    while true
      invariant it.Valid() && it.dictionary == dict && it.sources == sources
      invariant out == it.taken && !it.failed
      decreases Pending(it.remaining) + |it.queue|
    {
      var more := it.HasNext();
      if !more {
        return out, Pass;
      }
      ghost var rem0, q0 := it.remaining, it.queue;
      var e;
      ghost var k;
      e, k := it.Next();
      if e.Err? {
        return out, Fail(e.error);
      }
      PendingConsume(rem0, q0[k].source);
      out := out + [e.value];
    }
  }
}
