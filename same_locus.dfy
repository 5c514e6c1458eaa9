/**
 * The reject-on-duplicate resolution of a same-locus group, shared by
 * `BafEvidence`, `SplitReadEvidence` and the BAF, split-read and locus-depth
 * sort mergers: drain the group's priority queue in same-locus-key order,
 * writing each record unchanged, and fail on two successive records whose keys
 * compare equal.
 */
module SameLocus {
  import opened Wrappers
  import opened Features
  import opened Sinks
  import StringOrder

  /** `q` without its element at position `k`. */
  function Without<T>(q: seq<T>, k: nat): (r: seq<T>)
    requires k < |q|
    ensures multiset(q) == multiset(r) + multiset{q[k]}
    ensures |r| == |q| - 1
  {
    assert q == q[..k] + [q[k]] + q[k + 1..];
    q[..k] + q[k + 1..]
  }

  /**
   * The choice `PriorityQueue.poll` makes under the same-locus comparator: the
   * position of some least element. Which of several equal elements is chosen
   * is not specified.
   */
  method PollMinimal(queue: seq<Feature>) returns (k: nat)
    requires queue != []
    ensures k < |queue|
    ensures forall f | f in queue :: SameLocusCompare(queue[k], f) <= 0
  {
    k := 0;
    for i := 1 to |queue|
      invariant k < |queue|
      invariant forall j | 0 <= j < i :: SameLocusCompare(queue[k], queue[j]) <= 0
    {
      SameLocusCompareAntisymmetric(queue[i], queue[k]);
      if SameLocusCompare(queue[i], queue[k]) < 0 {
        forall j | 0 <= j < i ensures SameLocusCompare(queue[i], queue[j]) <= 0 {
          SameLocusCompareTransitive(queue[i], queue[k], queue[j]);
        }
        k := i;
      }
    }
  }

  /** Same-locus keys strictly increase along `s`. */
  ghost predicate KeysIncrease(s: seq<Feature>) {
    forall i, j | 0 <= i < j < |s| :: SameLocusCompare(s[i], s[j]) < 0
  }

  /** No two records of `q` share a same-locus key. */
  ghost predicate DistinctKeys(q: seq<Feature>) {
    forall i, j | 0 <= i < j < |q| :: SameLocusCompare(q[i], q[j]) != 0
  }

  /** The error raised for `d`, the second of two records with one key. */
  function DuplicateError(d: Feature): Error {
    match d
    case SplitRead(sample, contig, position, _, strand) => DuplicateEvidence(sample, contig, position, Some(strand))
    case Depth(contig, start, _, _) => DuplicateEvidence("", contig, start, None)
    case _ => DuplicateEvidence(d.sample, d.contig, d.position, None)
  }

  /**
   * What resolving `group` by rejecting duplicates means, with `out` the records
   * written: they come out unchanged, in strictly increasing key order; it passes
   * exactly when all keys are distinct, and then every record is written once.
   * On failure the error names a record `d` that carries the least duplicated
   * key of `group`, and the records written are exactly those whose key is below
   * that of `d`.
   */
  ghost predicate RejectedDuplicates(group: seq<Feature>, out: seq<Feature>, r: Outcome) {
    && KeysIncrease(out)
    && multiset(out) <= multiset(group)
    && (r.Pass? <==> DistinctKeys(group))
    && (r.Pass? ==> multiset(out) == multiset(group))
    && (r.Fail? ==>
          exists d | d in group ::
            && r.error == DuplicateError(d)
            && LeastDuplicate(group, d)
            && (forall x | x in out :: SameLocusCompare(x, d) < 0)
            && (forall x | x in group && SameLocusCompare(x, d) < 0 :: x in out))
  }

  /** Two records at different positions of `q` have the key of `d`. */
  ghost predicate KeyOccursTwice(q: seq<Feature>, d: Feature) {
    exists i, j | 0 <= i < j < |q| :: SameLocusCompare(q[i], d) == 0 && SameLocusCompare(q[j], d) == 0
  }

  /** The key of `d` occurs twice in `q`, and every key of `q` below it occurs once. */
  ghost predicate LeastDuplicate(q: seq<Feature>, d: Feature) {
    && KeyOccursTwice(q, d)
    && forall x | x in q && SameLocusCompare(x, d) < 0 :: !KeyOccursTwice(q, x)
  }

  lemma {:induction false} TwoPositions(s: seq<Feature>, x: Feature) returns (i: nat, j: nat)
    requires multiset(s)[x] >= 2
    ensures i < j < |s| && s[i] == x && s[j] == x
  {
    if s[0] == x {
      assert s == [s[0]] + s[1..];
      assert x in s[1..];
      var k :| 0 <= k < |s[1..]| && s[1..][k] == x;
      i, j := 0, k + 1;
    } else {
      assert s == [s[0]] + s[1..];
      var i', j' := TwoPositions(s[1..], x);
      i, j := i' + 1, j' + 1;
    }
  }

  lemma CountOfTwoPositions(s: seq<Feature>, i: nat, j: nat)
    requires i < j < |s|
    ensures s[i] == s[j] ==> multiset(s)[s[i]] >= 2
  {
    assert s == s[..i] + [s[i]] + s[i + 1..j] + [s[j]] + s[j + 1..];
  }

  /** Two queued records (two copies of one record count twice) with equal keys rule out distinct keys. */
  lemma DuplicatePair(q: seq<Feature>, a: Feature, b: Feature)
    requires multiset{a, b} <= multiset(q)
    requires SameLocusCompare(a, b) == 0
    ensures KeyOccursTwice(q, b)
    ensures !DistinctKeys(q)
  {
    SameLocusCompareAntisymmetric(a, b);
    SameLocusCompareZero(b, b);
    var i :| 0 <= i < |q| && q[i] == a;
    var j: nat;
    if a == b {
      var i', j' := TwoPositions(q, a);
      i, j := i', j';
    } else {
      j :| 0 <= j < |q| && q[j] == b;
    }
    if i < j {
      assert SameLocusCompare(q[i], q[j]) == 0;
      assert SameLocusCompare(q[i], b) == 0 && SameLocusCompare(q[j], b) == 0;
    } else {
      assert SameLocusCompare(q[j], q[i]) == 0;
      assert SameLocusCompare(q[j], b) == 0 && SameLocusCompare(q[i], b) == 0;
    }
  }

  /** A key-increasing arrangement of a group shows the group's keys are distinct. */
  lemma IncreasingArrangementHasDistinctKeys(s: seq<Feature>, q: seq<Feature>)
    requires KeysIncrease(s) && multiset(s) == multiset(q)
    ensures DistinctKeys(q)
  {
    forall i, j | 0 <= i < j < |q| ensures SameLocusCompare(q[i], q[j]) != 0 {
      assert q[i] in multiset(s) && q[j] in multiset(s);
      var k :| 0 <= k < |s| && s[k] == q[i];
      var l :| 0 <= l < |s| && s[l] == q[j];
      if k == l {
        CountOfTwoPositions(q, i, j);
        var k', l' := TwoPositions(s, q[i]);
      } else {
        SameLocusCompareAntisymmetric(s[k], s[l]);
      }
    }
  }

  /** The loop state of the draining loop: `out` written, `last` held back, `rest` queued. */
  ghost predicate DrainState(queue: seq<Feature>, out: seq<Feature>, last: Feature, rest: seq<Feature>) {
    && KeysIncrease(out)
    && (forall x | x in out :: SameLocusCompare(x, last) < 0)
    && (forall y | y in rest :: SameLocusCompare(last, y) <= 0)
    && multiset(out) + multiset{last} + multiset(rest) == multiset(queue)
  }

  /** On a duplicate, the records written are exactly those whose key is below the duplicate's. */
  lemma DrainFailsAtBoundary(queue: seq<Feature>, out: seq<Feature>, last: Feature, rest: seq<Feature>, evidence: Feature)
    requires DrainState(queue, out, last, rest)
    requires evidence in rest && SameLocusCompare(last, evidence) == 0
    requires forall f | f in rest :: SameLocusCompare(evidence, f) <= 0
    ensures forall x | x in out :: SameLocusCompare(x, evidence) < 0
    ensures forall x | x in queue && SameLocusCompare(x, evidence) < 0 :: x in out
  {
    forall x | x in out ensures SameLocusCompare(x, evidence) < 0 {
      SameLocusCompareTransitive(x, last, evidence);
    }
    forall x | x in queue && SameLocusCompare(x, evidence) < 0 ensures x in out {
      SameLocusCompareAntisymmetric(x, evidence);
      SameLocusCompareAntisymmetric(last, evidence);
      if x in rest {
        SameLocusCompareAntisymmetric(evidence, x);
      }
      assert x in multiset(out) + multiset{last} + multiset(rest);
    }
  }

  /**
   * In the drain's state, a key below that of the held-back record occurs at most
   * once in the group: two such records would both have been written, and the
   * written records have strictly increasing keys.
   */
  lemma BelowHeldBackOnce(queue: seq<Feature>, out: seq<Feature>, last: Feature, rest: seq<Feature>, x: Feature)
    requires DrainState(queue, out, last, rest)
    requires SameLocusCompare(x, last) < 0
    ensures !KeyOccursTwice(queue, x)
  {
    forall i, j | 0 <= i < j < |queue| && SameLocusCompare(queue[i], x) == 0
      ensures SameLocusCompare(queue[j], x) != 0
    {
      var y, z := queue[i], queue[j];
      SameLocusCompareTransitive(y, x, last);
      SameLocusCompareTransitive(z, x, last);
      SameLocusCompareZero(y, x);
      SameLocusCompareZero(z, x);
      SameLocusCompareZero(y, z);
      WrittenBelow(queue, out, last, rest, y);
      WrittenBelow(queue, out, last, rest, z);
      IncreasingKeysOnce(out, y, z);
      CountOfTwoPositions(queue, i, j);
    }
  }

  /** A group holding the same BAF record twice, followed by two records of a later sample. */
  function RepeatedRecordGroup(): (g: seq<Feature>)
    ensures |g| == 4 && g[0] == g[1]
  {
    [Baf("a", "chr1", 1, 0.0), Baf("a", "chr1", 1, 0.0), Baf("c", "chr1", 1, 0.0), Baf("c", "chr1", 1, 1.0)]
  }

  /** The drain fails on the repeated record, naming it, before writing anything. */
  lemma RepeatedRecordFailsFirst()
    ensures RejectedDuplicates(RepeatedRecordGroup(), [], Fail(DuplicateError(RepeatedRecordGroup()[0])))
  {
    var g := RepeatedRecordGroup();
    assert StringOrder.CompareStrings("a", "c") < 0;
    forall y | y in g[1..] ensures SameLocusCompare(g[0], y) <= 0 {
      assert y == g[1] || y == g[2] || y == g[3];
    }
    assert g == [g[0]] + g[1..];
    DrainFails(g, [], g[0], g[1..], 0);
  }

  /** Writing the repeated record once and naming the later sample is not a possible outcome. */
  lemma RepeatedRecordNotSkipped()
    ensures !RejectedDuplicates(RepeatedRecordGroup(), [RepeatedRecordGroup()[0]], Fail(DuplicateError(RepeatedRecordGroup()[2])))
  {
    var g := RepeatedRecordGroup();
    assert StringOrder.CompareStrings("a", "c") < 0;
    forall d | d in g && DuplicateError(d) == DuplicateError(g[2]) ensures !LeastDuplicate(g, d) {
      assert d.sample == "c";
      assert SameLocusCompare(g[0], d) < 0;
      assert SameLocusCompare(g[0], g[0]) == 0 && SameLocusCompare(g[1], g[0]) == 0;
      assert KeyOccursTwice(g, g[0]);
    }
  }

  /** In the drain's state, every record of the group with a key below the held-back one has been written. */
  lemma WrittenBelow(queue: seq<Feature>, out: seq<Feature>, last: Feature, rest: seq<Feature>, y: Feature)
    requires DrainState(queue, out, last, rest) && y in queue
    ensures SameLocusCompare(y, last) < 0 ==> y in out && multiset(out)[y] == multiset(queue)[y]
  {
    SameLocusCompareAntisymmetric(y, last);
    SameLocusCompareZero(last, last);
    if y in rest {
      SameLocusCompareAntisymmetric(last, y);
    }
    assert multiset(queue)[y] == multiset(out)[y] + multiset{last}[y] + multiset(rest)[y];
  }

  /** Along strictly increasing keys, two records with one key are one record, written once. */
  lemma IncreasingKeysOnce(s: seq<Feature>, y: Feature, z: Feature)
    requires KeysIncrease(s)
    ensures y in s && z in s && SameLocusCompare(y, z) == 0 ==> y == z && multiset(s)[y] == 1
  {
    if y in s && z in s && SameLocusCompare(y, z) == 0 {
      var p :| 0 <= p < |s| && s[p] == y;
      var q :| 0 <= q < |s| && s[q] == z;
      SameLocusCompareAntisymmetric(y, z);
      assert p == q;
      SameLocusCompareZero(y, y);
      forall i | 0 <= i < |s| && i != p ensures s[i] != s[p] {
        SameLocusCompareAntisymmetric(s[i], s[p]);
      }
      OccursOnlyAt(s, p);
    }
  }

  /** A record found at no position but `p` occurs once. */
  lemma OccursOnlyAt(s: seq<Feature>, p: nat)
    requires p < |s| && forall i | 0 <= i < |s| && i != p :: s[i] != s[p]
    ensures multiset(s)[s[p]] == 1
  {
    assert s == s[..p] + [s[p]] + s[p + 1..];
    assert s[p] !in s[..p] && s[p] !in s[p + 1..];
  }

  /** In the drain's state, a key below that of a duplicate of the held-back record occurs at most once. */
  lemma BelowDuplicateOnce(queue: seq<Feature>, out: seq<Feature>, last: Feature, rest: seq<Feature>, evidence: Feature)
    requires DrainState(queue, out, last, rest) && SameLocusCompare(last, evidence) == 0
    ensures forall x | x in queue && SameLocusCompare(x, evidence) < 0 :: !KeyOccursTwice(queue, x)
  {
    forall x | x in queue && SameLocusCompare(x, evidence) < 0 ensures !KeyOccursTwice(queue, x) {
      SameLocusCompareAntisymmetric(last, evidence);
      SameLocusCompareTransitive(x, evidence, last);
      BelowHeldBackOnce(queue, out, last, rest, x);
    }
  }

  /** A polled record whose key equals the held-back one makes the drain fail as specified. */
  lemma DrainFails(queue: seq<Feature>, out: seq<Feature>, last: Feature, rest: seq<Feature>, k: nat)
    requires DrainState(queue, out, last, rest)
    requires k < |rest| && SameLocusCompare(last, rest[k]) == 0
    requires forall f | f in rest :: SameLocusCompare(rest[k], f) <= 0
    ensures RejectedDuplicates(queue, out, Fail(DuplicateError(rest[k])))
  {
    var evidence := rest[k];
    assert multiset{last, evidence} <= multiset(queue) by {
      assert multiset(rest) == multiset(Without(rest, k)) + multiset{evidence};
    }
    DuplicatePair(queue, last, evidence);
    BelowDuplicateOnce(queue, out, last, rest, evidence);
    assert LeastDuplicate(queue, evidence);
    DrainFailsAtBoundary(queue, out, last, rest, evidence);
    assert multiset(out) <= multiset(queue);
  }

  /** What a failed drain leaves in the queue is part of the group. */
  lemma DrainRemainder(queue: seq<Feature>, out: seq<Feature>, last: Feature, rest: seq<Feature>, k: nat)
    requires DrainState(queue, out, last, rest) && k < |rest|
    ensures multiset(Without(rest, k)) <= multiset(queue)
  {
    assert multiset(rest) <= multiset(queue);
  }

  /** Writing the held-back record and holding back the next least one keeps the loop state. */
  lemma DrainSteps(queue: seq<Feature>, out: seq<Feature>, last: Feature, rest: seq<Feature>, k: nat)
    requires DrainState(queue, out, last, rest)
    requires k < |rest| && SameLocusCompare(last, rest[k]) != 0
    requires forall f | f in rest :: SameLocusCompare(rest[k], f) <= 0
    ensures DrainState(queue, out + [last], rest[k], Without(rest, k))
  {
    var evidence := rest[k];
    forall x | x in out + [last] ensures SameLocusCompare(x, evidence) < 0 {
      if x in out {
        SameLocusCompareTransitive(x, last, evidence);
      }
    }
    forall y | y in Without(rest, k) ensures SameLocusCompare(evidence, y) <= 0 {
      assert y in multiset(rest);
    }
  }

  /** Polling a least record from a nonempty group starts the loop state. */
  lemma DrainStarts(queue: seq<Feature>, k: nat)
    requires k < |queue|
    requires forall f | f in queue :: SameLocusCompare(queue[k], f) <= 0
    ensures DrainState(queue, [], queue[k], Without(queue, k))
  {
    forall y | y in Without(queue, k) ensures SameLocusCompare(queue[k], y) <= 0 {
      assert y in multiset(queue);
    }
  }

  /** Once the queue is empty, writing the held-back record completes a passing drain. */
  lemma DrainPasses(queue: seq<Feature>, out: seq<Feature>, last: Feature)
    requires DrainState(queue, out, last, [])
    ensures RejectedDuplicates(queue, out + [last], Pass)
  {
    IncreasingArrangementHasDistinctKeys(out + [last], queue);
  }

  /** What a drain has written, seen from where it started. */
  lemma WrittenSince(before: seq<Feature>, out: seq<Feature>)
    ensures before <= before + out && (before + out)[|before|..] == out
  {
  }

  /** Appending to a sink's output, seen from where the drain started. */
  lemma AppendOne(before: seq<Feature>, out: seq<Feature>, x: Feature)
    ensures (before + out) + [x] == before + (out + [x])
  {
  }

  /**
   * The draining loop of `resolveSameLocusFeatures` over a reject-on-duplicate
   * queue: poll a least record, and for each further least record either fail
   * (equal key) or write the previous one. `rest` is what is left in the queue.
   */
  method DrainRejectingDuplicates(queue: seq<Feature>, sink: Sink) returns (r: Outcome, rest: seq<Feature>)
    requires !sink.closed
    modifies sink
    ensures !sink.closed && old(sink.written) <= sink.written
    ensures RejectedDuplicates(queue, sink.written[|old(sink.written)|..], r)
    ensures r.Pass? ==> rest == []
    ensures multiset(rest) <= multiset(queue)
  {
    ghost var before := sink.written;
    WrittenSince(before, []);
    if queue == [] {
      return Pass, [];
    }
    var k := PollMinimal(queue);
    var lastEvidence := queue[k];
    rest := Without(queue, k);
    DrainStarts(queue, k);
    ghost var out: seq<Feature> := [];
    assert before + out == before;
    while rest != []
      invariant !sink.closed && sink.written == before + out
      invariant DrainState(queue, out, lastEvidence, rest)
      decreases |rest|
    {
      k := PollMinimal(rest);
      var evidence := rest[k];
      if SameLocusCompare(lastEvidence, evidence) == 0 {
        WrittenSince(before, out);
        DrainFails(queue, out, lastEvidence, rest, k);
        DrainRemainder(queue, out, lastEvidence, rest, k);
        return Fail(DuplicateError(evidence)), Without(rest, k);
      }
      DrainSteps(queue, out, lastEvidence, rest, k);
      sink.Write(lastEvidence);
      AppendOne(before, out, lastEvidence);
      out := out + [lastEvidence];
      lastEvidence, rest := evidence, Without(rest, k);
    }
    DrainPasses(queue, out, lastEvidence);
    sink.Write(lastEvidence);
    AppendOne(before, out, lastEvidence);
    WrittenSince(before, out + [lastEvidence]);
    return Pass, [];
  }
}
