/**
 * The union of the per-sample count vectors of depth evidence at one locus.
 * Every vector has one slot per sample; `MISSING_DATA` marks a sample the record
 * has no count for. The union keeps, slot by slot, the one count supplied, and
 * is undefined when two vectors supply the same slot or the widths differ.
 */
module CountUnion {
  import opened Wrappers
  import opened Loci

  /** The marker of a missing count. */
  const MISSING_DATA: int := -1

  /** Every vector of `g` has `n` slots. */
  ghost predicate SameWidth(g: seq<seq<int>>, n: nat) {
    forall c | c in g :: |c| == n
  }

  /** Vector `c` has a count in slot `i`. */
  predicate Supplies(c: seq<int>, i: nat) {
    i < |c| && c[i] != MISSING_DATA
  }

  /** How many vectors of `g` supply a count for slot `i`. */
  function Suppliers(g: seq<seq<int>>, i: nat): (r: nat)
    ensures r <= |g|
  {
    if g == [] then 0
    else (if Supplies(g[0], i) then 1 else 0) + Suppliers(g[1..], i)
  }

  /** The count the first supplier of slot `i` gives, or `MISSING_DATA` if none does. */
  function SlotValue(g: seq<seq<int>>, i: nat): int
  {
    if g == [] then MISSING_DATA
    else if Supplies(g[0], i) then g[0][i]
    else SlotValue(g[1..], i)
  }

  /** The union is defined: one width throughout, and no slot supplied twice. */
  ghost predicate Mergeable(g: seq<seq<int>>) {
    g != [] ==> SameWidth(g, |g[0]|) && forall i | 0 <= i < |g[0]| :: Suppliers(g, i) <= 1
  }

  /** The union of a group of vectors of one width. */
  function Merged(g: seq<seq<int>>): (r: seq<int>)
    requires g != [] && SameWidth(g, |g[0]|)
    ensures |r| == |g[0]|
  {
    seq(|g[0]|, i requires 0 <= i < |g[0]| => SlotValue(g, i))
  }

  lemma {:induction false} SuppliersAppend(a: seq<seq<int>>, b: seq<seq<int>>, i: nat)
    ensures Suppliers(a + b, i) == Suppliers(a, i) + Suppliers(b, i)
  {
    if a != [] {
      assert (a + b)[1..] == a[1..] + b;
      SuppliersAppend(a[1..], b, i);
    } else {
      assert a + b == b;
    }
  }

  lemma {:induction false} SlotValueMissing(g: seq<seq<int>>, i: nat)
    ensures SlotValue(g, i) == MISSING_DATA <==> Suppliers(g, i) == 0
  {
    if g != [] {
      SlotValueMissing(g[1..], i);
    }
  }

  /** A vector with a count in slot `i` is counted among its suppliers. */
  lemma {:induction false} SupplierCounted(g: seq<seq<int>>, i: nat, c: seq<int>)
    requires c in g && Supplies(c, i)
    ensures Suppliers(g, i) >= 1
  {
    if g[0] != c {
      assert c in g[1..];
      SupplierCounted(g[1..], i, c);
    }
  }

  /** With at most one supplier, the slot holds the count of whichever vector supplies it. */
  lemma {:induction false} SlotValueOfSupplier(g: seq<seq<int>>, i: nat, c: seq<int>)
    requires c in g && Supplies(c, i) && Suppliers(g, i) <= 1
    ensures SlotValue(g, i) == c[i]
  {
    if g[0] != c {
      assert c in g[1..];
      SupplierCounted(g[1..], i, c);
      SlotValueOfSupplier(g[1..], i, c);
    }
  }

  /** Adding a vector at the end: a slot it supplies is filled only if still missing. */
  lemma {:induction false} SlotValueAppend(g: seq<seq<int>>, t: seq<int>, i: nat)
    requires i < |t|
    ensures SlotValue(g + [t], i) == if SlotValue(g, i) != MISSING_DATA then SlotValue(g, i) else t[i]
  {
    if g == [] {
      assert g + [t] == [t];
    } else {
      assert (g + [t])[1..] == g[1..] + [t];
      SlotValueAppend(g[1..], t, i);
    }
  }

  /** The union of a single vector is that vector. */
  lemma MergedSingle(c: seq<int>)
    ensures Mergeable([c]) && Merged([c]) == c
  {
    forall i | 0 <= i < |c| ensures Suppliers([c], i) <= 1 && SlotValue([c], i) == c[i] {
      assert [c][1..] == [];
    }
  }

  /** Two vectors of a group that both supply slot `i` make the union undefined. */
  lemma ConflictNotMergeable(g: seq<seq<int>>, j: nat, k: nat, i: nat)
    requires j < k < |g| && Supplies(g[j], i) && Supplies(g[k], i)
    ensures !Mergeable(g)
  {
    if SameWidth(g, |g[0]|) {
      assert g == g[..k] + g[k..];
      assert g[j] in g[..k] && g[k] in g[k..];
      SuppliersAppend(g[..k], g[k..], i);
      SupplierCounted(g[..k], i, g[j]);
      SupplierCounted(g[k..], i, g[k]);
    }
  }

  /** Taking one vector out of a group takes its contribution out of the count. */
  lemma SuppliersRemove(g: seq<seq<int>>, k: nat, i: nat)
    requires k < |g|
    ensures Suppliers(g, i) == Suppliers(g[..k] + g[k + 1..], i) + (if Supplies(g[k], i) then 1 else 0)
  {
    assert g == g[..k] + [g[k]] + g[k + 1..];
    SuppliersAppend(g[..k] + [g[k]], g[k + 1..], i);
    SuppliersAppend(g[..k], [g[k]], i);
    SuppliersAppend(g[..k], g[k + 1..], i);
    assert [g[k]][1..] == [];
  }

  /** The count of suppliers does not depend on the order of the group. */
  lemma {:induction false} SuppliersPermutation(g1: seq<seq<int>>, g2: seq<seq<int>>, i: nat)
    requires multiset(g1) == multiset(g2)
    ensures Suppliers(g1, i) == Suppliers(g2, i)
    decreases |g1|
  {
    if g1 != [] {
      var x := g1[0];
      assert x in multiset(g2);
      var k :| 0 <= k < |g2| && g2[k] == x;
      var rest2 := g2[..k] + g2[k + 1..];
      assert g1 == [x] + g1[1..];
      RemoveOne(g2, k);
      calc {
        multiset(g1[1..]);
        multiset(g1) - multiset{x};
        multiset(g2) - multiset{g2[k]};
        multiset(rest2);
      }
      SuppliersPermutation(g1[1..], rest2, i);
      SuppliersRemove(g2, k, i);
    } else {
      assert |g2| == |multiset(g2)| == 0;
    }
  }

  lemma RemoveOne(g: seq<seq<int>>, k: nat)
    requires k < |g|
    ensures multiset(g[..k] + g[k + 1..]) == multiset(g) - multiset{g[k]}
  {
    assert g == g[..k] + [g[k]] + g[k + 1..];
  }

  /**
   * The union does not depend on the order in which the vectors arrive: any
   * rearrangement of a group is mergeable exactly when the group is, and then
   * has the same union.
   */
  lemma MergedPermutation(g1: seq<seq<int>>, g2: seq<seq<int>>)
    requires multiset(g1) == multiset(g2)
    ensures Mergeable(g1) <==> Mergeable(g2)
    ensures g1 != [] && Mergeable(g1) ==> g2 != [] && Merged(g1) == Merged(g2)
  {
    assert forall c :: c in g1 <==> c in g2 by {
      forall c ensures c in g1 <==> c in g2 {
        assert c in g1 <==> c in multiset(g1);
        assert c in g2 <==> c in multiset(g2);
      }
    }
    if g1 != [] {
      assert g1[0] in g2 && g2[0] in g1;
      if SameWidth(g1, |g1[0]|) {
        assert SameWidth(g2, |g2[0]|);
        var n := |g1[0]|;
        forall i | 0 <= i < n ensures Suppliers(g1, i) == Suppliers(g2, i) {
          SuppliersPermutation(g1, g2, i);
        }
        if Mergeable(g1) {
          forall i | 0 <= i < n ensures SlotValue(g1, i) == SlotValue(g2, i) {
            SlotValueMissing(g1, i);
            SlotValueMissing(g2, i);
            if Suppliers(g1, i) == 1 {
              var c := SupplierOf(g1, i);
              SlotValueOfSupplier(g1, i, c);
              SlotValueOfSupplier(g2, i, c);
            }
          }
        }
      } else {
        assert !SameWidth(g2, |g2[0]|);
      }
    }
  }

  /** Some vector supplies a slot with a supplier. */
  lemma {:induction false} SupplierOf(g: seq<seq<int>>, i: nat) returns (c: seq<int>)
    requires Suppliers(g, i) >= 1
    ensures c in g && Supplies(c, i)
  {
    if Supplies(g[0], i) {
      c := g[0];
    } else {
      c := SupplierOf(g[1..], i);
    }
  }

  /** Dropping vectors from the end keeps a group mergeable. */
  lemma MergeablePrefix(a: seq<seq<int>>, b: seq<seq<int>>)
    requires Mergeable(a + b)
    ensures Mergeable(a)
  {
    if a != [] {
      assert (a + b)[0] == a[0];
      forall i | 0 <= i < |a[0]| ensures Suppliers(a, i) <= 1 {
        SuppliersAppend(a, b, i);
      }
    }
  }

  /**
   * The inner loop of depth-evidence resolution: fold the counts `tmp` of one
   * more same-locus record into `acc`, which holds the union of the counts seen
   * so far. It fails when the widths differ, and otherwise on the first slot
   * both supply, naming that slot as a 1-based sample number and the locus
   * (`contig`, `start`, `end`) of the first record.
   */
  method MergeInto(acc: array<int>, tmp: seq<int>, ghost seen: seq<seq<int>>, contig: string, start: int, end: int)
    returns (r: Outcome)
    requires seen != [] && Mergeable(seen) && acc[..] == Merged(seen)
    modifies acc
    ensures r.Pass? <==> Mergeable(seen + [tmp])
    ensures r.Pass? ==> acc[..] == Merged(seen + [tmp])
    ensures r == Fail(SampleListMismatch) <==> |tmp| != acc.Length
    ensures r.Fail? ==> r.error == SampleListMismatch || r.error.MultipleSources?
    ensures r.Fail? && r.error.MultipleSources? ==>
      var n := r.error.sampleNumber;
      && r == Fail(MultipleSources(n, contig, start, end))
      && 1 <= n <= acc.Length == |tmp|
      && SlotValue(seen, n - 1) != MISSING_DATA && tmp[n - 1] != MISSING_DATA
      && (forall j | 0 <= j < n - 1 :: Suppliers(seen + [tmp], j) <= 1)
  {
    if acc.Length != |tmp| {
      return Fail(SampleListMismatch);
    }
    ghost var g := seen + [tmp];
    assert g[0] == seen[0];
    assert SameWidth(g, acc.Length);
    for idx := 0 to acc.Length
      invariant forall j | 0 <= j < idx :: Suppliers(g, j) <= 1 && acc[j] == SlotValue(g, j)
      invariant forall j | idx <= j < acc.Length :: acc[j] == SlotValue(seen, j)
    {
      SuppliersAppend(seen, [tmp], idx);
      assert [tmp][1..] == [];
      SlotValueAppend(seen, tmp, idx);
      SlotValueMissing(seen, idx);
      var count := tmp[idx];
      if count != MISSING_DATA {
        if acc[idx] == MISSING_DATA {
          acc[idx] := count;
        } else {
          return Fail(MultipleSources(idx + 1, contig, start, end));
        }
      }
    }
    assert acc[..] == Merged(g);
    return Pass;
  }
}
