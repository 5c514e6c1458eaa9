/**
 * Loci and their order. `IntervalUtils.compareLocatables` is not part of this
 * model; it is taken to be what its callers rely on: lexicographic on the
 * contig's position in the sequence dictionary, then start, then end, each
 * compared as `Integer.compare` does.
 */
module Loci {
  import opened Dictionaries

  datatype Locus = Locus(contig: string, start: int, end: int)

  /** The contig of `l` is in the dictionary, so that `l` can be compared at all. */
  predicate Known(dict: Dictionary, l: Locus) {
    l.contig in dict
  }

  /** `Integer.compare(x, 0)`. */
  function Sign(x: int): int {
    if x < 0 then -1 else if x > 0 then 1 else 0
  }

  function CompareLocatables(dict: Dictionary, a: Locus, b: Locus): (r: int)
    requires Known(dict, a) && Known(dict, b)
    ensures -1 <= r <= 1
  {
    var ia, ib := IndexOf(dict, a.contig), IndexOf(dict, b.contig);
    if ia != ib then Sign(ia - ib)
    else if a.start != b.start then Sign(a.start - b.start)
    else Sign(a.end - b.end)
  }

  /** Two loci compare equal exactly when they are the same locus. */
  lemma CompareLocatablesZero(dict: Dictionary, a: Locus, b: Locus)
    requires Known(dict, a) && Known(dict, b)
    ensures CompareLocatables(dict, a, b) == 0 <==> a == b
  {
  }

  lemma CompareLocatablesAntisymmetric(dict: Dictionary, a: Locus, b: Locus)
    requires Known(dict, a) && Known(dict, b)
    ensures CompareLocatables(dict, a, b) == -CompareLocatables(dict, b, a)
  {
  }

  lemma CompareLocatablesTransitive(dict: Dictionary, a: Locus, b: Locus, c: Locus)
    requires Known(dict, a) && Known(dict, b) && Known(dict, c)
    ensures CompareLocatables(dict, a, b) <= 0 && CompareLocatables(dict, b, c) <= 0 ==>
              CompareLocatables(dict, a, c) <= 0
    ensures CompareLocatables(dict, a, b) <= 0 && CompareLocatables(dict, b, c) < 0 ==>
              CompareLocatables(dict, a, c) < 0
    ensures CompareLocatables(dict, a, b) < 0 && CompareLocatables(dict, b, c) <= 0 ==>
              CompareLocatables(dict, a, c) < 0
  {
  }
}
