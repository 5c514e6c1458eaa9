/**
 * The SV evidence records (the implementations of `SVFeature`), the headers of
 * their sources, and the secondary key by which same-locus records are ordered.
 */
module Features {
  import opened Wrappers
  import opened Dictionaries
  import opened Loci
  import opened StringOrder

  /**
   * One evidence record. The BAF `value` is a Java double that no modelled code
   * inspects; it is carried as an opaque payload. `LocusDepth` stands for a record
   * with a sample and a position whose other fields are opaque here.
   */
  datatype Feature =
    | Baf(sample: string, contig: string, position: int, value: real)
    | SplitRead(sample: string, contig: string, position: int, count: int, strand: bool)
    | LocusDepth(sample: string, contig: string, position: int, depths: seq<int>)
    | Depth(contig: string, start: int, end: int, counts: seq<int>)
  {
    /** `getStart`: point evidence starts and ends at its position. */
    function Start(): int {
      if Depth? then start else position
    }

    function End(): int {
      if Depth? then end else position
    }

    function Loc(): Locus {
      Locus(contig, Start(), End())
    }
  }

  type BafRecord = f: Feature | f.Baf? witness Baf("", "", 0, 0.0)
  type SplitReadRecord = f: Feature | f.SplitRead? witness SplitRead("", "", 0, 0, false)
  type LocusDepthRecord = f: Feature | f.LocusDepth? witness LocusDepth("", "", 0, [])
  type DepthRecord = f: Feature | f.Depth? witness Depth("", 0, 0, [])

  /** The kind of record an output codec writes (its feature type). */
  datatype Kind = BafKind | SplitReadKind | LocusDepthKind | DepthKind

  predicate OfKind(f: Feature, kind: Kind) {
    match kind
    case BafKind => f.Baf?
    case SplitReadKind => f.SplitRead?
    case LocusDepthKind => f.LocusDepth?
    case DepthKind => f.Depth?
  }

  /**
   * The header object of a feature source: an `SVFeaturesHeader` (whose sample
   * list may be null), a `VCFHeader`, or anything else (including none at all).
   */
  datatype Header =
    | SVFeaturesHeader(dictionary: Option<Dictionary>, sampleNames: Option<seq<string>>)
    | VcfHeader(dictionary: Option<Dictionary>, samplesInOrder: seq<string>)
    | OtherHeader

  /** `SVFeaturesHeader.getSampleIndex`: the position of `name` in the sample list, if any. */
  function SampleIndex(sampleNames: Option<seq<string>>, name: string): (r: Option<nat>)
    ensures r.Some? ==> sampleNames.Some? && r.value < |sampleNames.value| && sampleNames.value[r.value] == name
    ensures r.None? <==> sampleNames.None? || name !in sampleNames.value
  {
    if sampleNames.None? then None
    else
      var i := IndexOf(sampleNames.value, name);
      if i < 0 then None else Some(i)
  }

  /** The sample part of the same-locus key (depth evidence has none). */
  function KeySample(f: Feature): string {
    if f.Depth? then "" else f.sample
  }

  /** The strand part of the same-locus key (only split reads have one). */
  function KeyStrand(f: Feature): bool {
    f.SplitRead? && f.strand
  }

  /** The strand comparator of split reads: `false` sorts before `true`. */
  function CompareStrands(a: bool, b: bool): int {
    if a == b then 0 else if a then 1 else -1
  }

  /**
   * The same-locus comparator: by sample name, then by strand. On two records of
   * one kind it is the comparator of that kind (sample only for BAF and locus-depth
   * evidence, sample then strand for split reads, constant for depth evidence).
   */
  function SameLocusCompare(a: Feature, b: Feature): (r: int)
    ensures -1 <= r <= 1
  {
    var c := CompareStrings(KeySample(a), KeySample(b));
    if c != 0 then c else CompareStrands(KeyStrand(a), KeyStrand(b))
  }

  lemma SameLocusCompareZero(a: Feature, b: Feature)
    ensures SameLocusCompare(a, b) == 0 <==> KeySample(a) == KeySample(b) && KeyStrand(a) == KeyStrand(b)
  {
  }

  lemma SameLocusCompareAntisymmetric(a: Feature, b: Feature)
    ensures SameLocusCompare(a, b) == -SameLocusCompare(b, a)
  {
    CompareStringsAntisymmetric(KeySample(a), KeySample(b));
  }

  lemma SameLocusCompareTransitive(a: Feature, b: Feature, c: Feature)
    ensures SameLocusCompare(a, b) <= 0 && SameLocusCompare(b, c) <= 0 ==> SameLocusCompare(a, c) <= 0
    ensures SameLocusCompare(a, b) <= 0 && SameLocusCompare(b, c) < 0 ==> SameLocusCompare(a, c) < 0
    ensures SameLocusCompare(a, b) < 0 && SameLocusCompare(b, c) <= 0 ==> SameLocusCompare(a, c) < 0
  {
    var sa, sb, sc := KeySample(a), KeySample(b), KeySample(c);
    CompareStringsAntisymmetric(sa, sb);
    CompareStringsAntisymmetric(sb, sc);
    CompareStringsAntisymmetric(sa, sc);
    if CompareStrings(sa, sb) < 0 && CompareStrings(sb, sc) < 0 {
      CompareStringsTransitive(sa, sb, sc);
    }
  }

  /** Every contig a record mentions is in the dictionary. */
  predicate KnownFeature(dict: Dictionary, f: Feature) {
    Known(dict, f.Loc())
  }

  /** The locus order of two records (`compareLocatables` on records). */
  function CompareLoci(dict: Dictionary, a: Feature, b: Feature): int
    requires KnownFeature(dict, a) && KnownFeature(dict, b)
  {
    CompareLocatables(dict, a.Loc(), b.Loc())
  }

  /**
   * The order of a merged, resolved output stream: `a` is at an earlier locus
   * than `b`, or at the same locus with a smaller same-locus key.
   */
  predicate Precedes(dict: Dictionary, a: Feature, b: Feature)
    requires KnownFeature(dict, a) && KnownFeature(dict, b)
  {
    var c := CompareLoci(dict, a, b);
    c < 0 || (c == 0 && SameLocusCompare(a, b) < 0)
  }

  /** Strictly increasing in `Precedes`: in particular no two records share locus and key. */
  ghost predicate StrictlyOrdered(dict: Dictionary, s: seq<Feature>) {
    && (forall f | f in s :: KnownFeature(dict, f))
    && (forall i, j | 0 <= i < j < |s| :: Precedes(dict, s[i], s[j]))
  }

  lemma PrecedesAsymmetric(dict: Dictionary, a: Feature, b: Feature)
    requires KnownFeature(dict, a) && KnownFeature(dict, b)
    ensures !(Precedes(dict, a, b) && Precedes(dict, b, a))
  {
    CompareLocatablesAntisymmetric(dict, a.Loc(), b.Loc());
    SameLocusCompareAntisymmetric(a, b);
  }

  lemma MultisetTail(s: seq<Feature>)
    requires s != []
    ensures multiset(s[1..]) == multiset(s) - multiset{s[0]}
  {
    assert s == [s[0]] + s[1..];
  }

  lemma TailStrictlyOrdered(dict: Dictionary, s: seq<Feature>)
    requires s != [] && StrictlyOrdered(dict, s)
    ensures StrictlyOrdered(dict, s[1..])
  {
    forall i, j | 0 <= i < j < |s[1..]| ensures Precedes(dict, s[1..][i], s[1..][j]) {
      assert s[1..][i] == s[i + 1] && s[1..][j] == s[j + 1];
    }
  }

  /**
   * An ordered stream is determined by its records: two strictly ordered
   * arrangements of the same records are the same sequence. So an output that
   * is strictly ordered and holds exactly the records received is the one
   * sorted arrangement of them.
   */
  lemma {:induction false} StrictlyOrderedUnique(dict: Dictionary, s: seq<Feature>, t: seq<Feature>)
    requires StrictlyOrdered(dict, s) && StrictlyOrdered(dict, t)
    requires multiset(s) == multiset(t)
    ensures s == t
    decreases |s|
  {
    if s == [] {
      assert |t| == |multiset(t)| == 0;
    } else {
      assert |t| == |multiset(t)| == |s|;
      assert s[0] in multiset(t) && t[0] in multiset(s);
      var i :| 0 <= i < |t| && t[i] == s[0];
      var j :| 0 <= j < |s| && s[j] == t[0];
      if s[0] != t[0] {
        assert i != 0 && j != 0;
        PrecedesAsymmetric(dict, s[0], t[0]);
        assert false;
      }
      MultisetTail(s);
      MultisetTail(t);
      TailStrictlyOrdered(dict, s);
      TailStrictlyOrdered(dict, t);
      StrictlyOrderedUnique(dict, s[1..], t[1..]);
    }
  }
}
