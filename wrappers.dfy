/** Optional values and the failures the merging pipeline can raise. */
module Wrappers {

  /** A value that may be absent; stands for a Java reference that may be null. */
  datatype Option<+T> = None | Some(value: T)

  /**
   * Every exception the modelled code throws, one constructor per throw site
   * (or per kind of runtime failure the code can run into).
   */
  datatype Error =
    // MultiFeatureWalker: no sequence dictionary among master, reference, reads and headers
    | NoDictionary
    // MultiFeatureWalker.bestDictionary: a contig of the smaller dictionary is not in the larger one
    | ContigNotFound(contig: string)
    // MultiFeatureWalker.bestDictionary: the smaller dictionary's contigs are in a different order
    | ContigOutOfOrder(contig: string)
    // MergingIterator.next on an empty queue (NoSuchElementException)
    | IteratorExhausted
    // MergingIterator.next: a source yielded a record that sorts before its predecessor
    | InputsNotSorted(contig: string, start: int)
    // the sort mergers' write: a record at an earlier locus than the current one
    | NotInDictionaryOrder
    // DepthEvidence.extractSamples: the source has no SVFeaturesHeader
    | MissingHeader
    // DepthEvidence.extractSamples: the header names more samples than the record has counts
    // (an ArrayIndexOutOfBoundsException in the Java code)
    | CountIndexOutOfRange
    // depth evidence at one locus with count arrays of different lengths
    | SampleListMismatch
    // two depth records at one locus both supply a count for sample number `sampleNumber` (1-based)
    | MultipleSources(sampleNumber: int, contig: string, start: int, end: int)
    // two same-locus records with equal secondary key; `strand` is present for split reads only
    | DuplicateEvidence(sample: string, contig: string, position: int, strand: Option<bool>)

  /** A computation that either yields a value or raises an `Error`. */
  datatype Result<+T> = Ok(value: T) | Err(error: Error)

  /** The outcome of a void Java method that may throw. */
  datatype Outcome = Pass | Fail(error: Error)
}
