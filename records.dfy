/** Values of the variant-call record that the simulation strategy rewrites:
    a site (BaseInformation) holds samples, a sample holds one CountInfo per allele. */
module Records {

  datatype Option<T> = None | Some(value: T)

  /** The exception the strategy can raise: an index or sub-list bound past the end of a list
      (the last sample of a record without samples, or a sub-list longer than its list). */
  datatype Error = IndexOutOfBounds

  datatype Result<T> = Success(value: T) | Failure(error: Error)

  /** The per-read annotation lists of one allele, in expanded form (one entry per read).
      Quality scores and read indices are kept per strand; the number of variations
      seen in the read and the insert size are not split by strand. */
  datatype Annotations = Annotations(
    qualityScoresForward: seq<int>,
    qualityScoresReverse: seq<int>,
    readIndicesForward: seq<int>,
    readIndicesReverse: seq<int>,
    numVariationsInReads: seq<int>,
    insertSizes: seq<int>)

  /** Counts and annotations of one allele (genotype) within one sample. */
  datatype CountInfo = CountInfo(
    toSequence: string,
    matchesReference: bool,
    forwardCount: nat,
    reverseCount: nat,
    annotations: Annotations)

  datatype SampleInfo = SampleInfo(isTumor: bool, counts: seq<CountInfo>)

  datatype BaseInformation = BaseInformation(
    samples: seq<SampleInfo>,
    mutated: bool,
    mutatedBase: string,
    indexOfMutatedBase: int,
    frequencyOfMutation: real)

  function ForwardCounts(counts: seq<CountInfo>): seq<int> {
    seq(|counts|, i requires 0 <= i < |counts| => counts[i].forwardCount)
  }

  function ReverseCounts(counts: seq<CountInfo>): seq<int> {
    seq(|counts|, i requires 0 <= i < |counts| => counts[i].reverseCount)
  }

  /** Reads per allele, both strands together: the `sums` array handed to the classifier. */
  function SummedCounts(counts: seq<CountInfo>): seq<int> {
    seq(|counts|, i requires 0 <= i < |counts| => counts[i].forwardCount + counts[i].reverseCount)
  }

  /** The allele index the strategy takes as the reference: the LAST allele flagged as
      matching the reference (a later flag overwrites an earlier one), or -1 if none is. */
  function ReferenceIndex(counts: seq<CountInfo>): (r: int)
    ensures -1 <= r < |counts|
    ensures r == -1 <==> forall j :: 0 <= j < |counts| ==> !counts[j].matchesReference
    ensures r != -1 ==> counts[r].matchesReference
    ensures r != -1 ==> forall j :: r < j < |counts| ==> !counts[j].matchesReference
  {
    if |counts| == 0 then -1
    else if counts[|counts| - 1].matchesReference then |counts| - 1
    else ReferenceIndex(counts[..|counts| - 1])
  }

  function Last(samples: seq<SampleInfo>): SampleInfo
    requires |samples| >= 1
  {
    samples[|samples| - 1]
  }

  /** The role bookkeeping every call performs: all samples but the last become
      non-tumor, the last becomes tumor, and the record's mutated flag is set. */
  predicate RolesSet(record: BaseInformation, r: BaseInformation, mutated: bool) {
    && |r.samples| == |record.samples| >= 1
    && r.mutated == mutated
    && (forall i :: 0 <= i < |r.samples| - 1 ==> r.samples[i] == record.samples[i].(isTumor := false))
    && Last(r.samples).isTumor
  }

  /** The record with only the role bookkeeping applied. */
  function WithRoles(record: BaseInformation, mutated: bool): (r: BaseInformation)
    requires |record.samples| >= 1
    ensures RolesSet(record, r, mutated)
    ensures Last(r.samples) == Last(record.samples).(isTumor := true)
    ensures r.mutatedBase == record.mutatedBase && r.indexOfMutatedBase == record.indexOfMutatedBase
    ensures r.frequencyOfMutation == record.frequencyOfMutation
  {
    var n := |record.samples|;
    record.(mutated := mutated,
            samples := seq(n, i requires 0 <= i < n => record.samples[i].(isTumor := i == n - 1)))
  }
}
