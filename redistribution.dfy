/** What moving reads from one allele to another does to counts and annotation lists. */
module Redistribution {
  import opened Records
  import opened Zygosity

  /** Per-strand counts after `k` reads moved from allele `from` to allele `to`. */
  function Transfer(s: seq<int>, from: int, to: int, k: int): (r: seq<int>)
    requires 0 <= from < |s| && 0 <= to < |s| && from != to
    ensures |r| == |s|
    ensures r[from] == s[from] - k && r[to] == s[to] + k
    ensures forall i :: 0 <= i < |s| && i != from && i != to ==> r[i] == s[i]
  {
    s[from := s[from] - k][to := s[to] + k]
  }

  lemma {:induction false} SumUpdate(s: seq<int>, i: int, v: int)
    requires 0 <= i < |s|
    ensures Sum(s[i := v]) == Sum(s) - s[i] + v
  {
    var n := |s| - 1;
    if i < n {
      SumUpdate(s[..n], i, v);
      assert s[i := v][..n] == s[..n][i := v];
    } else {
      assert s[i := v][..n] == s[..n];
    }
  }

  /** Moving reads between two alleles leaves the strand's total read count unchanged. */
  lemma {:induction false} TransferKeepsTotal(s: seq<int>, from: int, to: int, k: int)
    requires 0 <= from < |s| && 0 <= to < |s| && from != to
    ensures Sum(Transfer(s, from, to, k)) == Sum(s)
  {
    var s1 := s[from := s[from] - k];
    var s2 := s1[to := s1[to] + k];
    assert s2 == Transfer(s, from, to, k);
    SumUpdate(s, from, s[from] - k);
    SumUpdate(s1, to, s1[to] + k);
  }

  /** The adjustment applied to a moved "variations in read" value: +1 when the read
      leaves the reference allele, -1 when it enters it, 0 when both or neither match. */
  function Increment(sourceIsRef: bool, destIsRef: bool): (inc: int)
    ensures -1 <= inc <= 1
    ensures inc == 1 <==> sourceIsRef && !destIsRef
    ensures inc == -1 <==> !sourceIsRef && destIsRef
  {
    (if sourceIsRef then 1 else 0) - (if destIsRef then 1 else 0)
  }

  function Shift(s: seq<int>, d: int): (r: seq<int>)
    ensures |r| == |s| && forall i :: 0 <= i < |s| ==> r[i] == s[i] + d
  {
    seq(|s|, i requires 0 <= i < |s| => s[i] + d)
  }

  /** `k` entries of `src` were appended to `dst`, each shifted by `inc`, and the rest
      stayed in `src`: the destination keeps its old entries as a prefix, and the
      remaining source entries together with the moved entries (shift undone) are
      exactly the original source entries. */
  ghost predicate Redistributed(k: int, inc: int, src: seq<int>, dst: seq<int>, src': seq<int>, dst': seq<int>) {
    && 0 <= k <= |src|
    && |dst'| == |dst| + k
    && |src'| == |src| - k
    && dst'[..|dst|] == dst
    && multiset(src') + multiset(Shift(dst'[|dst|..], -inc)) == multiset(src)
  }

  /** Shuffling the source, moving its first `k` entries (shifted by `inc`) to the end of the
      destination and keeping the rest is a redistribution. */
  lemma {:induction false} SplitRedistributes(k: int, inc: int, src: seq<int>, dst: seq<int>, shuffled: seq<int>)
    requires multiset(shuffled) == multiset(src) && |shuffled| == |src| && 0 <= k <= |src|
    ensures Redistributed(k, inc, src, dst, shuffled[k..], dst + Shift(shuffled[..k], inc))
  {
    var dst' := dst + Shift(shuffled[..k], inc);
    assert dst'[|dst|..] == Shift(shuffled[..k], inc);
    assert Shift(dst'[|dst|..], -inc) == shuffled[..k];
    assert shuffled == shuffled[..k] + shuffled[k..];
  }

  /** An unshifted redistribution neither creates nor loses entries. */
  lemma {:induction false} RedistributedKeepsEntries(k: int, src: seq<int>, dst: seq<int>, src': seq<int>, dst': seq<int>)
    requires Redistributed(k, 0, src, dst, src', dst')
    ensures multiset(src') + multiset(dst') == multiset(src) + multiset(dst)
  {
    assert Shift(dst'[|dst|..], 0) == dst'[|dst|..];
    assert dst' == dst + dst'[|dst|..];
  }

  /** Every sub-list bound the redistribution asks for is in range: the source list of each
      guarded move holds at least as many entries as are moved. The insert-size move is
      guarded by the variation-count list, not by the insert-size list itself. */
  predicate MovesFit(src: Annotations, f: int, b: int) {
    && (|src.numVariationsInReads| > 0 ==>
          f <= |src.numVariationsInReads| && f <= |src.insertSizes|)
    && (|src.qualityScoresForward| > 0 && |src.qualityScoresReverse| > 0 ==>
          f <= |src.qualityScoresForward| && b <= |src.qualityScoresReverse|)
    && (|src.readIndicesForward| > 0 && |src.readIndicesReverse| > 0 ==>
          f <= |src.readIndicesForward| && b <= |src.readIndicesReverse|)
  }

  /** The forward and reverse read counts one mutation moves off allele `c` at rate `delta`:
      never more than the allele holds on that strand, none at a rate of zero or less,
      all of them at a rate of one or more. */
  predicate MoveCountsDrawn(c: CountInfo, f: int, b: int, delta: real) {
    && 0 <= f <= c.forwardCount && 0 <= b <= c.reverseCount
    && (delta <= 0.0 ==> f == 0 && b == 0)
    && (delta >= 1.0 ==> f == c.forwardCount && b == c.reverseCount)
  }

  /** A source allele that keeps one quality score and one read index per read on each
      strand, and at least one variation count and insert size per forward read, never makes
      an annotation move fail, whatever counts its strands give up. */
  lemma {:induction false} ListsInStepFit(c: CountInfo, f: int, b: int)
    requires StrandListsMatch(c)
    requires |c.annotations.numVariationsInReads| >= c.forwardCount
    requires |c.annotations.insertSizes| >= c.forwardCount
    requires 0 <= f <= c.forwardCount && 0 <= b <= c.reverseCount
    ensures MovesFit(c.annotations, f, b)
  {
  }

  /** The annotation lists of the source and destination alleles after `f` forward and
      `b` reverse reads moved. Variation counts and insert sizes move `f` entries (they
      are not strand-split); a family whose guard fails leaves both alleles with empty lists. */
  ghost predicate AnnotationsMoved(src: Annotations, dst: Annotations, f: int, b: int, inc: int,
                                   src': Annotations, dst': Annotations)
  {
    && (if |src.numVariationsInReads| > 0 then
          && Redistributed(f, inc, src.numVariationsInReads, dst.numVariationsInReads,
                           src'.numVariationsInReads, dst'.numVariationsInReads)
          && Redistributed(f, 0, src.insertSizes, dst.insertSizes, src'.insertSizes, dst'.insertSizes)
        else
          && src'.numVariationsInReads == [] && dst'.numVariationsInReads == []
          && src'.insertSizes == [] && dst'.insertSizes == [])
    && (if |src.qualityScoresForward| > 0 && |src.qualityScoresReverse| > 0 then
          && Redistributed(f, 0, src.qualityScoresForward, dst.qualityScoresForward,
                           src'.qualityScoresForward, dst'.qualityScoresForward)
          && Redistributed(b, 0, src.qualityScoresReverse, dst.qualityScoresReverse,
                           src'.qualityScoresReverse, dst'.qualityScoresReverse)
        else
          && src'.qualityScoresForward == [] && dst'.qualityScoresForward == []
          && src'.qualityScoresReverse == [] && dst'.qualityScoresReverse == [])
    && (if |src.readIndicesForward| > 0 && |src.readIndicesReverse| > 0 then
          && Redistributed(f, 0, src.readIndicesForward, dst.readIndicesForward,
                           src'.readIndicesForward, dst'.readIndicesForward)
          && Redistributed(b, 0, src.readIndicesReverse, dst.readIndicesReverse,
                           src'.readIndicesReverse, dst'.readIndicesReverse)
        else
          && src'.readIndicesForward == [] && dst'.readIndicesForward == []
          && src'.readIndicesReverse == [] && dst'.readIndicesReverse == [])
  }

  /** The somatic sample's allele list after reads moved from allele `o` to allele `n`:
      `f` forward and `b` reverse reads, no more than the source held; only the two
      alleles change, and only in their counts and annotation lists. */
  ghost predicate CountsMoved(counts: seq<CountInfo>, counts': seq<CountInfo>, o: int, n: int, f: int, b: int) {
    && 0 <= o < |counts| && 0 <= n < |counts| && o != n
    && |counts'| == |counts|
    && 0 <= f <= counts[o].forwardCount && 0 <= b <= counts[o].reverseCount
    && ForwardCounts(counts') == Transfer(ForwardCounts(counts), o, n, f)
    && ReverseCounts(counts') == Transfer(ReverseCounts(counts), o, n, b)
    && (forall i :: 0 <= i < |counts| && i != o && i != n ==> counts'[i] == counts[i])
    && counts'[o].toSequence == counts[o].toSequence
    && counts'[o].matchesReference == counts[o].matchesReference
    && counts'[n].toSequence == counts[n].toSequence
    && counts'[n].matchesReference == counts[n].matchesReference
    && AnnotationsMoved(counts[o].annotations, counts[n].annotations, f, b,
                        Increment(counts[o].matchesReference, counts[n].matchesReference),
                        counts'[o].annotations, counts'[n].annotations)
  }

  /** Reads are moved, never created or destroyed: each strand's total over all alleles,
      and the two alleles' combined count on each strand, are unchanged. */
  lemma {:induction false} MutationConservesReads(counts: seq<CountInfo>, counts': seq<CountInfo>, o: int, n: int, f: int, b: int)
    requires CountsMoved(counts, counts', o, n, f, b)
    ensures Sum(ForwardCounts(counts')) == Sum(ForwardCounts(counts))
    ensures Sum(ReverseCounts(counts')) == Sum(ReverseCounts(counts))
    ensures counts'[o].forwardCount + counts'[n].forwardCount == counts[o].forwardCount + counts[n].forwardCount
    ensures counts'[o].reverseCount + counts'[n].reverseCount == counts[o].reverseCount + counts[n].reverseCount
    ensures counts'[o].forwardCount == counts[o].forwardCount - f
    ensures counts'[o].reverseCount == counts[o].reverseCount - b
  {
    TransferKeepsTotal(ForwardCounts(counts), o, n, f);
    TransferKeepsTotal(ReverseCounts(counts), o, n, b);
    assert ForwardCounts(counts')[o] == counts'[o].forwardCount;
    assert ForwardCounts(counts')[n] == counts'[n].forwardCount;
    assert ReverseCounts(counts')[o] == counts'[o].reverseCount;
    assert ReverseCounts(counts')[n] == counts'[n].reverseCount;
  }

  /** The strand-split annotation lists of an allele hold one entry per read on their strand. */
  predicate StrandListsMatch(c: CountInfo) {
    && |c.annotations.qualityScoresForward| == c.forwardCount
    && |c.annotations.qualityScoresReverse| == c.reverseCount
    && |c.annotations.readIndicesForward| == c.forwardCount
    && |c.annotations.readIndicesReverse| == c.reverseCount
  }

  /** Where the source and destination kept one quality score and one read index per read,
      a family that moves keeps them so: each moved read takes exactly one entry along. */
  lemma {:induction false} StrandListsFollowCounts(counts: seq<CountInfo>, counts': seq<CountInfo>,
                                                   o: int, n: int, f: int, b: int)
    requires CountsMoved(counts, counts', o, n, f, b)
    requires StrandListsMatch(counts[o]) && StrandListsMatch(counts[n])
    ensures |counts[o].annotations.qualityScoresForward| > 0 && |counts[o].annotations.qualityScoresReverse| > 0 ==>
              && |counts'[o].annotations.qualityScoresForward| == counts'[o].forwardCount
              && |counts'[o].annotations.qualityScoresReverse| == counts'[o].reverseCount
              && |counts'[n].annotations.qualityScoresForward| == counts'[n].forwardCount
              && |counts'[n].annotations.qualityScoresReverse| == counts'[n].reverseCount
    ensures |counts[o].annotations.readIndicesForward| > 0 && |counts[o].annotations.readIndicesReverse| > 0 ==>
              && |counts'[o].annotations.readIndicesForward| == counts'[o].forwardCount
              && |counts'[o].annotations.readIndicesReverse| == counts'[o].reverseCount
              && |counts'[n].annotations.readIndicesForward| == counts'[n].forwardCount
              && |counts'[n].annotations.readIndicesReverse| == counts'[n].reverseCount
  {
    MutationConservesReads(counts, counts', o, n, f, b);
  }

  /** Variation counts and insert sizes are not split by strand, yet only the forward moves
      take entries along: the source keeps its entries for the reverse reads it lost. */
  lemma {:induction false} UnsplitListsFollowForwardOnly(counts: seq<CountInfo>, counts': seq<CountInfo>,
                                                         o: int, n: int, f: int, b: int)
    requires CountsMoved(counts, counts', o, n, f, b)
    requires |counts[o].annotations.numVariationsInReads| > 0
    ensures |counts'[o].annotations.numVariationsInReads| == |counts[o].annotations.numVariationsInReads| - f
    ensures |counts'[o].annotations.insertSizes| == |counts[o].annotations.insertSizes| - f
    ensures counts'[o].forwardCount + counts'[o].reverseCount ==
              counts[o].forwardCount + counts[o].reverseCount - f - b
  {
    MutationConservesReads(counts, counts', o, n, f, b);
  }

  /** A witness: an allele with one reverse read and one variation count loses the read to
      another allele, and keeps the variation count with no read left. */
  lemma VariationCountsFallOutOfStep()
    ensures
      var none := Annotations([], [], [], [], [], []);
      var counts := [CountInfo("A", true, 0, 1, Annotations([], [], [], [], [0], [300])),
                     CountInfo("C", false, 0, 0, none)];
      var counts' := [CountInfo("A", true, 0, 0, Annotations([], [], [], [], [0], [300])),
                      CountInfo("C", false, 0, 1, none)];
      && CountsMoved(counts, counts', 0, 1, 0, 1)
      && counts'[0].forwardCount + counts'[0].reverseCount == 0
      && |counts'[0].annotations.numVariationsInReads| == 1
  {
    var none := Annotations([], [], [], [], [], []);
    var counts := [CountInfo("A", true, 0, 1, Annotations([], [], [], [], [0], [300])),
                   CountInfo("C", false, 0, 0, none)];
    var counts' := [CountInfo("A", true, 0, 0, Annotations([], [], [], [], [0], [300])),
                    CountInfo("C", false, 0, 1, none)];
    assert ForwardCounts(counts) == [0, 0] && ForwardCounts(counts') == [0, 0];
    assert ReverseCounts(counts) == [1, 0] && ReverseCounts(counts') == [0, 1];
    assert Shift([], -Increment(true, false)) == [];
    assert Shift([], 0) == [];
  }
}
