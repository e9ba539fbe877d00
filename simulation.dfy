/** The first simulation strategy: makes the last sample of a record look as if a
    somatic mutation had moved some of its reads from one allele to another. */
module Simulation {
  import opened Records
  import opened Randomness
  import opened Zygosity
  import opened Redistribution

  /** The somatic sample's allele list rebuilt from the per-strand count arrays, with the
      source allele `o` and the destination allele `n` given their new annotation lists. */
  function RebuildCounts(counts: seq<CountInfo>, forward: seq<int>, backward: seq<int>,
                         o: int, n: int, src: Annotations, dst: Annotations): (r: seq<CountInfo>)
    requires |forward| == |counts| && |backward| == |counts|
    requires forall i :: 0 <= i < |counts| ==> forward[i] >= 0 && backward[i] >= 0
    ensures |r| == |counts|
    ensures ForwardCounts(r) == forward && ReverseCounts(r) == backward
    ensures 0 <= o < |counts| ==> r[o].annotations == src
    ensures 0 <= n < |counts| && n != o ==> r[n].annotations == dst
    ensures forall i :: 0 <= i < |counts| ==>
              r[i].toSequence == counts[i].toSequence && r[i].matchesReference == counts[i].matchesReference
    ensures forall i :: (0 <= i < |counts| && i != o && i != n &&
                         forward[i] == counts[i].forwardCount && backward[i] == counts[i].reverseCount) ==>
              r[i] == counts[i]
  {
    seq(|counts|, i requires 0 <= i < |counts| =>
      counts[i].(forwardCount := forward[i], reverseCount := backward[i],
                 annotations := if i == o then src else if i == n then dst else counts[i].annotations))
  }

  /** Rebuilding the allele list from per-strand counts that moved `f` forward and `b` reverse
      reads from `o` to `n`, and from annotation lists that moved with them, yields exactly the
      mutation `CountsMoved` describes; the rebuilt counts are never negative. */
  lemma {:induction false} RebuildMovesReads(counts: seq<CountInfo>, forward: seq<int>, backward: seq<int>,
                                             o: int, n: int, f: int, b: int, src: Annotations, dst: Annotations)
    requires 0 <= o < |counts| && 0 <= n < |counts| && o != n
    requires 0 <= f <= counts[o].forwardCount && 0 <= b <= counts[o].reverseCount
    requires forward == Transfer(ForwardCounts(counts), o, n, f)
    requires backward == Transfer(ReverseCounts(counts), o, n, b)
    requires AnnotationsMoved(counts[o].annotations, counts[n].annotations, f, b,
                              Increment(counts[o].matchesReference, counts[n].matchesReference), src, dst)
    ensures forall i :: 0 <= i < |counts| ==> forward[i] >= 0 && backward[i] >= 0
    ensures CountsMoved(counts, RebuildCounts(counts, forward, backward, o, n, src, dst), o, n, f, b)
  {
    forall i | 0 <= i < |counts|
      ensures forward[i] >= 0 && backward[i] >= 0
    {
      assert ForwardCounts(counts)[i] >= 0 && ReverseCounts(counts)[i] >= 0;
    }
    var r := RebuildCounts(counts, forward, backward, o, n, src, dst);
    assert forall i :: 0 <= i < |counts| && i != o && i != n ==>
             forward[i] == ForwardCounts(counts)[i] && backward[i] == ReverseCounts(counts)[i];
  }

  class FirstSimulationStrategy {
    var seed: int
    /** Lower and upper bound of the drawn mutation rate. */
    var deltaSmall: real
    var deltaBig: real
    /** Fraction of all reads the second allele must reach for the site to be heterozygous. */
    var zygHeuristic: real
    var rand: Rng

    constructor (deltaSmall: real, deltaBig: real, zygHeuristic: real, seed: int)
      ensures this.deltaSmall == deltaSmall && this.deltaBig == deltaBig
      ensures this.zygHeuristic == zygHeuristic && this.seed == seed
      ensures fresh(rand) && rand.seed == seed && rand.drawn == 0
    {
      this.seed := seed;
      rand := new Rng(seed);
      this.deltaSmall := deltaSmall;
      this.deltaBig := deltaBig;
      this.zygHeuristic := zygHeuristic;
    }

    /** Reconfigures the strategy and reseeds its stream; `canonThreshold` is not used. */
    method Setup(deltaSmall: real, deltaBig: real, zygHeuristic: real, seed: int, canonThreshold: real)
      modifies this
      ensures this.deltaSmall == deltaSmall && this.deltaBig == deltaBig
      ensures this.zygHeuristic == zygHeuristic && this.seed == seed
      ensures fresh(rand) && rand.seed == seed && rand.drawn == 0
    {
      this.seed := seed;
      rand := new Rng(seed);
      this.deltaSmall := deltaSmall;
      this.deltaBig := deltaBig;
      this.zygHeuristic := zygHeuristic;
    }

    /** Replaces the stream by a fresh one from `seed`; the recorded `seed` field is left as it was. */
    method SetSeed(seed: int)
      modifies this
      ensures fresh(rand) && rand.seed == seed && rand.drawn == 0
      ensures this.seed == old(this.seed)
      ensures deltaSmall == old(deltaSmall) && deltaBig == old(deltaBig) && zygHeuristic == old(zygHeuristic)
    {
      rand := new Rng(seed);
    }

    /** The single scan over the per-allele counts: the first index holding the largest
        positive count, the runner-up index among the others (both -1 when absent), and
        the total number of reads. */
    static method ScanCounts(counts: seq<int>) returns (maxCountIdx: int, secondMostCountIdx: int, totalNumCounts: int)
      ensures IsTopIndex(counts, maxCountIdx)
      ensures IsRunnerUpIndex(counts, maxCountIdx, secondMostCountIdx)
      ensures totalNumCounts == Sum(counts)
      ensures maxCountIdx == Scan(counts).maxIdx && secondMostCountIdx == Scan(counts).secondIdx
    {
      var maxCount, secondMostCount := 0, 0;
      maxCountIdx, secondMostCountIdx := -1, -1;
      totalNumCounts := 0;
      for i := 0 to |counts|
        invariant Scan(counts[..i]) == ScanResult(maxCountIdx, secondMostCountIdx, maxCount, secondMostCount, totalNumCounts)
      {
        assert counts[..i + 1][..i] == counts[..i];
        totalNumCounts := totalNumCounts + counts[i];
        if counts[i] > maxCount {
          secondMostCountIdx := maxCountIdx;
          secondMostCount := maxCount;
          maxCountIdx := i;
          maxCount := counts[i];
        } else if counts[i] > secondMostCount {
          secondMostCountIdx := i;
          secondMostCount := counts[i];
        }
      }
      assert counts[..|counts|] == counts;
      ScanFindsTop(counts);
      ScanFindsRunnerUp(counts);
    }

    /** Classifies the site from the per-allele read counts and draws a mutation direction;
        None when no allele has reads. */
    method DirFromCounts(referenceBase: int, counts: seq<int>) returns (dir: Option<MutationDirection>)
      requires DestinationAvailable(counts, referenceBase, zygHeuristic)
      modifies rand
      ensures dir.None? <==> forall j :: 0 <= j < |counts| ==> counts[j] <= 0
      ensures dir.Some? ==> DirectionAllowed(counts, referenceBase, zygHeuristic, deltaSmall, deltaBig, dir.value)
      ensures dir.None? ==> rand.drawn == old(rand.drawn)
      ensures dir.Some? ==> rand.drawn >= old(rand.drawn) + 3
      ensures rand.seed == old(rand.seed)
    {
      var numGenos := |counts|;
      var maxCountIdx, secondMostCountIdx, totalNumCounts := ScanCounts(counts);
      if maxCountIdx == -1 {
        return None;
      }
      var monozygotic: bool;
      if secondMostCountIdx == -1 {
        monozygotic := true;
      } else {
        monozygotic := HeuristicShare(zygHeuristic, totalNumCounts) > counts[secondMostCountIdx] as real;
      }
      assert monozygotic == Monozygotic(zygHeuristic, counts);
      var u := rand.NextDouble();
      var delta := Rate(deltaSmall, deltaBig, u);
      var originalDelta := delta;
      RateIsDrawnBetween(deltaSmall, deltaBig, u);
      var newBase: int;
      var oldBase: int;
      var otherAlleleBase := -1;
      if monozygotic {
        oldBase := maxCountIdx;
        var keep := rand.NextDouble();
        if keep > 0.001 {
          delta := delta / 2.0;
        }
        newBase := rand.NextIntOutside(numGenos, Forbidden(oldBase, otherAlleleBase, referenceBase));
      } else {
        var mutatingAllele := rand.NextBoolean();
        oldBase := if mutatingAllele then maxCountIdx else secondMostCountIdx;
        otherAlleleBase := if !mutatingAllele then maxCountIdx else secondMostCountIdx;
        newBase := rand.NextIntOutside(numGenos, Forbidden(oldBase, otherAlleleBase, referenceBase));
      }
      var somaticFrequency := originalDelta;
      dir := Some(MutationDirection(oldBase, newBase, delta, somaticFrequency));
    }

    /** One Bernoulli trial with success probability `delta` per read the source allele
        holds on this strand; each success moves one read to the destination allele. */
    method MoveReads(strand: array<int>, oldBase: int, newBase: int, delta: real) returns (mutCount: int)
      requires 0 <= oldBase < strand.Length && 0 <= newBase < strand.Length && oldBase != newBase
      requires strand[oldBase] >= 0
      modifies strand, rand
      ensures 0 <= mutCount <= old(strand[oldBase])
      ensures strand[..] == Transfer(old(strand[..]), oldBase, newBase, mutCount)
      ensures delta <= 0.0 ==> mutCount == 0
      ensures delta >= 1.0 ==> mutCount == old(strand[oldBase])
      ensures rand.seed == old(rand.seed) && rand.drawn == old(rand.drawn) + old(strand[oldBase])
    {
      mutCount := 0;
      var oldCount := strand[oldBase];
      for i := 0 to oldCount
        invariant 0 <= mutCount <= i
        invariant strand[..] == Transfer(old(strand[..]), oldBase, newBase, mutCount)
        invariant delta <= 0.0 ==> mutCount == 0
        invariant delta >= 1.0 ==> mutCount == i
        invariant rand.seed == old(rand.seed) && rand.drawn == old(rand.drawn) + i
      {
        var u := rand.NextDouble();
        if u < delta {
          strand[oldBase] := strand[oldBase] - 1;
          strand[newBase] := strand[newBase] + 1;
          mutCount := mutCount + 1;
        }
      }
    }

    /** Shuffles `source`, appends its first `mutCount` entries to `dest` and keeps the rest
        in `source`; fails (after the shuffle) when `source` is shorter than `mutCount`. */
    method MutateIntegerLists(mutCount: int, source: IntList, dest: IntList) returns (ok: bool, ghost shuffled: seq<int>)
      requires source != dest && 0 <= mutCount
      modifies rand, source, dest
      ensures multiset(shuffled) == multiset(old(source.items)) && |shuffled| == |old(source.items)|
      ensures ok <==> mutCount <= |old(source.items)|
      ensures ok ==> dest.items == old(dest.items) + shuffled[..mutCount] && source.items == shuffled[mutCount..]
      ensures !ok ==> dest.items == old(dest.items) && source.items == shuffled
      ensures rand.seed == old(rand.seed) && rand.drawn >= old(rand.drawn)
    {
      rand.Shuffle(source);
      shuffled := source.items;
      ok := mutCount <= |source.items|;
      if !ok {
        return;
      }
      dest.AddAll(source.items[..mutCount]);
      var tmp := source.items[mutCount..];
      source.Clear();
      source.AddAll(tmp);
    }

    /** As MutateIntegerLists, but each entry appended to `dest` is shifted by
        Increment(sourceIsRef, destIsRef). */
    method MutateIntegerListsVarAdd(mutCount: int, source: IntList, dest: IntList, sourceIsRef: bool, destIsRef: bool)
      returns (ok: bool, ghost shuffled: seq<int>)
      requires source != dest && 0 <= mutCount
      modifies rand, source, dest
      ensures multiset(shuffled) == multiset(old(source.items)) && |shuffled| == |old(source.items)|
      ensures ok <==> mutCount <= |old(source.items)|
      ensures ok ==> dest.items == old(dest.items) + Shift(shuffled[..mutCount], Increment(sourceIsRef, destIsRef))
      ensures ok ==> source.items == shuffled[mutCount..]
      ensures !ok ==> dest.items == old(dest.items) && source.items == shuffled
      ensures rand.seed == old(rand.seed) && rand.drawn >= old(rand.drawn)
    {
      var increment := 0;
      if sourceIsRef {
        increment := increment + 1;
      }
      if destIsRef {
        increment := increment - 1;
      }
      var newDestIndex := |dest.items|;
      rand.Shuffle(source);
      shuffled := source.items;
      ok := mutCount <= |source.items|;
      if !ok {
        return;
      }
      dest.AddAll(source.items[..mutCount]);
      var i := newDestIndex;
      while i < |dest.items|
        modifies dest
        invariant newDestIndex <= i <= |dest.items| == newDestIndex + mutCount
        invariant dest.items[..newDestIndex] == old(dest.items)
        invariant forall j :: newDestIndex <= j < i ==> dest.items[j] == shuffled[j - newDestIndex] + increment
        invariant forall j :: i <= j < |dest.items| ==> dest.items[j] == shuffled[j - newDestIndex]
      {
        dest.Set(i, dest.items[i] + increment);
        i := i + 1;
      }
      assert dest.items == old(dest.items) + Shift(shuffled[..mutCount], increment);
      var tmp := source.items[mutCount..];
      source.Clear();
      source.AddAll(tmp);
    }

    /** One annotation family: copies the two alleles' lists into fresh lists, moves `k`
        entries with MutateIntegerLists (or MutateIntegerListsVarAdd when `varAdd`) and
        returns the lists' new contents. */
    method RedistributeList(k: int, src: seq<int>, dst: seq<int>, varAdd: bool, sourceIsRef: bool, destIsRef: bool)
      returns (ok: bool, src': seq<int>, dst': seq<int>)
      requires 0 <= k
      modifies rand
      ensures ok <==> k <= |src|
      ensures ok ==> Redistributed(k, if varAdd then Increment(sourceIsRef, destIsRef) else 0, src, dst, src', dst')
      ensures rand.seed == old(rand.seed) && rand.drawn >= old(rand.drawn)
    {
      var from := new IntList([]);
      var to := new IntList([]);
      from.AddAll(src);
      to.AddAll(dst);
      ghost var shuffled: seq<int>;
      if varAdd {
        ok, shuffled := MutateIntegerListsVarAdd(k, from, to, sourceIsRef, destIsRef);
      } else {
        ok, shuffled := MutateIntegerLists(k, from, to);
        if ok {
          assert Shift(shuffled[..k], 0) == shuffled[..k];
        }
      }
      src', dst' := from.items, to.items;
      if ok {
        SplitRedistributes(k, if varAdd then Increment(sourceIsRef, destIsRef) else 0, src, dst, shuffled);
      }
    }

    /** Moves the annotation entries of `f` forward and `b` reverse reads from the source
        allele's lists to the destination allele's, family by family, as the guards allow;
        fails when a guarded move asks for more entries than its source list holds. A
        family whose guard fails leaves both lists empty. */
    method RedistributeAnnotations(src: Annotations, dst: Annotations, f: int, b: int, sourceIsRef: bool, destIsRef: bool)
      returns (ok: bool, src': Annotations, dst': Annotations)
      requires 0 <= f && 0 <= b
      modifies rand
      ensures ok <==> MovesFit(src, f, b)
      ensures ok ==> AnnotationsMoved(src, dst, f, b, Increment(sourceIsRef, destIsRef), src', dst')
      ensures rand.seed == old(rand.seed) && rand.drawn >= old(rand.drawn)
    {
      src', dst' := Annotations([], [], [], [], [], []), Annotations([], [], [], [], [], []);

      // variation counts, moved with the forward count only and shifted by the increment;
      // insert sizes, guarded by the variation-count list
      var fromVC, toVC, fromIS, toIS := [], [], [], [];
      if |src.numVariationsInReads| > 0 {
        ok, fromVC, toVC := RedistributeList(f, src.numVariationsInReads, dst.numVariationsInReads,
                                             true, sourceIsRef, destIsRef);
        if !ok {
          return;
        }
        ok, fromIS, toIS := RedistributeList(f, src.insertSizes, dst.insertSizes, false, sourceIsRef, destIsRef);
        if !ok {
          return;
        }
      }

      // quality scores, only when the source has both strands
      var fromForward, fromBackward, toForward, toBackward := [], [], [], [];
      if |src.qualityScoresForward| > 0 && |src.qualityScoresReverse| > 0 {
        ok, fromForward, toForward := RedistributeList(f, src.qualityScoresForward, dst.qualityScoresForward,
                                                       false, sourceIsRef, destIsRef);
        if !ok {
          return;
        }
        ok, fromBackward, toBackward := RedistributeList(b, src.qualityScoresReverse, dst.qualityScoresReverse,
                                                         false, sourceIsRef, destIsRef);
        if !ok {
          return;
        }
      }

      // read indices, only when the source has both strands
      var fromForwardR, fromBackwardR, toForwardR, toBackwardR := [], [], [], [];
      if |src.readIndicesForward| > 0 && |src.readIndicesReverse| > 0 {
        ok, fromForwardR, toForwardR := RedistributeList(f, src.readIndicesForward, dst.readIndicesForward,
                                                         false, sourceIsRef, destIsRef);
        if !ok {
          return;
        }
        ok, fromBackwardR, toBackwardR := RedistributeList(b, src.readIndicesReverse, dst.readIndicesReverse,
                                                           false, sourceIsRef, destIsRef);
        if !ok {
          return;
        }
      }

      ok := true;
      src' := Annotations(fromForward, fromBackward, fromForwardR, fromBackwardR, fromVC, fromIS);
      dst' := Annotations(toForward, toBackward, toForwardR, toBackwardR, toVC, toIS);
    }

    /** Copies the somatic sample's per-strand counts into arrays, with their sums, and
        finds the reference allele (the last one flagged). */
    static method ReadCounts(counts: seq<CountInfo>)
      returns (forward: array<int>, backward: array<int>, sums: array<int>, referenceBase: int)
      ensures fresh(forward) && fresh(backward) && fresh(sums) && forward != backward
      ensures forward[..] == ForwardCounts(counts) && backward[..] == ReverseCounts(counts)
      ensures sums[..] == SummedCounts(counts)
      ensures referenceBase == ReferenceIndex(counts)
    {
      var numGenos := |counts|;
      forward := new int[numGenos];
      backward := new int[numGenos];
      sums := new int[numGenos];
      referenceBase := -1;
      for i := 0 to numGenos
        invariant forward != backward && forward != sums && backward != sums
        invariant forall j :: 0 <= j < i ==> forward[j] == counts[j].forwardCount
        invariant forall j :: 0 <= j < i ==> backward[j] == counts[j].reverseCount
        invariant forall j :: 0 <= j < i ==> sums[j] == counts[j].forwardCount + counts[j].reverseCount
        invariant -1 <= referenceBase < i
        invariant referenceBase == -1 ==> forall j :: 0 <= j < i ==> !counts[j].matchesReference
        invariant referenceBase != -1 ==> counts[referenceBase].matchesReference
        invariant forall j :: referenceBase < j < i ==> !counts[j].matchesReference
      {
        var count := counts[i];
        forward[i] := count.forwardCount;
        backward[i] := count.reverseCount;
        sums[i] := count.forwardCount + count.reverseCount;
        if count.matchesReference {
          referenceBase := i;
        }
      }
      assert forward[..] == ForwardCounts(counts);
      assert backward[..] == ReverseCounts(counts);
    }

    /** Moves reads of the source allele to the destination allele on both strands, then
        their annotation entries, and rebuilds the allele list; fails when a guarded
        annotation move asks for more entries than its source list holds. */
    method ApplyDirection(counts: seq<CountInfo>, forward: array<int>, backward: array<int>,
                          oldBase: int, newBase: int, delta: real)
      returns (ok: bool, newCounts: seq<CountInfo>, fMutCount: int, bMutCount: int)
      requires forward != backward
      requires forward[..] == ForwardCounts(counts) && backward[..] == ReverseCounts(counts)
      requires 0 <= oldBase < |counts| && 0 <= newBase < |counts| && oldBase != newBase
      modifies forward, backward, rand
      ensures MoveCountsDrawn(counts[oldBase], fMutCount, bMutCount, delta)
      ensures ok <==> MovesFit(counts[oldBase].annotations, fMutCount, bMutCount)
      ensures ok ==> CountsMoved(counts, newCounts, oldBase, newBase, fMutCount, bMutCount)
      ensures rand.seed == old(rand.seed) && rand.drawn >= old(rand.drawn)
    {
      fMutCount := MoveReads(forward, oldBase, newBase, delta);
      bMutCount := MoveReads(backward, oldBase, newBase, delta);
      var source := counts[oldBase];
      var destination := counts[newBase];
      var src', dst';
      ok, src', dst' := RedistributeAnnotations(source.annotations, destination.annotations, fMutCount, bMutCount,
                                                source.matchesReference, destination.matchesReference);
      newCounts := counts;
      if !ok {
        return;
      }
      var fw, bw := forward[..], backward[..];
      RebuildMovesReads(counts, fw, bw, oldBase, newBase, fMutCount, bMutCount, src', dst');
      newCounts := RebuildCounts(counts, fw, bw, oldBase, newBase, src', dst');
    }

    /** The somatic sample's part of a mutation: reads the counts, picks a direction and,
        when there is one, applies it. Without a direction the counts come back unchanged. */
    method MutateCounts(counts: seq<CountInfo>)
      returns (dir: Option<MutationDirection>, result: Result<seq<CountInfo>>,
               ghost fMutCount: int, ghost bMutCount: int)
      requires ReferenceIndex(counts) != -1
      requires DestinationAvailable(SummedCounts(counts), ReferenceIndex(counts), zygHeuristic)
      modifies rand
      ensures rand.seed == old(rand.seed) && rand.drawn >= old(rand.drawn)
      ensures dir.None? <==> forall j :: 0 <= j < |counts| ==> SummedCounts(counts)[j] <= 0
      ensures dir.None? ==> result == Success(counts)
      ensures dir.None? ==> rand.drawn == old(rand.drawn)
      ensures dir.Some? ==>
        && DirectionAllowed(SummedCounts(counts), ReferenceIndex(counts), zygHeuristic, deltaSmall, deltaBig, dir.value)
        && 0 <= dir.value.oldBase < |counts| && 0 <= dir.value.newBase < |counts|
        && MoveCountsDrawn(counts[dir.value.oldBase], fMutCount, bMutCount, dir.value.delta)
        && (result.Success? <==> MovesFit(counts[dir.value.oldBase].annotations, fMutCount, bMutCount))
      ensures dir.Some? && result.Success? ==>
        CountsMoved(counts, result.value, dir.value.oldBase, dir.value.newBase, fMutCount, bMutCount)
    {
      fMutCount, bMutCount := 0, 0;
      var forward, backward, sums, referenceBase := ReadCounts(counts);
      dir := DirFromCounts(referenceBase, sums[..]);
      if dir.None? {
        return dir, Success(counts), fMutCount, bMutCount;
      }
      SourceHasReads(sums[..], referenceBase, zygHeuristic, deltaSmall, deltaBig, dir.value);
      var ok, newCounts, f, b := ApplyDirection(counts, forward, backward, dir.value.oldBase, dir.value.newBase, dir.value.delta);
      fMutCount, bMutCount := f, b;
      result := if ok then Success(newCounts) else Failure(IndexOutOfBounds);
    }

    /** Sets the sample roles and the mutated flag; when `makeSomatic` holds and the last
        sample has reads, moves reads and their annotations from a source allele to a
        destination allele of that sample and records the mutation. */
    method Mutate(makeSomatic: bool, record: BaseInformation)
      returns (r: Result<BaseInformation>, ghost dir: Option<MutationDirection>, ghost fMutCount: int, ghost bMutCount: int)
      requires makeSomatic && |record.samples| >= 1 ==> ReferenceIndex(Last(record.samples).counts) != -1
      requires makeSomatic && |record.samples| >= 1 ==>
        DestinationAvailable(SummedCounts(Last(record.samples).counts),
                             ReferenceIndex(Last(record.samples).counts), zygHeuristic)
      modifies rand
      ensures rand.seed == old(rand.seed) && rand.drawn >= old(rand.drawn)
      ensures dir.None? ==> rand.drawn == old(rand.drawn)
      ensures |record.samples| == 0 ==> r == Failure(IndexOutOfBounds) && dir.None?
      ensures r.Success? ==> RolesSet(record, r.value, makeSomatic)
      ensures !makeSomatic && |record.samples| >= 1 ==> dir.None? && r == Success(WithRoles(record, false))
      ensures makeSomatic && |record.samples| >= 1 ==>
        var sums := SummedCounts(Last(record.samples).counts);
        dir.None? <==> forall j :: 0 <= j < |sums| ==> sums[j] <= 0
      ensures dir.None? && |record.samples| >= 1 ==> r == Success(WithRoles(record, makeSomatic))
      ensures dir.Some? ==>
        && |record.samples| >= 1
        && var counts := Last(record.samples).counts;
           && DirectionAllowed(SummedCounts(counts), ReferenceIndex(counts), zygHeuristic, deltaSmall, deltaBig, dir.value)
           && 0 <= dir.value.oldBase < |counts| && 0 <= dir.value.newBase < |counts|
           && MoveCountsDrawn(counts[dir.value.oldBase], fMutCount, bMutCount, dir.value.delta)
           && (r.Success? <==> MovesFit(counts[dir.value.oldBase].annotations, fMutCount, bMutCount))
      ensures dir.Some? && r.Success? ==>
        var counts := Last(record.samples).counts;
        var n := dir.value.newBase;
        && CountsMoved(counts, Last(r.value.samples).counts, dir.value.oldBase, n, fMutCount, bMutCount)
        && r.value.mutatedBase == counts[n].toSequence
        && r.value.indexOfMutatedBase == n
        && r.value.frequencyOfMutation == dir.value.somaticFrequency
    {
      var numSamples := |record.samples|;
      dir, fMutCount, bMutCount := None, 0, 0;
      if numSamples == 0 {
        // the last sample, at index -1, does not exist
        return Failure(IndexOutOfBounds), dir, fMutCount, bMutCount;
      }
      var baseBuild := WithRoles(record, makeSomatic);
      if !makeSomatic {
        return Success(baseBuild), dir, fMutCount, bMutCount;
      }
      var somatic := baseBuild.samples[numSamples - 1];
      var counts := somatic.counts;
      assert counts == Last(record.samples).counts;
      var d, result, f, b := MutateCounts(counts);
      dir, fMutCount, bMutCount := d, f, b;
      if d.None? {
        return Success(baseBuild), dir, fMutCount, bMutCount;
      }
      if result.Failure? {
        return Failure(result.error), dir, fMutCount, bMutCount;
      }
      var somaticBuild := somatic.(counts := result.value);
      r := Success(baseBuild.(samples := baseBuild.samples[numSamples - 1 := somaticBuild],
                              mutatedBase := somatic.counts[d.value.newBase].toSequence,
                              frequencyOfMutation := d.value.somaticFrequency,
                              indexOfMutatedBase := d.value.newBase));
      assert Last(r.value.samples).counts == result.value;
    }
  }
}
