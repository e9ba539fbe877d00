/** Zygosity classification and the rules a mutation direction obeys. */
module Zygosity {
  import opened Randomness

  /** Allele index of the "N" (unknown base) class, never chosen as a destination. */
  const Unknown := 4

  function Sum(c: seq<int>): int {
    if |c| == 0 then 0 else Sum(c[..|c| - 1]) + c[|c| - 1]
  }

  /** State of the single left-to-right scan over per-allele counts. */
  datatype ScanResult = ScanResult(maxIdx: int, secondIdx: int, maxCount: int, secondCount: int, total: int)

  /** The scan, as a fold from the left: a count above the running maximum demotes the
      maximum to second place; otherwise a count above the running second replaces it.
      Both running values start at 0, so an allele without reads is never selected. */
  function Scan(c: seq<int>): (r: ScanResult)
    ensures -1 <= r.maxIdx < |c| && -1 <= r.secondIdx < |c|
    ensures r.maxCount == (if r.maxIdx == -1 then 0 else c[r.maxIdx])
    ensures r.secondCount == (if r.secondIdx == -1 then 0 else c[r.secondIdx])
    ensures r.total == Sum(c)
  {
    if |c| == 0 then ScanResult(-1, -1, 0, 0, 0)
    else
      var p := Scan(c[..|c| - 1]);
      var x := c[|c| - 1];
      if x > p.maxCount then ScanResult(|c| - 1, p.maxIdx, x, p.maxCount, p.total + x)
      else if x > p.secondCount then ScanResult(p.maxIdx, |c| - 1, p.maxCount, x, p.total + x)
      else p.(total := p.total + x)
  }

  /** `m` is the first index holding the largest count, which is positive; -1 when no count is. */
  ghost predicate IsTopIndex(c: seq<int>, m: int) {
    && (m == -1 <==> forall j :: 0 <= j < |c| ==> c[j] <= 0)
    && (m != -1 ==>
          && 0 <= m < |c| && c[m] > 0
          && (forall j :: 0 <= j < |c| ==> c[j] <= c[m])
          && (forall j :: 0 <= j < m ==> c[j] < c[m]))
  }

  /** `s` is the first index, other than `m`, holding the largest positive count among
      the indices other than `m`; -1 when no other index has a positive count. */
  ghost predicate IsRunnerUpIndex(c: seq<int>, m: int, s: int) {
    && (s == -1 <==> forall j :: 0 <= j < |c| && j != m ==> c[j] <= 0)
    && (s != -1 ==>
          && 0 <= s < |c| && s != m && c[s] > 0
          && (forall j :: 0 <= j < |c| && j != m ==> c[j] <= c[s])
          && (forall j :: 0 <= j < s && j != m ==> c[j] < c[s]))
  }

  /** The scan's maximum is the first index holding the largest positive count. */
  lemma {:induction false} ScanFindsTop(c: seq<int>)
    ensures IsTopIndex(c, Scan(c).maxIdx)
  {
    if |c| > 0 {
      var q := c[..|c| - 1];
      ScanFindsTop(q);
      assert forall j :: 0 <= j < |q| ==> q[j] == c[j];
    }
  }

  /** The scan's second index is the runner-up beside the maximum. */
  lemma {:induction false} ScanFindsRunnerUp(c: seq<int>)
    ensures IsRunnerUpIndex(c, Scan(c).maxIdx, Scan(c).secondIdx)
  {
    if |c| > 0 {
      var q := c[..|c| - 1];
      ScanFindsTop(q);
      ScanFindsRunnerUp(q);
      assert forall j :: 0 <= j < |q| ==> q[j] == c[j];
      var p, x := Scan(q), c[|c| - 1];
      if x > p.maxCount {
        assert Scan(c) == ScanResult(|c| - 1, p.maxIdx, x, p.maxCount, p.total + x);
      } else if x > p.secondCount {
        assert Scan(c) == ScanResult(p.maxIdx, |c| - 1, p.maxCount, x, p.total + x);
      } else {
        assert Scan(c).maxIdx == p.maxIdx && Scan(c).secondIdx == p.secondIdx;
      }
    }
  }

  /** Two indices satisfying the top/runner-up descriptions are the ones the scan finds. */
  lemma {:induction false} TopTwoUnique(c: seq<int>, m: int, s: int)
    requires IsTopIndex(c, m) && IsRunnerUpIndex(c, m, s)
    ensures m == Scan(c).maxIdx && s == Scan(c).secondIdx
  {
    ScanFindsTop(c);
    ScanFindsRunnerUp(c);
  }

  /** The site is treated as homozygous when no second allele has reads, or when the
      second allele's count stays below the heuristic fraction of all reads. */
  predicate Monozygotic(zygHeuristic: real, c: seq<int>) {
    var r := Scan(c);
    r.secondIdx == -1 || HeuristicShare(zygHeuristic, r.total) > c[r.secondIdx] as real
  }

  /** The classification in terms of the site's own counts: homozygous exactly when no
      allele besides the top one has reads, or when the heuristic fraction of all reads
      exceeds the runner-up's count. */
  lemma {:induction false} MonozygoticCharacterised(zygHeuristic: real, c: seq<int>, m: int, s: int)
    requires IsTopIndex(c, m) && IsRunnerUpIndex(c, m, s)
    ensures Monozygotic(zygHeuristic, c) <==>
              s == -1 || HeuristicShare(zygHeuristic, Sum(c)) > c[s] as real
  {
    TopTwoUnique(c, m, s);
  }

  /** The heuristic fraction of all reads at the site. */
  function HeuristicShare(zygHeuristic: real, total: int): real {
    zygHeuristic * (total as real)
  }

  /** The mutation rate lo + (hi - lo) * u for a uniform draw u. */
  function Rate(lo: real, hi: real, u: real): real {
    lo + (hi - lo) * u
  }

  /** Where reads move from and to, the per-read rate, and the nominal frequency. */
  datatype MutationDirection = MutationDirection(oldBase: int, newBase: int, delta: real, somaticFrequency: real)

  /** `f` is lo + (hi - lo) * u for some u in [0, 1). */
  predicate DrawnBetween(f: real, lo: real, hi: real) {
    if lo == hi then f == lo else 0.0 <= (f - lo) / (hi - lo) < 1.0
  }

  /** The rate formula lo + (hi - lo) * u with u drawn from [0, 1) lies between the bounds. */
  lemma RateIsDrawnBetween(lo: real, hi: real, u: real)
    requires 0.0 <= u < 1.0
    ensures DrawnBetween(Rate(lo, hi, u), lo, hi)
    ensures lo != hi ==> (Rate(lo, hi, u) - lo) / (hi - lo) == u
  {
    if lo != hi {
      assert (Rate(lo, hi, u) - lo) / (hi - lo) == u;
    }
  }

  /** The indices a destination must avoid: the source, the other allele of a
      heterozygous site (`other`, -1 when there is none), "N" and the reference. */
  function Forbidden(source: int, other: int, referenceBase: int): set<int> {
    {source, other, Unknown, referenceBase}
  }

  /** Every direction the selector can return for these counts and settings. */
  ghost predicate DirectionAllowed(c: seq<int>, referenceBase: int, zygHeuristic: real,
                                   deltaSmall: real, deltaBig: real, d: MutationDirection)
  {
    var r := Scan(c);
    && r.maxIdx != -1
    && DrawnBetween(d.somaticFrequency, deltaSmall, deltaBig)
    && 0 <= d.newBase < |c|
    && if Monozygotic(zygHeuristic, c) then
         && d.oldBase == r.maxIdx
         && (d.delta == d.somaticFrequency / 2.0 || d.delta == d.somaticFrequency)
         && d.newBase !in Forbidden(d.oldBase, -1, referenceBase)
       else
         && r.secondIdx != -1
         && d.delta == d.somaticFrequency
         && ((d.oldBase == r.maxIdx && d.newBase !in Forbidden(d.oldBase, r.secondIdx, referenceBase))
             || (d.oldBase == r.secondIdx && d.newBase !in Forbidden(d.oldBase, r.maxIdx, referenceBase)))
  }

  /** The rejection sampling for the destination can succeed: some allele lies outside
      the forbidden set of the branch the classification takes. */
  predicate DestinationAvailable(c: seq<int>, referenceBase: int, zygHeuristic: real) {
    var r := Scan(c);
    || r.maxIdx == -1
    || (Monozygotic(zygHeuristic, c) && HasIndexOutside(|c|, Forbidden(r.maxIdx, -1, referenceBase)))
    || (!Monozygotic(zygHeuristic, c)
        && HasIndexOutside(|c|, Forbidden(r.maxIdx, r.secondIdx, referenceBase))
        && HasIndexOutside(|c|, Forbidden(r.secondIdx, r.maxIdx, referenceBase)))
  }

  /** Whatever direction is chosen, its source allele has reads, it differs from its
      destination, and both are alleles of the site. */
  lemma {:induction false} SourceHasReads(c: seq<int>, referenceBase: int, zygHeuristic: real,
                       deltaSmall: real, deltaBig: real, d: MutationDirection)
    requires DirectionAllowed(c, referenceBase, zygHeuristic, deltaSmall, deltaBig, d)
    ensures 0 <= d.oldBase < |c| && c[d.oldBase] > 0
    ensures 0 <= d.newBase < |c| && d.newBase != d.oldBase
    ensures d.newBase != Unknown && d.newBase != referenceBase
  {
    ScanFindsTop(c);
    ScanFindsRunnerUp(c);
  }

  /** In the heterozygous branch the source is one of the two top alleles and the
      destination is neither of them. */
  lemma {:induction false} HeterozygousAvoidsBothAlleles(c: seq<int>, referenceBase: int, zygHeuristic: real,
                                      deltaSmall: real, deltaBig: real, d: MutationDirection)
    requires DirectionAllowed(c, referenceBase, zygHeuristic, deltaSmall, deltaBig, d)
    requires !Monozygotic(zygHeuristic, c)
    ensures d.oldBase in {Scan(c).maxIdx, Scan(c).secondIdx}
    ensures d.newBase != Scan(c).maxIdx && d.newBase != Scan(c).secondIdx
    ensures Scan(c).maxIdx != Scan(c).secondIdx
  {
    ScanFindsTop(c);
    ScanFindsRunnerUp(c);
  }

  /** With the standard five alleles (four bases and "N"), some destination always
      remains, whatever the two alleles and the reference are. */
  lemma FiveAllelesLeaveADestination(n: int, a: int, b: int, referenceBase: int)
    requires n >= 5
    ensures HasIndexOutside(n, Forbidden(a, b, referenceBase))
  {
    var f := Forbidden(a, b, referenceBase);
    if 0 !in f { assert 0 <= 0 < n; }
    else if 1 !in f { assert 0 <= 1 < n; }
    else if 2 !in f { assert 0 <= 2 < n; }
    else { assert 3 !in f && 0 <= 3 < n; }
  }

  /** So with five or more alleles the selector's rejection sampling always succeeds. */
  lemma {:induction false} FiveAllelesSuffice(c: seq<int>, referenceBase: int, zygHeuristic: real)
    requires |c| >= 5
    ensures DestinationAvailable(c, referenceBase, zygHeuristic)
  {
    var r := Scan(c);
    FiveAllelesLeaveADestination(|c|, r.maxIdx, -1, referenceBase);
    FiveAllelesLeaveADestination(|c|, r.maxIdx, r.secondIdx, referenceBase);
    FiveAllelesLeaveADestination(|c|, r.secondIdx, r.maxIdx, referenceBase);
  }

  /** A site whose reads all show one allele is homozygous for it, with no second allele. */
  lemma SingleAlleleIsMonozygotic(zygHeuristic: real)
    ensures Scan([100, 0, 0, 0, 0]).maxIdx == 0 && Scan([100, 0, 0, 0, 0]).secondIdx == -1
    ensures Monozygotic(zygHeuristic, [100, 0, 0, 0, 0])
  {
    var c := [100, 0, 0, 0, 0];
    assert IsTopIndex(c, 0) && IsRunnerUpIndex(c, 0, -1);
    TopTwoUnique(c, 0, -1);
  }

  /** Counts 60/40 with threshold 0.3 form a heterozygous site (0.3 * 100 = 30 is not
      above 40); with threshold 0.5 the same site is homozygous (50 > 40). */
  lemma TwoAllelesClassification()
    ensures Scan([60, 40, 0, 0, 0]).maxIdx == 0 && Scan([60, 40, 0, 0, 0]).secondIdx == 1
    ensures !Monozygotic(0.3, [60, 40, 0, 0, 0])
    ensures Monozygotic(0.5, [60, 40, 0, 0, 0])
  {
    var c := [60, 40, 0, 0, 0];
    TopTwoUnique(c, 0, 1);
    assert c[..1] == [60] && c[..2] == [60, 40] && c[..3] == [60, 40, 0] && c[..4] == [60, 40, 0, 0];
    assert c[..2][..1] == c[..1] && c[..3][..2] == c[..2] && c[..4][..3] == c[..3] && c[..|c| - 1] == c[..4];
    assert c[..1][..0] == [];
    assert Sum(c[..1]) == 60;
    assert Sum(c[..2]) == 100;
    assert Sum(c) == 100;
  }
}
