# Somatic-mutation simulation, modelled in Dafny

This project models `FirstSimulationStrategy`, the strategy the variation-analysis tools use
to turn a paired-sample variant record into a training example of a somatic mutation. Given a
record (a site with samples, each sample with one count entry per allele), the strategy:

1. marks every sample but the last as non-tumor, the last as tumor, and sets the record's
   `mutated` flag;
2. when asked to make the site somatic, sums the forward and reverse read counts of the last
   sample per allele, classifies the site as homozygous ("monozygotic") or heterozygous from
   the largest and second-largest counts, and draws a mutation direction: a source allele,
   a destination allele that is neither the source, the other allele of a heterozygous site,
   the "N" allele (index 4) nor the reference allele, a mutation frequency drawn between
   `deltaSmall` and `deltaBig`, and a per-read rate (halved most of the time at a homozygous
   site);
3. runs one Bernoulli trial per source read on each strand, moving each successful read to the
   destination allele;
4. moves per-read annotation entries from the source allele's lists to the destination's,
   after shuffling: as many quality scores and read indices as reads moved on each strand,
   but only as many variation counts and insert sizes as reads moved on the forward strand;
   then rebuilds the record with the mutated base, its index and the frequency.

The files:

- `records.dfy` (module `Records`): the record, sample, count and annotation values, the
  per-strand and summed count views, and the reference-allele rule.
- `randomness.dfy` (module `Randomness`): the pseudorandom stream as an oracle object (`Rng`)
  and the mutable integer list (`IntList`) the list operations work on.
- `zygosity.dfy` (module `Zygosity`): the count scan, the zygosity classification, the
  direction rules and their lemmas.
- `redistribution.dfy` (module `Redistribution`): what moving reads and annotation entries does,
  as predicates, with the conservation lemmas.
- `simulation.dfy` (module `Simulation`): the strategy as a class with its fields, and its
  operations as methods with loops over arrays and lists, each proved against the predicates
  above.

Randomness is modelled as an oracle. Each draw may return any value in its documented range
(`[0, 1)` for a double, any permutation for a shuffle). The `Rng` object records its seed and
how many values it has served. So every property below holds for every possible stream.

## Model

| member | source | states |
|---|---|---|
| Records.ReferenceIndex | somatic/src/main/java/org/campagnelab/dl/somatic/intermediaries/FirstSimulationStrategy.java:197-207 | the reference allele is the last one flagged as matching the reference, and -1 exactly when none is flagged |
| Records.WithRoles | somatic/src/main/java/org/campagnelab/dl/somatic/intermediaries/FirstSimulationStrategy.java:180-186 | all samples but the last become non-tumor, the last becomes tumor, `mutated` is set, nothing else changes |
| Zygosity.Scan | somatic/src/main/java/org/campagnelab/dl/somatic/intermediaries/FirstSimulationStrategy.java:88-106 | the scan's indices are in range or -1, its running maxima are the counts at those indices, its total is the sum of the counts |
| Zygosity.ScanFindsTop | somatic/src/main/java/org/campagnelab/dl/somatic/intermediaries/FirstSimulationStrategy.java:95-106 | the scan's maximum index is the first index holding the largest count, which is positive, and -1 exactly when no count is positive |
| Zygosity.ScanFindsRunnerUp | somatic/src/main/java/org/campagnelab/dl/somatic/intermediaries/FirstSimulationStrategy.java:95-106 | the scan's second index is the first index other than the maximum holding the largest positive count among the others, and -1 exactly when no other count is positive |
| Zygosity.TopTwoUnique | somatic/src/main/java/org/campagnelab/dl/somatic/intermediaries/FirstSimulationStrategy.java:95-106 | any pair of indices meeting the top and runner-up descriptions is the pair the scan finds |
| Zygosity.MonozygoticCharacterised | somatic/src/main/java/org/campagnelab/dl/somatic/intermediaries/FirstSimulationStrategy.java:111-118 | the site is homozygous exactly when there is no runner-up or the heuristic fraction of all reads exceeds the runner-up's count |
| Zygosity.SingleAlleleIsMonozygotic | somatic/src/main/java/org/campagnelab/dl/somatic/intermediaries/FirstSimulationStrategy.java:111-114 | counts 100/0/0/0/0 have top index 0, no runner-up, and are homozygous for any threshold |
| Zygosity.TwoAllelesClassification | somatic/src/main/java/org/campagnelab/dl/somatic/intermediaries/FirstSimulationStrategy.java:115-118 | counts 60/40/0/0/0 are heterozygous at threshold 0.3 and homozygous at 0.5 |
| Zygosity.RateIsDrawnBetween | somatic/src/main/java/org/campagnelab/dl/somatic/intermediaries/FirstSimulationStrategy.java:121-122 | the drawn rate `deltaSmall + (deltaBig - deltaSmall) * u` with `u` in [0, 1) lies between the bounds, at fraction exactly `u` when they differ |
| Zygosity.SourceHasReads | somatic/src/main/java/org/campagnelab/dl/somatic/intermediaries/FirstSimulationStrategy.java:127-159 | every allowed direction has a source allele with reads, and a destination in range that is neither the source, "N" nor the reference |
| Zygosity.HeterozygousAvoidsBothAlleles | somatic/src/main/java/org/campagnelab/dl/somatic/intermediaries/FirstSimulationStrategy.java:148-159 | at a heterozygous site the source is one of the two top alleles, these differ, and the destination is neither of them |
| Zygosity.FiveAllelesLeaveADestination | somatic/src/main/java/org/campagnelab/dl/somatic/intermediaries/FirstSimulationStrategy.java:140-159 | with five or more alleles, some index lies outside any four-element forbidden set |
| Zygosity.FiveAllelesSuffice | somatic/src/main/java/org/campagnelab/dl/somatic/intermediaries/FirstSimulationStrategy.java:140-159 | with five or more alleles the rejection sampling always has an index to accept, whatever the counts |
| Redistribution.Increment | somatic/src/main/java/org/campagnelab/dl/somatic/intermediaries/FirstSimulationStrategy.java:400-403 | the shift is +1 exactly when the read leaves the reference allele for another, -1 exactly when it enters it, and 0 otherwise |
| Redistribution.TransferKeepsTotal | somatic/src/main/java/org/campagnelab/dl/somatic/intermediaries/FirstSimulationStrategy.java:223-248 | moving reads between two alleles leaves a strand's total over all alleles unchanged |
| Redistribution.SplitRedistributes | somatic/src/main/java/org/campagnelab/dl/somatic/intermediaries/FirstSimulationStrategy.java:389-396 | taking the first `k` entries of a permutation of the source (shifted) onto the destination and keeping the rest is a redistribution: old destination as prefix, remaining plus moved entries (shift undone) equal the source as a multiset |
| Redistribution.RedistributedKeepsEntries | somatic/src/main/java/org/campagnelab/dl/somatic/intermediaries/FirstSimulationStrategy.java:389-396 | an unshifted redistribution keeps the multiset of source and destination entries together |
| Redistribution.MutationConservesReads | somatic/src/main/java/org/campagnelab/dl/somatic/intermediaries/FirstSimulationStrategy.java:223-248 | after a mutation each strand's total is unchanged, the source and destination's combined count per strand is unchanged, and the source lost exactly `fMutCount` forward and `bMutCount` reverse reads |
| Redistribution.StrandListsFollowCounts | somatic/src/main/java/org/campagnelab/dl/somatic/intermediaries/FirstSimulationStrategy.java:283-312 | when source and destination hold one quality score and one read index per read on each strand, every family that moves still does so afterwards |
| Redistribution.ListsInStepFit | somatic/src/main/java/org/campagnelab/dl/somatic/intermediaries/FirstSimulationStrategy.java:253-312 | a source allele with one quality score and one read index per read on each strand, and at least one variation count and insert size per forward read, never makes a guarded annotation move fail, whatever counts it gives up |
| Redistribution.UnsplitListsFollowForwardOnly | somatic/src/main/java/org/campagnelab/dl/somatic/intermediaries/FirstSimulationStrategy.java:257-274 | the source's variation-count and insert-size lists lose exactly `fMutCount` entries while the allele loses `fMutCount + bMutCount` reads |
| Redistribution.VariationCountsFallOutOfStep | somatic/src/main/java/org/campagnelab/dl/somatic/intermediaries/FirstSimulationStrategy.java:257-263 | a concrete mutation moving one reverse read leaves the source with no read and one variation count |
| Simulation.RebuildCounts | somatic/src/main/java/org/campagnelab/dl/somatic/intermediaries/FirstSimulationStrategy.java:319-373 | the rebuilt allele list carries the strand arrays' counts, the new lists at source and destination, and every other field and allele as before |
| Simulation.RebuildMovesReads | somatic/src/main/java/org/campagnelab/dl/somatic/intermediaries/FirstSimulationStrategy.java:319-373 | rebuilding from transferred strand counts and moved annotation lists yields exactly the mutation `CountsMoved` describes, with no negative count |
| Simulation.FirstSimulationStrategy.constructor | somatic/src/main/java/org/campagnelab/dl/somatic/intermediaries/FirstSimulationStrategy.java:22-24 | the bounds, the heuristic and the seed are stored and a fresh stream starts from the seed |
| Simulation.FirstSimulationStrategy.Setup | somatic/src/main/java/org/campagnelab/dl/somatic/intermediaries/FirstSimulationStrategy.java:27-34 | the same reconfiguration on an existing strategy; the canonical threshold is ignored |
| Simulation.FirstSimulationStrategy.SetSeed | somatic/src/main/java/org/campagnelab/dl/somatic/intermediaries/FirstSimulationStrategy.java:385-387 | a fresh stream starts from the new seed; the stored `seed` field and the other settings keep their values |
| Simulation.FirstSimulationStrategy.ScanCounts | somatic/src/main/java/org/campagnelab/dl/somatic/intermediaries/FirstSimulationStrategy.java:88-106 | the scan loop returns the top index, the runner-up index and the sum of the counts |
| Simulation.FirstSimulationStrategy.DirFromCounts | somatic/src/main/java/org/campagnelab/dl/somatic/intermediaries/FirstSimulationStrategy.java:87-166 | no direction exactly when no allele has reads (and then nothing is drawn); otherwise the direction obeys the rules: homozygous source is the top allele with rate equal to the frequency or half of it; heterozygous source is one of the two top alleles with rate equal to the frequency; the destination avoids the forbidden set; the frequency is drawn between the bounds; a direction draws at least three values |
| Simulation.FirstSimulationStrategy.MoveReads | somatic/src/main/java/org/campagnelab/dl/somatic/intermediaries/FirstSimulationStrategy.java:223-248 | the strand array after the trials is the old one with `mutCount` reads moved from source to destination, `0 <= mutCount <=` the source's old count, none move at rate 0 or below, all move at rate 1 or above, and one value is drawn per source read |
| Simulation.FirstSimulationStrategy.MutateIntegerLists | somatic/src/main/java/org/campagnelab/dl/somatic/intermediaries/FirstSimulationStrategy.java:389-396 | the source is permuted, its first `k` entries are appended to the destination and the rest become the source; fails when `k` exceeds the source's length, leaving the source shuffled and the destination as it was |
| Simulation.FirstSimulationStrategy.MutateIntegerListsVarAdd | somatic/src/main/java/org/campagnelab/dl/somatic/intermediaries/FirstSimulationStrategy.java:399-415 | as above, with every appended entry shifted by the increment and the old destination untouched as prefix; the same failure case |
| Simulation.FirstSimulationStrategy.RedistributeList | somatic/src/main/java/org/campagnelab/dl/somatic/intermediaries/FirstSimulationStrategy.java:255-274 | moving `k` entries of one annotation family succeeds exactly when the source holds at least `k`, and then is a redistribution |
| Simulation.FirstSimulationStrategy.RedistributeAnnotations | somatic/src/main/java/org/campagnelab/dl/somatic/intermediaries/FirstSimulationStrategy.java:253-315 | all guarded moves succeed exactly when every guarded source list is long enough; then each family is redistributed, or emptied at both alleles when its guard fails |
| Simulation.FirstSimulationStrategy.ReadCounts | somatic/src/main/java/org/campagnelab/dl/somatic/intermediaries/FirstSimulationStrategy.java:191-207 | the three arrays hold the forward, reverse and summed counts per allele, and the reference index is the last flagged allele |
| Simulation.FirstSimulationStrategy.ApplyDirection | somatic/src/main/java/org/campagnelab/dl/somatic/intermediaries/FirstSimulationStrategy.java:215-373 | the moved counts always obey `MoveCountsDrawn`: at most the source's reads on each strand, none at rate 0 or below, all at rate 1 or above; succeeds exactly when the annotation moves fit, and then the allele list is the mutation `CountsMoved` describes; the random stream only moves forward |
| Simulation.FirstSimulationStrategy.MutateCounts | somatic/src/main/java/org/campagnelab/dl/somatic/intermediaries/FirstSimulationStrategy.java:191-373 | the somatic sample's counts: unchanged, with nothing drawn, when no allele has reads; otherwise an allowed direction is applied, the moved counts obey `MoveCountsDrawn` (bounded by the source's reads, none or all at the extreme rates), and it fails exactly when a move does not fit; the random stream only moves forward |
| Simulation.FirstSimulationStrategy.Mutate | somatic/src/main/java/org/campagnelab/dl/somatic/intermediaries/FirstSimulationStrategy.java:174-382 | a record without samples fails; otherwise roles and the mutated flag are always set; without `makeSomatic` or without reads nothing else changes and nothing is drawn; otherwise the last sample's counts move along an allowed direction, the moved counts obey `MoveCountsDrawn`, it fails exactly when an annotation move does not fit, and on success the mutated base, its index and the frequency are recorded; the random stream only moves forward |
| Randomness.Rng.constructor | somatic/src/main/java/org/campagnelab/dl/somatic/intermediaries/FirstSimulationStrategy.java:29 | a stream seeded with the given seed, nothing drawn yet |
| Randomness.Rng.NextDouble | somatic/src/main/java/org/campagnelab/dl/somatic/intermediaries/FirstSimulationStrategy.java:121 | a draw in [0, 1), counting one draw |
| Randomness.Rng.NextBoolean | somatic/src/main/java/org/campagnelab/dl/somatic/intermediaries/FirstSimulationStrategy.java:149 | a coin, counting one draw |
| Randomness.Rng.NextIntOutside | somatic/src/main/java/org/campagnelab/dl/somatic/intermediaries/FirstSimulationStrategy.java:140-147 | the accepted index of a rejection loop: in range and outside the forbidden set, after at least one draw |
| Randomness.Rng.Shuffle | somatic/src/main/java/org/campagnelab/dl/somatic/intermediaries/FirstSimulationStrategy.java:390 | the list becomes a permutation of itself |
| Randomness.IntList.constructor | somatic/src/main/java/org/campagnelab/dl/somatic/intermediaries/FirstSimulationStrategy.java:392 | a list holding the given entries |
| Randomness.IntList.AddAll | somatic/src/main/java/org/campagnelab/dl/somatic/intermediaries/FirstSimulationStrategy.java:391 | the entries are appended |
| Randomness.IntList.Set | somatic/src/main/java/org/campagnelab/dl/somatic/intermediaries/FirstSimulationStrategy.java:409 | one entry is replaced |
| Randomness.IntList.Clear | somatic/src/main/java/org/campagnelab/dl/somatic/intermediaries/FirstSimulationStrategy.java:393 | the list becomes empty |

## Left out

- The XorShift1024* generator is not modelled. The stream is an oracle, so nothing about reproducibility from a seed, or about the distribution of the draws, is stated. That covers the uniformity of the shuffle, the coin and the Bernoulli trials.
- Randomness.Rng.NextIntOutside: the number of rejected draws is left unconstrained (only "at least one"). Termination of the rejection loops is not proved; that an acceptable index exists is a precondition (`DestinationAvailable`), which `Zygosity.FiveAllelesSuffice` discharges for five or more alleles.
- Randomness.Rng.Shuffle: states only that the result is a permutation and how many draws are used, not which permutation.
- Doubles are modelled as reals: rounding in `deltaSmall + (deltaBig - deltaSmall) * u`, in `delta / 2` and in `zygHeuristic * total` is not captured, and neither is the `(float)` cast of the frequency.
- Java `int` overflow of the count sum and of the per-allele sums is not modelled; counts are unbounded.
- Annotation lists are kept in expanded form, one entry per read. The expansion and compression of value/frequency lists (`ProtoPredictor.expandFreq`, `ProtoHelper.compressFreq`) are the identity in the model, so a compressed list is non-empty exactly when its expansion is.
- The sample's formatted counts, regenerated through `Mutate.regenerateFormattedCounts`, are not part of the model, and neither are the other fields of the record, sample and count messages.
- Simulation.FirstSimulationStrategy.Mutate: the `germlineSample`, `otherSample` and `sim` arguments are unused by the code and are omitted. The `assert referenceBase != -1` is a precondition that applies when `makeSomatic` holds. A sub-list past the end of a list, and the last sample of a record without samples, both throw in the code and are the `Failure(IndexOutOfBounds)` result. That case is reachable because the insert-size move is guarded by the variation-count list, and because the moved counts do not have to match the annotation-list lengths.
- Simulation.FirstSimulationStrategy.MutateIntegerLists and MutateIntegerListsVarAdd: on failure the source list is left shuffled and the destination unchanged, matching the point at which the code throws. The caller then abandons the whole record.
- The no-argument constructor, which leaves the stream unset, is not modelled. `numberOfSamplesSupported`, which only returns the constant 2 for callers, is not modelled. The `STRING` table and the local tallies `changedCount`, `germlineCount` and `sumCount` are unused by the code's result and are omitted.
- Redistribution.AnnotationsMoved: does not keep every annotation list in step with the read counts, because the code does not. Variation counts and insert sizes move `fMutCount` entries only (`Redistribution.UnsplitListsFollowForwardOnly`, witnessed by `Redistribution.VariationCountsFallOutOfStep`), and a failed guard empties both alleles' lists. Only the quality-score and read-index families that move are proved to stay in step (`Redistribution.StrandListsFollowCounts`).
- The `SimulationStrategy` interface, the file tools, printers, feature mappers and the trio test are not part of this model.
