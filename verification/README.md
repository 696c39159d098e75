# KV-cache tiering: a verified model

The repository manages the key/value cache of a language-model server. A tracker holds one entry per cache block; an
engine repeatedly takes a snapshot of the tracker, asks a policy what to do with every block (keep on the GPU, quantise,
offload to host memory, evict), carries the decisions out and writes telemetry. Beside it stand the tools that judge the
outcome: text-similarity scores and a Pareto frontier of benchmark results.

This project models that logic in Dafny and proves what it does over all inputs and all runs.
`dafny verify dfyconfig.toml` checks everything.

## Parts

* **Text scores.** `EditDistance` and `CommonSubsequence` prove the two in-place dynamic programs against what they
  are for: the cheapest edit script and the longest common subsequence. Then come the laws of a metric, the bounds
  between the two, and in `QualityMetrics` the scores built on them, and in `BatchEvaluation`, for any way of scoring,
  the report of a batch. `Words` is Python's splitting, joining and stripping.
* **Sorting and selecting.** `Sorting` is Python's stable `sorted()`, pinned down as the only ordered rearrangement
  that keeps ties; `Selection` is the sort-slice-collect-ids pattern every policy uses.
* **Tracker, policies, engine.** `Schema` holds the values. `Policies` gives what each `decide()` returns as
  functions, `Effects` what carrying out a list of decisions does, and `TrackerModel` the state machine: the tracked
  blocks in dict order, eleven kinds of event, and runs of events. `BlockTracker`, `PolicyObjects` and `PolicyEngine`
  are the classes that change state in place and each method is proved to take the corresponding step; `Promises` is
  what a caller of `decide()` may rely on.
* **What runs keep.** `TrackerInvariants` (ids, tiers, attention statistics, memory), `Sinks` and `SinkSafety` (when
  sinks are lost under policies that are swapped freely), `DecisionOrder` (the order of decisions and what depends on
  it), `HeavyHitterRuns`, `LruRuns`, `WindowFacts`, `OffloadFacts`, `HybridFacts`, `QuantizeFacts`, `PressureFacts`,
  `ScoreRange`, and in `ScoreLaws` what the scores are made of. `Outcomes` and `Iteration` hold what these share,
  `Numbers` and `Fractions` the arithmetic.
* **Telemetry and tools.** `TelemetryModel` and `Collector` (a buffer whose writes may fail), `EngineTelemetry` (the
  rows of a policy cycle), `Pareto`, `Features` (attention rank and the heavy-hitter flag).

A tracker method holds its lock from beginning to end and a policy cycle never yields to other tasks, so each is one step.
The engine's free GPU memory is a placeholder equal to zero in the code; here it is a parameter of the cycle, and the results
hold for every value. Randomness and the outside world enter as parameters: the answer of a learned model is an arbitrary
sequence of numbers or an exception, a storage write succeeds or fails arbitrarily.

## Findings

Points where the code does something a reader of its comments would not expect. The model follows the code.

* KEEP_GPU sets the tier to full precision. A block that quantise-only finds quantised is decided KEEP_GPU as "already
  quantized" and thereby promoted, and the next cycle quantises it again: `QuantizeFacts.PeriodTwo` and
  `QuantizeFacts.TierFlipsIffLow` say for which blocks. For the same reason every policy below its threshold
  restores all blocks to full precision (`PressureFacts.LowPressureRestoresAll`).
* With no free memory reported, pressure is 1 as soon as one byte is on the GPU, else 0 (`PressureFacts.PlaceholderPressure`).
* `decide()` is documented to return decisions in the order of the blocks. Offload-only under pressure returns them in score
  order, which is the order of the blocks exactly when no block has positive attention or the snapshot is ascending in
  attention (`DecisionOrder.DecidesInOrderIff`); `DecisionOrder.OffloadTurnsAround` is a snapshot of two blocks that comes
  back reversed. The tracker does not notice (`Effects.DecisionOrderIsIrrelevant`); the telemetry rows of the cycle are the
  same rows in the order of the decisions (`DecisionOrder.RowsOfPermutation`, `EngineTelemetry.CycleTelemetry`).
* `update_tier` accepts the evicted tier for a block that stays tracked, and is the only way to get there
  (`TrackerInvariants.StepKeepsStored`, `RunKeepsStored`). Memory accounting is then still at least int8 for every block
  exactly when no more blocks are labelled so than hold fp16 data (`TrackerInvariants.MemoryBounds`);
  `OutsideEvictionBreaksTheBound` is a run where it is not.
* The sinks survive an event exactly under the conditions of `SinkSafety.Respects`: a new id is above all sinks or there is
  room for another sink, nobody evicts or releases a sink by hand, and the policy of a cycle spares them. When it does is
  said exactly, policy by policy and for any number of sinks it was set to protect, in `Sinks.PolicySpares`: always if it
  was set to protect as many, never evicts, or rests at low pressure; else when the sinks are among the blocks it keeps, and
  for the full-cache baseline, which knows no sinks, when none is among the least recently used. `FullCacheEvictsASink`,
  `WindowEvictsASink` and `LowerIdDisplacesASink` are inputs that fail.
* A block outside sinks and heavy hitters gets a better tier at high than at medium pressure exactly when its score lies
  between the offload threshold and half of it, quantisation is off and offloading on (`HybridFacts.HighAtMostMedium`). Such
  a score is negative, so it takes negative attention; `HybridFacts.HighCanBeKinder` is a snapshot.
* The recency cut-off at zero takes effect for accesses at negative steps, except next to a latest step that is not positive
  (`ScoreRange.RecencyInUnit`); `ScoreRange.NegativeStepIsCutOff` is one.
* Exact match never exceeds ROUGE-L except on a pair of texts without tokens, where ROUGE-L is 0 and exact match 1
  (`QualityMetrics.ExactMatchBelowRougeL`), such as two empty texts (`QualityMetrics.EmptyTexts`).
* The list of attentions that the rank and heavy-hitter features search is narrowed to 32-bit floats, and the attention of
  the block looked up in it is not, so a block need not find itself. The rank, documented as the share of blocks with lower
  attention, is the share whose narrowed attention is lower (`Features.RankIsShareBelow`): a lone block of attention 0.7 has
  rank 1. A lone block of attention 0.1 is no heavy hitter, while the oracle keeps it (`Features.RoundingShows`). All blocks
  that the oracle keeps as heavy hitters are flagged exactly when the last of them was not rounded up
  (`Features.OracleChoicesAreFlaggedIff`), and others are flagged exactly when they reach its narrowed attention
  (`Features.FlaggedButNotChosenIff`).
* `get_candidate_blocks` promises snapshot copies and returns the live objects.
* A frontier over results none of which has both metrics ends in a lookup error, because the empty frame has no column to
  sort by (`Pareto.ParetoAnalyzer.ComputeParetoFrontier`).
* A learned policy without a model leaves its statistics on an inner object, so a cycle of the engine returns, and puts
  into its history, whatever statistics the policy had before (`PolicyObjects.Policy.Decide`,
  `PolicyEngine.Engine.RunPolicyCycle`).

## Model

| member | source | states |
|---|---|---|
| EditDistance.Levenshtein | src/evaluators/quality_metrics.py:210-224 | the one-row program returns the least cost of any script of insertions, deletions and substitutions: some script attains it and none is cheaper |
| EditDistance.Neighbours | src/evaluators/quality_metrics.py:218-222 | neighbouring cells of the table differ by at most one |
| EditDistance.NoneCheaper | src/evaluators/quality_metrics.py:218-222 | no script that turns one text into the other costs less than the recurrence with its greedy diagonal |
| EditDistance.BestScript | src/evaluators/quality_metrics.py:210-224 | a script that turns one text into the other at exactly the computed cost |
| EditDistance.DistanceIsCheapest | src/evaluators/quality_metrics.py:210-224 | the recurrence is the minimum over all scripts |
| EditDistance.ZeroIffEqual | src/evaluators/quality_metrics.py:210-224 | the distance is zero exactly on equal texts |
| EditDistance.Symmetric | src/evaluators/quality_metrics.py:210-224 | the distance does not depend on which text comes first |
| EditDistance.Compose | src/evaluators/quality_metrics.py:210-224 | two scripts run in sequence fuse into one that costs no more than both |
| EditDistance.TriangleInequality | src/evaluators/quality_metrics.py:210-224 | a detour over a third text is never shorter |
| EditDistance.AtMostLonger | src/evaluators/quality_metrics.py:199-224 | the distance lies between the difference and the maximum of the two lengths |
| CommonSubsequence.LcsLength | src/evaluators/quality_metrics.py:184-197 | the two-row program returns the greatest length of a common subsequence |
| CommonSubsequence.FillRow | src/evaluators/quality_metrics.py:190-195 | the inner loop turns the finished row before it into the next row of the table |
| CommonSubsequence.NoneLonger | src/evaluators/quality_metrics.py:184-197 | every common subsequence is at most as long as the recurrence says |
| CommonSubsequence.Witness | src/evaluators/quality_metrics.py:184-197 | a common subsequence of exactly the computed length |
| CommonSubsequence.LcsIsLongest | src/evaluators/quality_metrics.py:184-197 | the recurrence is the maximum over all common subsequences |
| CommonSubsequence.Symmetric | src/evaluators/quality_metrics.py:184-197 | the value does not depend on which sequence comes first |
| CommonSubsequence.AtMostShorter | src/evaluators/quality_metrics.py:184-197 | the value is at most either length |
| CommonSubsequence.FullLengthIffEqual | src/evaluators/quality_metrics.py:184-197 | the value equals both lengths exactly when the sequences are equal |
| CommonSubsequence.AtMostShared | src/evaluators/quality_metrics.py:148-182 | what is shared in order is at most what is shared as multisets, the count token F1 uses |
| CommonSubsequence.DistanceAndLcs | src/evaluators/quality_metrics.py:184-224 | the longer length minus the common subsequence bounds the edit distance from below, both lengths minus twice it from above |
| Words.SplitOfJoin | src/evaluators/quality_metrics.py:135-146 | splitting single-space-joined words gives the words back |
| Words.SplitAtSpace | src/evaluators/quality_metrics.py:135-151 | splitting at white space: the words before any white space, then those after it |
| Words.SplitOfWord | src/evaluators/quality_metrics.py:135-151 | a text without white space is one word, or none |
| Words.StripTakesSpaceOff | src/evaluators/quality_metrics.py:67 | stripping takes white space off both ends and leaves none there |
| Words.SplitOnAtBar | src/evaluators/quality_metrics.py:67 | the pieces before a bar, then those after it |
| Words.StripRight | src/evaluators/quality_metrics.py:67 | the result is the longest part from the front that does not end in white space |
| Words.SplitOn | src/evaluators/quality_metrics.py:67 | the pieces hold no bar, and joined by bars they give the text back |
| QualityMetrics.HarmonicMeanIsShare | src/evaluators/quality_metrics.py:159-165 | the combined score is the share of matched tokens in both texts together |
| QualityMetrics.TokenF1Range | src/evaluators/quality_metrics.py:148-165 | token F1 is in [0, 1], symmetric, and 1 exactly when both texts hold the same tokens equally often |
| QualityMetrics.TokenShare | src/evaluators/quality_metrics.py:148-165 | token F1 is twice the matched tokens over all tokens of both lists, and 1 when there are none |
| QualityMetrics.RougeLRange | src/evaluators/quality_metrics.py:171-182 | ROUGE-L is in [0, 1], symmetric, and 1 exactly when the token lists are equal and not empty |
| QualityMetrics.RougeShare | src/evaluators/quality_metrics.py:171-182 | ROUGE-L is twice the tokens matched in order over all tokens of both lists, and 0 when there are none |
| QualityMetrics.RougeLAtMostTokenF1 | src/evaluators/quality_metrics.py:148-182 | ROUGE-L never exceeds token F1; on non-empty texts they agree exactly when the order loses no match |
| QualityMetrics.EditSimilarityRange | src/evaluators/quality_metrics.py:199-208 | edit similarity is in [0, 1], symmetric, 1 exactly on equal texts, and its special cases agree with the general formula |
| QualityMetrics.RemainingTimesAll | src/evaluators/quality_metrics.py:208 | the part of the longer text that remains is that text less the distance |
| QualityMetrics.SameTextIffSameTokens | src/evaluators/quality_metrics.py:135-169 | normalised texts are equal exactly when their token lists are, whatever the cleaning does |
| QualityMetrics.PerfectPair | src/evaluators/quality_metrics.py:148-208 | edit similarity is 1 exactly when exact match is; exact match forces token F1 to 1; ROUGE-L is 1 exactly when the texts match and have tokens |
| QualityMetrics.ExactMatchBelowRougeL | src/evaluators/quality_metrics.py:167-182 | exact match stays at or below ROUGE-L exactly unless both texts have no tokens |
| QualityMetrics.EmptyTexts | src/evaluators/quality_metrics.py:167-182 | two empty texts have exact match 1 and ROUGE-L 0 |
| QualityMetrics.ScorePair | src/evaluators/quality_metrics.py:148-208 | each metric computed with the loops is the score the laws are about, named metric by metric |
| QualityMetrics.Best | src/evaluators/quality_metrics.py:72-78 | the best score over the alternatives of a reference |
| QualityMetrics.Evaluate | src/evaluators/quality_metrics.py:38-80 | the loop over the batch reports the mean of the best scores of every supported metric asked for, or the length mismatch |
| BatchEvaluation.OneAlternative | src/evaluators/quality_metrics.py:67-69 | a reference without a bar has one alternative, itself stripped |
| BatchEvaluation.AlternativesOfBoth | src/evaluators/quality_metrics.py:67-69 | references joined by a bar have the alternatives of both, blank ones adding none |
| BatchEvaluation.BestIsBest | src/evaluators/quality_metrics.py:71-78 | the score of a pair is that of one alternative, and no alternative scores more |
| BatchEvaluation.OnePairReport | src/evaluators/quality_metrics.py:60-80 | a batch of one pair reports the score of that pair |
| BatchEvaluation.ReportTotals | src/evaluators/quality_metrics.py:60-80 | what a batch reports, as often as it has pairs, is the sum of the scores of its pairs |
| BatchEvaluation.JoinedReport | src/evaluators/quality_metrics.py:60-80 | the reports of two batches, each as often as its batch has pairs, add up to that of the joined batch |
| BatchEvaluation.ReportedMetrics | src/evaluators/quality_metrics.py:60-80 | a report names exactly the supported metrics asked for, and none for an empty batch |
| BatchEvaluation.OrderSurvivesEvaluation | src/evaluators/quality_metrics.py:61-80 | an order between two metrics on every pair survives the maximum over alternatives and the mean over the batch |
| QualityMetrics.PairOrders | src/evaluators/quality_metrics.py:148-208 | on every pair ROUGE-L and exact match stay at or below token F1, exact match at or below edit similarity |
| QualityMetrics.ReportOrder | src/evaluators/quality_metrics.py:38-80 | the same three orders hold between the reported means of any batch |
| QualityMetrics.ReportRange | src/evaluators/quality_metrics.py:38-80 | every reported mean is in [0, 1] |
| Sorting.SortIsOrderedRearrangement | src/cache_policies/heuristic.py:118 | a sorted snapshot is ordered and holds the same elements |
| Sorting.SortIsStable | src/cache_policies/heuristic.py:69 | elements of equal key keep their old order |
| Sorting.SortIsTheOnlyStableOrder | src/cache_policies/heuristic.py:118 | ordered with ties kept is what the sort returns and nothing else is, so the choice of algorithm does not matter |
| Sorting.SortOfFilter | src/cache_policies/heuristic.py:177-189 | dropping elements before or after sorting is the same |
| Selection.TopSelectionSize | src/cache_policies/heuristic.py:177-189 | sorting and slicing selects exactly min(k, n) ids, all of tracked blocks |
| Selection.TopSelectionOrder | src/cache_policies/heuristic.py:177-189 | no selected block ranks behind one left out |
| Outcomes.PortionIsShare | src/cache_policies/heuristic.py:183-187 | max(1, int(n * fraction)) is the whole blocks in that share of n, and one when there is none |
| DecisionLists.DecideOnTrackedBlocks | src/cache_policies/base.py:142-161 | every policy decides at most once per tracked block and about nothing else, and about every block when the model answers for all; the documented order is the subject of DecisionOrder.DecidesInOrderIff |
| DecisionOrder.DecidesInOrderIff | src/cache_policies/base.py:142-161 | the decisions follow the blocks in order exactly unless offload-only acts under pressure on a snapshot with positive attention that is not ascending in it |
| OffloadFacts.OffloadKeepsOrderIff | src/cache_policies/heuristic.py:351-376 | the decisions of offload-only, which come in score order, have the order of the snapshot exactly when that is ascending in attention or no block has positive attention |
| DecisionOrder.OffloadTurnsAround | src/cache_policies/heuristic.py:351-376 | two blocks, the second with less attention, come back in reverse |
| DecisionOrder.RowsOfPermutation | src/cache_policies/policy_engine.py:136-143 | decisions in another order give the same telemetry rows in another order |
| Effects.ApplyIsSettle | src/cache_policies/policy_engine.py:152-167 | carrying decisions out one after the other gives every block its own verdict at once |
| Effects.DecisionOrderIsIrrelevant | src/cache_policies/policy_engine.py:152-167 | any permutation of decisions on distinct blocks leaves the same tracker |
| Effects.ApplyOutcome | src/cache_policies/policy_engine.py:152-167 | the blocks afterwards are exactly those not evicted, with the mapped tier and the score of their decision |
| Effects.ApplyCount | src/cache_policies/policy_engine.py:152-167 | the number of blocks drops by exactly the number of tracked blocks evicted |
| TrackerInvariants.RunKeepsDistinct | src/telemetry/block_tracker.py:45-99 | no run of any events tracks an id twice |
| TrackerInvariants.StepKeepsStored | src/telemetry/block_tracker.py:164-170 | of all events exactly update_tier with the evicted tier and a tracked id leaves a block behind that is tracked and evicted at once |
| TrackerInvariants.RunKeepsStored | src/telemetry/block_tracker.py:101-170 | no state of a run holds a block that is tracked and evicted at once exactly when no event of the run labels a tracked block so |
| TrackerInvariants.AttendedIsSane | src/telemetry/block_tracker.py:116-152 | an attention update with non-negative weights keeps the average between zero and the peak |
| TrackerInvariants.RunKeepsSane | src/telemetry/block_tracker.py:116-162 | so does every run, interleaved with anything else |
| TrackerInvariants.MemoryBounds | src/telemetry/block_tracker.py:223-257 | GPU and host bytes together never exceed all-fp16, and reach all-int8 exactly when at most as many blocks are labelled evicted as hold fp16 data |
| TrackerInvariants.RunMemoryBounds | src/telemetry/block_tracker.py:223-257 | after any run of a tracker that starts empty, for any block geometry, the upper bound holds, and the lower one if no event labelled a tracked block as evicted |
| TrackerInvariants.OutsideEvictionBreaksTheBound | src/telemetry/block_tracker.py:164-170 | a run of two events whose end is below the lower bound |
| Sinks.SinkIffFewBelow | src/cache_policies/hybrid.py:225-228 | a block is a sink exactly when fewer than k tracked ids lie below its own |
| Sinks.SinkStays | src/cache_policies/hybrid.py:225-228 | a sink that is still tracked stays one as long as nothing new appears below it |
| Sinks.DecideKeepsSinks | src/cache_policies/heuristic.py:101-379 | sliding-window, heavy-hitter, quantise-only, offload-only, hybrid and learned policies decide KEEP_GPU on every sink they decide about, at every pressure |
| Sinks.FullCacheSparesIff | src/cache_policies/heuristic.py:65-81 | at high pressure the baseline evicts no sink exactly when no sink is among the least recently used |
| Sinks.PolicySparesIff | src/cache_policies/base.py:142-161 | for every policy, every number of sinks it was set to protect and every pressure: it evicts none of the k smallest ids exactly under its condition in PolicySpares |
| Sinks.ProtectingSpares | src/cache_policies/hybrid.py:225-228 | a policy set to protect at least k sinks meets its condition and decides KEEP_GPU on all of them |
| SinkSafety.RegisterKeepsSinksIff | src/telemetry/block_tracker.py:73-99 | registering takes no sink out exactly when the id is tracked already, fewer than k blocks are tracked, or the id is above all sinks |
| SinkSafety.FilterKeepsSinksIff | src/telemetry/block_tracker.py:320-336 | evicting or releasing by hand leaves the sink set as it is exactly when it drops no sink |
| SinkSafety.StepKeepsSinks | src/cache_policies/policy_engine.py:110-181 | an event takes nobody out of the sinks exactly when it respects them, and only registering brings one in |
| SinkSafety.CycleKeepsSinks | src/cache_policies/policy_engine.py:110-150 | a cycle takes nobody out of the sinks exactly when its policy spares them, then leaves the sink set unchanged, and every sink at full precision when the policy protects as many and a model it asks answers for all blocks |
| SinkSafety.ProtectingCycleKeepsSinks | src/cache_policies/policy_engine.py:110-150 | a cycle of a policy set to protect at least k sinks leaves the sink set unchanged, whatever the pressure and the scores |
| SinkSafety.SinksAreNeverLost | src/cache_policies/policy_engine.py:110-181 | over any run whose events respect the sinks, whatever policies it swaps in, a sink is never evicted, the sink set only grows, and it is final once it has k members |
| SinkSafety.SinksOnlyGrowIff | src/cache_policies/policy_engine.py:110-181 | the conditions are exact: throughout a run no step takes anybody out of the sinks exactly when every event respects them |
| SinkSafety.SinksAreOnGpuAfterCycles | src/cache_policies/policy_engine.py:110-181 | after every cycle of such a run whose policy protects as many sinks, all sinks are at full precision on the GPU |
| SinkSafety.FullCacheEvictsASink | src/cache_policies/heuristic.py:65-81 | one block at high pressure: the baseline evicts the only sink |
| SinkSafety.WindowEvictsASink | src/cache_policies/heuristic.py:114-144 | one block and a window that protects none: it is evicted |
| SinkSafety.LowerIdDisplacesASink | src/telemetry/block_tracker.py:73-99 | one block with room for one sink: a new lower id takes its place |
| HeavyHitterRuns.StepInClosedForm | src/cache_policies/heuristic.py:172-206 | an oracle cycle keeps exactly sinks and heavy hitters, in place, and the ranking of the survivors is the old ranking without the evicted |
| HeavyHitterRuns.HeavyListShrinks | src/cache_policies/heuristic.py:177-189 | after a cycle the ranked heavy hitters are an initial part of what they were |
| HeavyHitterRuns.SameHeavyList | src/telemetry/block_tracker.py:154-198 | changes to blocks that leave ids and attention alone leave the heavy hitters, in order, and the sinks as they were |
| HeavyHitterRuns.TopBlockStays | src/cache_policies/heuristic.py:177-206 | the block ranked first has the highest attention and is not evicted |
| HeavyHitterRuns.QuietCycleIsFixed | src/cache_policies/heuristic.py:172-206 | a cycle that evicts nothing leaves a state the next cycle does not change at all |
| HeavyHitterRuns.CycleIsStep | src/cache_policies/policy_engine.py:110-150 | at or above the low threshold an engine cycle of this policy is that step, whatever the free memory |
| HeavyHitterRuns.HeavyHitterRun | src/cache_policies/policy_engine.py:110-167 | over any run of such cycles, with accesses, tier, score, reuse, memory and age updates in between, heavy-hitter lists are nested initial parts, sinks do not change and the block ranked first stays |
| HeavyHitterRuns.HeavyHittersSettle | src/cache_policies/heuristic.py:172-206 | after more such cycles than there are blocks, a further cycle changes nothing |
| LruRuns.EvictsATenth | src/cache_policies/heuristic.py:65-81 | a baseline cycle at high pressure evicts exactly max(1, n / 10) of n blocks |
| LruRuns.EvictsTheOldest | src/cache_policies/heuristic.py:65-81 | no evicted block was used later than one that stays |
| LruRuns.OrderSplits | src/cache_policies/heuristic.py:65-81 | a cycle takes its batch off the front of the least-recently-used order and leaves the rest of the order as it was |
| LruRuns.EvictionFollowsLruOrder | src/cache_policies/heuristic.py:65-81 | the batches of any number of cycles, followed by what is left in order, are the order of the start; n blocks are gone after n cycles |
| LruRuns.LruRun | src/cache_policies/policy_engine.py:110-167 | the same for runs of engine cycles that find the tracker empty or pressure at or above the high threshold; after n cycles on n blocks nothing is left |
| WindowFacts.WindowSize | src/cache_policies/heuristic.py:114-127 | exactly min(n, sinks + window) ids are kept, all of them tracked |
| WindowFacts.KeptIffNearAnEnd | src/cache_policies/heuristic.py:116-127 | a block is kept exactly when fewer than the sink count of ids lie below it or fewer than the window above it |
| WindowFacts.WindowKeepsExactly | src/cache_policies/heuristic.py:114-144 | the blocks after the cycle are those of the window, and how many there are |
| WindowFacts.WindowOfSurvivors | src/cache_policies/heuristic.py:114-144 | the survivors are their own window |
| WindowFacts.SecondCycleIsIdle | src/cache_policies/heuristic.py:114-144 | a second cycle evicts nothing and changes nothing |
| WindowFacts.CycleIsWindowStep | src/cache_policies/policy_engine.py:110-150 | at or above the low threshold an engine cycle of this policy is that step |
| OffloadFacts.GreedyTakesFirstEligible | src/cache_policies/heuristic.py:356-364 | the greedy pass takes the first eligible blocks in score order, as many as the budget allows |
| OffloadFacts.OffloadIdsAreFirstEligible | src/cache_policies/heuristic.py:344-364 | the offloaded set is exactly those blocks, and its size is the smaller of the budget and the number of eligible blocks |
| OffloadFacts.OffloadWithinBudget | src/cache_policies/heuristic.py:344-364 | at most the budget of blocks are offloaded, no sink among them |
| OffloadFacts.BudgetIsShare | src/cache_policies/heuristic.py:349 | a count within the budget is at most the configured share of n blocks, none for a negative share; one that reaches it leaves no room in that share for another |
| OffloadFacts.LeftOutMeansFull | src/cache_policies/heuristic.py:356-364 | when an eligible block is left out the budget is used up |
| OffloadFacts.LeftOutScoresNoLower | src/cache_policies/heuristic.py:356-364 | an eligible block left out scores no lower than any offloaded one, and the budget is then used up |
| OffloadFacts.OffloadOutcome | src/cache_policies/heuristic.py:366-376 | after the cycle every block is in its place, the chosen ones on the host and all others at full precision |
| OffloadFacts.HostWithinBudget | src/cache_policies/heuristic.py:344-376 | the host then holds exactly the chosen blocks, whatever it held before |
| OffloadFacts.OffloadBoundInRuns | src/cache_policies/policy_engine.py:110-167 | in any run at all, right after such a cycle the CPU blocks are at most the configured share of all, and fill it if a block that might be offloaded stayed on the GPU |
| OffloadFacts.CycleIsOffloadStep | src/cache_policies/policy_engine.py:110-150 | with offloading on and pressure at or above the low threshold an engine cycle is that step |
| HybridFacts.MediumIsMonotone | src/cache_policies/hybrid.py:110-135 | at medium pressure a non-sink that scores at least as high never gets a worse tier |
| HybridFacts.GradedLadder | src/cache_policies/hybrid.py:110-135 | which scores are kept, quantised and offloaded at medium pressure and by the learned policy, for all switches and thresholds |
| HybridFacts.HardLadder | src/cache_policies/hybrid.py:137-164 | which scores are quantised and offloaded at high pressure outside sinks and heavy hitters |
| HybridFacts.OneTierLower | src/cache_policies/hybrid.py:110-164 | with both tiers in use and thresholds in order, high pressure puts every such block exactly one tier lower than medium |
| HybridFacts.HighIsMonotone | src/cache_policies/hybrid.py:137-164 | at high pressure a strictly higher-scoring non-sink never gets a worse tier |
| HybridFacts.KinderIff | src/cache_policies/hybrid.py:110-164 | high pressure is kinder to a score exactly when quantisation is off, offloading on, and the score below the quantisation minimum, at least the offload threshold and below half of it; never to a score that is not negative |
| HybridFacts.HighNeverKinderIff | src/cache_policies/hybrid.py:110-164 | the configurations under which no score whatever fares better at high than at medium pressure: offload threshold not negative, quantisation on, offloading off, or quantisation minimum at most the offload threshold |
| HybridFacts.HighAtMostMedium | src/cache_policies/hybrid.py:110-164 | a non-sink outside the heavy hitters gets no better tier at high than at medium pressure exactly unless its score is in that range; so always for a score that is not negative |
| HybridFacts.HighCanBeKinder | src/cache_policies/hybrid.py:110-164 | a snapshot with a block of negative attention that is offloaded at high pressure and evicted at medium |
| HybridFacts.LearnedIsMonotone | src/cache_policies/learned.py:85-175 | under the learned policy a non-sink with a higher prediction never gets a worse tier |
| HybridFacts.KeptCount | src/cache_policies/hybrid.py:145-151 | the best-scored portion has exactly min(n, max(1, int(f * n))) ids, and with the sinks at most min(n, sinks + that portion) |
| HybridFacts.HighKeepsExactly | src/cache_policies/hybrid.py:137-164 | after a cycle at high pressure exactly sinks and best-scored portion are at full precision |
| HybridFacts.HighMemoryBound | src/telemetry/block_tracker.py:235-247 | GPU bytes are then at most fp16 for the kept and int8 for all other blocks, with the bound on the number kept |
| HybridFacts.CycleIsHighStep | src/cache_policies/hybrid.py:83-104 | with pressure at or above both thresholds an engine cycle is that step, with the scores the controller computed |
| ScoreRange.AttentionInUnit | src/cache_policies/hybrid.py:211-214 | the attention term is in [0, 1] and its cut-off at one never changes it |
| ScoreRange.RecencyInUnit | src/cache_policies/hybrid.py:206-209 | the recency term is at most one, and its cut-off at zero changes nothing exactly for an access at a step that is not negative, or at most one before a latest step that is not positive |
| ScoreRange.NegativeStepIsCutOff | src/cache_policies/hybrid.py:206-209 | an access at step -5 measured against step 3, where the cut-off takes effect |
| ScoreRange.WeightsAreShares | src/cache_policies/hybrid.py:195-204 | the weights shifted for the workload sum to one or are all zero, and none is negative |
| ScoreLaws.ConfiguredWeights | src/cache_policies/hybrid.py:195-204 | without a workload, weights that sum to one are used as configured |
| ScoreLaws.ProportionalWeights | src/cache_policies/hybrid.py:195-204 | weights of another sum keep their proportions |
| ScoreLaws.DroppedWeights | src/cache_policies/hybrid.py:195-204 | a weight shifted to zero or below counts for nothing |
| ScoreLaws.WorkloadWeights | src/cache_policies/hybrid.py:43-52 | what each workload makes of the default weights |
| ScoreLaws.ReuseAdds | src/cache_policies/hybrid.py:216-219 | prefix reuse adds exactly its weight to the score |
| ScoreLaws.RecencyAdds | src/cache_policies/hybrid.py:206-219 | an access adds the share of its step in the latest step times the recency weight, the whole weight at the latest step |
| ScoreLaws.AttentionAdds | src/cache_policies/hybrid.py:211-219 | attention adds its share in the largest times the attention weight, never more than the whole weight |
| ScoreLaws.NoSignalNoScore | src/cache_policies/hybrid.py:186-219 | without any of the three signals the score is zero |
| ScoreLaws.NegativeStepsCountAsZero | src/cache_policies/hybrid.py:206-209 | an access before step zero counts as one at step zero |
| ScoreLaws.OwnMaxima | src/cache_policies/hybrid.py:206-213 | missing maxima are filled in with those of the block itself |
| ScoreLaws.HybridScoresAre | src/cache_policies/hybrid.py:170-184 | the controller uses learned scores when its model is ready, else the composite score of every block |
| ScoreRange.CompositeInUnit | src/cache_policies/hybrid.py:186-219 | the composite score of a block with a sane average is in [0, 1] for any weights and workload |
| ScoreRange.EveryReachableScoreInUnit | src/cache_policies/policy_engine.py:117-127 | in every reachable state, with the metrics of the engine, every block scores in [0, 1], the attention cut-off changes nothing, and the recency cut-off exactly under that condition |
| ScoreRange.MaximaAttained | src/cache_policies/policy_engine.py:125-126 | the latest step and the peak the engine reports are those of blocks, 0 and 1 when there is none |
| ScoreRange.RescaledInUnit | src/cache_policies/learned.py:118-144 | min-max normalised predictions are in [0, 1] and keep their order |
| ScoreLaws.RescaledEnds | src/cache_policies/learned.py:133-135 | the smallest prediction becomes 0 and the largest 1 |
| ScoreLaws.RescaledDistance | src/cache_policies/learned.py:133-135 | predictions between them keep their distances in proportion |
| ScoreLaws.SameForAll | src/cache_policies/learned.py:136-137 | equal predictions give every block one half |
| ScoreLaws.WithoutAnswer | src/cache_policies/learned.py:139-142 | without an answer every block scores its share of the largest attention, or one half if none is positive |
| QuantizeFacts.QuantizeOutcome | src/cache_policies/heuristic.py:286-316 | after the cycle exactly the low-attention non-sinks that were not quantised before are quantised, all others at full precision |
| ScoreLaws.MaxAttentionIsMax | src/cache_policies/heuristic.py:286-295 | the largest average attention is attained and bounds all, and is 1 without blocks |
| ScoreLaws.BelowShare | src/cache_policies/heuristic.py:299-312 | a block is below a share of the strongest exactly when its attention is below that share of the largest |
| QuantizeFacts.PeriodTwo | src/cache_policies/heuristic.py:286-316 | under constant attention and pressure the states repeat with period two from the second cycle on |
| QuantizeFacts.TierFlipsIffLow | src/cache_policies/heuristic.py:297 | exactly the low-attention non-sinks change their tier from each cycle to the next |
| QuantizeFacts.CycleIsQuantizeStep | src/cache_policies/policy_engine.py:110-150 | with quantisation on and pressure at or above the low threshold an engine cycle is that step |
| PressureFacts.PressureInUnit | src/cache_policies/base.py:171-178 | pressure is in [0, 1] for non-negative readings |
| PressureFacts.PressureIsUsedPart | src/cache_policies/base.py:171-178 | pressure times all memory is the used memory, and zero when there is none |
| PressureFacts.SizesInBytes | src/telemetry/block_tracker.py:235-257 | one byte per key and value element as int8, twice that as fp16, 2^20 bytes to the megabyte |
| PressureFacts.PlaceholderPressure | src/cache_policies/policy_engine.py:117-127 | with no free memory reported, pressure is 1 as soon as a byte is on the GPU and 0 otherwise |
| PressureFacts.LowPressureRestoresAll | src/cache_policies/base.py:204-214 | below its threshold every policy brings all blocks back to full precision |
| PressureFacts.RestoredMemory | src/telemetry/block_tracker.py:235-247 | after such a cycle GPU bytes are fp16 for every block, host bytes zero, and GPU memory has not shrunk |
| BlockTracker.Tracker.constructor | src/telemetry/block_tracker.py:45-67 | an empty tracker with the byte sizes of its block geometry |
| BlockTracker.Tracker.RegisterBlock | src/telemetry/block_tracker.py:73-99 | a known id is replaced in its place, a new one goes to the end; the new block is at full precision with everything else zero |
| BlockTracker.Tracker.EvictBlock | src/telemetry/block_tracker.py:101-110 | the block leaves the tracker and the object is labelled evicted; nothing happens for an unknown id |
| BlockTracker.Tracker.UpdateAttention | src/telemetry/block_tracker.py:116-152 | the first batch of finite weights makes their mean the average and their largest the peak, later ones move the average by a tenth and raise the peak; batches without a finite weight and unknown ids change nothing |
| TrackerModel.AttendedIsAveraged | src/telemetry/block_tracker.py:116-152 | the same in terms of the number and the sum of the weights |
| TrackerModel.FiniteValuesOfMore | src/telemetry/block_tracker.py:130-136 | finite weights are kept in order, the others dropped |
| BlockTracker.Tracker.MarkAccessed | src/telemetry/block_tracker.py:154-162 | count, last access and age of that block change and nothing else |
| BlockTracker.Tracker.UpdateTier | src/telemetry/block_tracker.py:164-170 | the tier of that block changes and nothing else |
| BlockTracker.Tracker.UpdateMemorySnapshot | src/telemetry/block_tracker.py:172-184 | the memory readings of that block change and nothing else |
| BlockTracker.Tracker.SetImportanceScore | src/telemetry/block_tracker.py:186-191 | the score of that block changes and nothing else |
| BlockTracker.Tracker.MarkPrefixReuse | src/telemetry/block_tracker.py:193-198 | the reuse flag of that block changes and nothing else |
| BlockTracker.Tracker.GetBlock | src/telemetry/block_tracker.py:204-207 | the live object of the id, or none |
| BlockTracker.Tracker.GetAllBlocks | src/telemetry/block_tracker.py:209-212 | the live objects in dict order |
| BlockTracker.Tracker.GetMemoryStats | src/telemetry/block_tracker.py:223-257 | the counting loop yields the bytes of fp16, int8 and host blocks in megabytes |
| BlockTracker.Tracker.GetCandidateBlocks | src/telemetry/block_tracker.py:263-314 | the first n GPU blocks of the order of the strategy, or all but the last -n for negative n, as live objects; an unknown strategy is an error |
| BlockTracker.CandidatesAreTracked | src/telemetry/block_tracker.py:263-314 | candidates are tracked blocks on the GPU, and how many there are for any n |
| BlockTracker.CandidatesAreFirst | src/telemetry/block_tracker.py:300-314 | candidates come least recent, least attended, oldest or least important first, and before every GPU block left out |
| BlockTracker.Tracker.ReleaseRequestBlocks | src/telemetry/block_tracker.py:320-336 | exactly the blocks of the request go, the others keep their order, and the count returned is how many went |
| BlockTracker.Tracker.IncrementAge | src/telemetry/block_tracker.py:338-346 | every block gets the step as its age and nothing else changes |
| PolicyObjects.SlidingWindowPolicy | src/cache_policies/heuristic.py:101-147 | decisions in the order of the blocks: above the threshold exactly the blocks go that have as many others on both sides as sinks and window |
| PolicyObjects.H2OPolicy | src/cache_policies/heuristic.py:164-209 | decisions in the order of the blocks, with the attention as score: sinks stay, no evicted block has more attention than another that stays, and how many go is known up to the overlap of sinks and heavy hitters |
| PolicyObjects.QuantizeOnlyPolicy | src/cache_policies/heuristic.py:278-316 | decisions in the order of the blocks: nothing is evicted or offloaded, sinks and quantised blocks stay, and of the others exactly those are quantised whose share of the largest attention, their score, is below the threshold |
| PolicyObjects.ChooseOffloads | src/cache_policies/heuristic.py:356-364 | the loop with its set and counter offloads exactly what the greedy pass takes |
| PolicyObjects.OffloadOnlyPolicy | src/cache_policies/heuristic.py:331-379 | one decision per block, in ascending order of the share of the largest attention: nothing is evicted or quantised, sinks stay, no more go than the configured share of all and none above the threshold; if one that might go stays, that share is full and it scores no lower than any that goes |
| PolicyObjects.FullCachePolicy | src/cache_policies/heuristic.py:57-84 | decisions in the order of the blocks, score 1 for kept and 0 for evicted; below the high threshold nothing is evicted, otherwise exactly min(n, max(1, n / 10)) blocks, none used later than one that is kept |
| PolicyObjects.HybridPolicy | src/cache_policies/hybrid.py:83-164 | decisions in the order of the blocks: all stay below the low threshold; above it sinks stay, at high pressure the best-scored too, every other block goes where its own score puts it, and no higher score fares worse |
| PolicyObjects.LearnedPolicy | src/cache_policies/learned.py:85-116 | below the low threshold all stay, else sinks do and every other block goes where the score of its prediction puts it |
| Promises.CountsAddUp | src/cache_policies/base.py:180-199 | every decision is counted under exactly one label |
| PolicyObjects.Policy.MakeStats | src/cache_policies/base.py:180-199 | the counting loop stores how often each decision occurs, and one more evaluation |
| PolicyObjects.Policy.RememberPressure | src/cache_policies/hybrid.py:83-104 | the history is the last thousand pressures |
| PolicyObjects.Policy.Decide | src/cache_policies/base.py:142-161 | decisions of the kind of policy, with statistics that describe them and the pressure history of the hybrid controller, except that a learned policy without a model leaves its own statistics untouched |
| EngineTelemetry.FoundAsDecided | src/cache_policies/policy_engine.py:136-143 | after applying, the block of a decision is gone exactly when it was evicted, and otherwise carries the mapped tier and score |
| EngineTelemetry.CycleTelemetry | src/cache_policies/policy_engine.py:136-143 | a cycle emits one row per decision that does not evict, in the order of the decisions, with tier flags that agree with its label |
| PolicyEngine.DecisionByTrackerCalls | src/cache_policies/policy_engine.py:158-167 | the two tracker calls for a decision, or the one that evicts, carry out exactly that decision |
| PolicyEngine.Engine.constructor | src/cache_policies/policy_engine.py:53-69 | an engine without history over the given policy, tracker and collector |
| PolicyEngine.Engine.ApplyDecisions | src/cache_policies/policy_engine.py:152-167 | the loop of tracker calls leaves the state the decisions describe |
| PolicyEngine.Engine.RecordDecisions | src/cache_policies/policy_engine.py:136-143 | the collector takes in one row per decision whose block is still tracked, in order |
| PolicyEngine.Engine.TakeDecisions | src/cache_policies/policy_engine.py:112-130 | the metrics are those of the snapshot, the decisions those of the active policy on them, and what that leaves in its statistics and pressure history |
| PolicyEngine.Engine.RunPolicyCycle | src/cache_policies/policy_engine.py:110-150 | tracker, telemetry, statistics, history and counter after a cycle, and nothing at all on an empty tracker |
| PolicyEngine.Engine.OverridePolicy | src/cache_policies/policy_engine.py:173-181 | the policy is swapped and nothing else changes |
| TelemetryModel.NothingIsLost | src/telemetry/collector.py:72-195 | whatever writes fail, stored records followed by the buffer are all enabled events in order, and the counter is their number |
| TelemetryModel.StepConserves | src/telemetry/collector.py:182-195 | one operation adds its own event at the end, storage only grows, and a flush is counted exactly when it stored something |
| TelemetryModel.BufferIsBounded | src/telemetry/collector.py:115-119 | the buffer stays below the limit plus the number of record calls whose write failed |
| TelemetryModel.RecordLeavesRoom | src/telemetry/collector.py:115-119 | after a record whose write did not fail the buffer is below the limit, however full it was, and it was flushed exactly when it would not have been |
| TelemetryModel.FinalFlushStoresAll | src/telemetry/collector.py:166-176 | a run that ends with a flush that works has every event in storage |
| Collector.TelemetryStorage.WriteBatch | src/telemetry/storage.py:92-110 | the batch is appended as a whole or the storage is left alone |
| Collector.TelemetryCollector.FlushLocked | src/telemetry/collector.py:182-195 | the batch is stored as a whole, or on failure the buffer is what it was |
| Collector.TelemetryCollector.RecordBlockEvent | src/telemetry/collector.py:72-119 | the event is buffered and counted, and a full buffer flushed; nothing when disabled |
| Collector.TelemetryCollector.Flush | src/telemetry/collector.py:133-136 | one flush |
| Collector.TelemetryCollector.Stop | src/telemetry/collector.py:166-176 | a last flush |
| Pareto.ParetoAnalyzer.AddResult | src/evaluators/pareto.py:40-59 | the result is added at the end |
| Pareto.ParetoAnalyzer.ComputeParetoFrontier | src/evaluators/pareto.py:64-104 | the nested loops return, ordered by x, every point as often as it occurs that no other beats: at least as good on both axes in the given directions and different on one; or say that there is nothing to sort |
| Pareto.ParetoAnalyzer.IsDominated | src/evaluators/pareto.py:106-123 | the scan answers whether some point of the list beats the given one in the given directions |
| Pareto.DominatesIff | src/evaluators/pareto.py:86-95 | the comparison of sign-adjusted coordinates is being at least as good on both axes and different on one |
| Pareto.LessMemoryMoreQuality | src/evaluators/pareto.py:64-95 | in the default directions: no more of x, no less of y, and not the same |
| Pareto.PointsAreResults | src/evaluators/pareto.py:64-84 | the points are the results that have both metrics, with their values |
| Pareto.StrictOrder | src/evaluators/pareto.py:86-95 | domination is irreflexive, asymmetric and transitive, in all four directions |
| Pareto.SomeFrontierMemberDominates | src/evaluators/pareto.py:86-101 | whatever some point dominates is dominated by a frontier member |
| Pareto.FrontierDecidesDomination | src/evaluators/pareto.py:106-123 | the frontier answers domination queries as the whole set would, for any point |
| Pareto.SomethingSurvives | src/evaluators/pareto.py:97-101 | the frontier of some points is not empty |
| Pareto.FrontierIsComplete | src/evaluators/pareto.py:97-101 | of the points of the set the frontier holds exactly those that none of its members dominates |
| Pareto.FrontierOfFrontiers | src/evaluators/pareto.py:51-104 | the frontier of two joined frontiers is the frontier of all results, multiplicities included |
| Pareto.FrontierIsIdempotent | src/evaluators/pareto.py:97-101 | computing the frontier of a frontier changes nothing |
| Pareto.FrontierCurve | src/evaluators/pareto.py:97-103 | along the sorted frontier equal x force equal y, and y moves strictly in the one direction the axes allow |
| Pareto.DefaultCurveRises | src/evaluators/pareto.py:64-104 | in the default directions y strictly increases with x |
| Features.RankIsShareBelow | src/feature_engineering/extractor.py:156-161 | for any narrowing of the sorted list, the rank is the share of blocks whose narrowed attention is below that of the block; it is below 1 exactly when some narrowed attention is not |
| Features.HeavyHitterIffFewStronger | src/feature_engineering/extractor.py:177-182 | for any narrowing, the feature is set exactly when n, the portion asked for, is at most the batch size and fewer than n blocks have narrowed attention above that of the block |
| Features.LoneBlock | src/feature_engineering/extractor.py:156-182 | a block alone in its batch has rank 1 exactly when it was rounded down, else 0, and is a heavy hitter exactly when it was not rounded up |
| Features.EmptyBatch | src/feature_engineering/extractor.py:156-182 | without a batch the rank is one half and nothing is a heavy hitter |
| Features.RoundingShows | src/feature_engineering/extractor.py:240 | with the nearest 32-bit floats, attention 0.7 alone has rank 1 and attention 0.1 alone is no heavy hitter |
| Features.FlagThreshold | src/feature_engineering/extractor.py:177-182 | for any narrowing that keeps order, a block is flagged exactly when it reaches the narrowed attention of the last heavy hitter in the ranking of the oracle |
| Features.OracleChoicesAreFlaggedIff | src/feature_engineering/extractor.py:177-182 | every heavy hitter of the oracle carries the feature exactly when the last of them was not rounded up and the portion asked for is no larger than the batch |
| Features.FlaggedButNotChosenIff | src/feature_engineering/extractor.py:177-182 | a block the oracle does not keep as a heavy hitter is flagged exactly when it reaches the narrowed attention of the last one kept; it lost a tie unless it lies between that and the attention itself |

## Left out

- Effects.ApplyIsSettle: asks for distinct ids in the list of decisions, which every policy delivers; a hand-made list with repeats is only covered by the loop itself.
- SinkSafety.SinksAreOnGpuAfterCycles: asks that a model, where the policy asks one, answers for every block or not at all; with a shorter answer the remaining blocks get no decision and keep the tier they had.
- HybridFacts.HighMemoryBound: counts kept blocks by the bound on sinks and portion, because how far the two overlap depends on the scores.
- Collector.TelemetryCollector.Stop: the background flush thread and its timing are not modelled; its flushes are ordinary operations of a run.
- Counts in the policy configuration (window, sinks) are natural numbers; a negative count would be a Python slice from the other end.
- Floating point: scores, attention and pressure are reals, int() truncates, and the constants 0.1 and 0.10 are exact. The narrowing of attentions to 32-bit floats is an arbitrary function, monotone where said so; its overflow is left out. Rounding reported means to four decimals is not modelled.
- Text cleaning: lower-casing and the removal of punctuation and articles is an arbitrary function; what follows it (splitting and joining at white space) is modelled.
- Two-dimensional attention arrays are taken as already flattened.
- Reason and metadata strings of decisions, time stamps, latencies, and the record fields that are constants of the call.
- Training, loading and serving of learned models; the answer of a model is an input.
- The prefix-caching policy, which is a per-block threshold that protects no sinks; the other features of the extractor.
- The per-tier and per-request summaries of the tracker, the request-metrics cache and the statistics dictionaries of the collector, the report of the hybrid controller.
- Parquet files; storage is an append that works or fails as a whole.
- How the data-frame sort orders results with equal x is not specified, so the frontier is stated as ordered with given multiplicities.
- Aggregates over categories and the default list of metrics of the text evaluator; statistical tests and confidence intervals.
- Real threads, locks and the timing of the event loop; exceptions inside the engine loop, which are logged and swallowed.
- The request handler, the server, the dashboard, plots and benchmark runners.
