# Verification of the agent arena

This project models the parts of the arena that carry proof obligations and proves what the platform
relies on. It is checked with `dafny verify dfyconfig.toml`.

- **Tournament engine** (`Canonical`, `Bracket`, `Progression`, `Elimination`, `Ranking`, `Finishers`,
  `Identifiers`, `Orchestrator`). Brackets are built by the same loops as in the repository, for any number of
  entrants from 8 up; sorting by a hash is sorting by an arbitrary permutation. Each builder is proved against a
  recursive specification, and its ranks and placement matches again by stage, round and index; what a slot
  stands for is fixed by results and sides. The throws of builder, progression and orchestrator are proved
  unreachable. The runner is proved in both forms, sequential and in concurrent batches, against arbitrary
  deterministic inference and judge ports and any readings of the clock.
- **Durable operations** (`RunTracker`, `RunStates`, `RuntimeStore`, `Leases`, `SoloCampaign`,
  `CampaignStates`, `Concurrency`). The submission tracker, the leases and the campaign are step machines: a
  step is what an operation does up to its next await, a crash may come between any two steps, and theorems
  range over all histories. A step keeps its own copy of the record it read, so a stale copy put back later is
  part of the model; any number of processes may work on one run, or advance one campaign, at once. The
  scheduler, the lanes and the runtime tables are classes.
- **Judge and reader** (`PolicyFindings`, `JudgeAgreement`). The contract and the application derive the
  same findings independently; the project states exactly when they agree and what the reader accepts.
- **Money** (`Settlement`, `AutoPayout`). The basis-point split, and the retrying payout worker against a
  ledger whose payouts may land at any time or never and whose every call may throw.
- **Stores and evidence** (`Payloads`, `Tables`, `SnapshotOrder`, `Persistence`, `Eligibility`, `Comparison`,
  `ComparisonOutcomes`). Scores are compared as the double-precision numbers the code has, with their roundings
  (`Doubles`); a pair of cohorts for which that matters is in `EqualDrop`.
- `Wrappers`, `Arithmetic` and `Sequences` hold what several modules share.

## What turned out false

The code is kept as it is; each point has a concrete history or input, and the condition that decides it.

- FINALIZED and FAILED of a run are not absorbing when operations overlap. A submission in flight stores its
  hash over whatever is there (`RunTracker.OverlapLeavesFinalized`); and once a poll has outlived its lease, it
  puts its copy over what another process finalized, dropping the scorecard
  (`RunTracker.StalePollLeavesFinalized`), or begins a replay over it (`RunTracker.StaleReplayLeavesFinalized`).
  A step leaves FINALIZED or FAILED exactly if it is one of these three (`RunTracker.LeftExactlyByPut`), and the
  record can still change at all exactly when some process has an operation in flight
  (`RunTracker.TerminalChangesExactly`). With one operation at a time it is settled for good
  (`RunTracker.SettledStays`).
- A run can be sent more than maxSubmissionAttempts times, by a poll that outlived its lease and tests its own
  copy of the attempt counter (`RunTracker.StalePollSendsAgain`). The stored counter passes its limit exactly by
  a poll whose copy is due when the stored counter has no attempt left (`RunTracker.ExceededExactly`); each stale
  start costs at most one more round of attempts (`RunTracker.SendsBounded`), and with at most one poll and one
  submission in flight, as the leases give while operations end within them, the bound holds
  (`RunTracker.LeasedSendsBounded`).
- A campaign that has ended can run again. A second worker's rejected advance marks it FAILED during an
  advance, because its caller answers any rejection with `failInfrastructure`, and the first worker puts its
  copy back (`SoloCampaign.OverlapRevivesFailed`); and without any failure a second advance, begun after an
  outlived lease, finalizes it before the first one's poll rejects (`SoloCampaign.OverlapRevivesFinalized`).
  An ended campaign is left by a step exactly when an advance in flight stores an open copy
  (`SoloCampaign.LeftExactlyByAdvance`), and can still change at all exactly when some advance in flight has
  something else to store (`SoloCampaign.EndedChangesExactly`).
- The provider is called twice for one attempt, without a crash, when a second advance begins after an
  outlived lease (`SoloCampaign.OverlapCallsTwice`). In any state a call is a repeated one exactly when it is for
  a run whose earlier call was cut off by a crash or is still waited for (`SoloCampaign.RepeatedExactly`), and in
  every history the calls are the runs called for, at most one for each attempt, plus these repeats
  (`SoloCampaign.CallsCounted`). With one advance at a time there is at most one repeat a crash
  (`SoloCampaign.CallsBounded`).
- The contract strips code fences from the whole response text, also inside argument keys, and then finds
  fewer forbidden keys than the reader expects (`PolicyFindings.FencedKeyDisagrees`). The exact condition
  for agreement is `PolicyFindings.AgreeExactly`.
- The payout attempt bound holds over completed calls only (`AutoPayout.CrashedSendIsRepeated`): a key is sent
  more than maxAttempts times exactly when more of its sends were cut off by a crash before their record was
  stored than it has attempts left (`AutoPayout.AutomaticPayoutWorker.SendsBounded`).
- An operation that outlives its lease can be joined by another (`Leases.OverdueOverlaps`), and a lease left
  by a dead worker blocks other fingerprints for good (`Leases.OtherFingerprintBlocked`).
- A COMPLETE settlement is not absorbing (`Settlement.CompleteIsLeft`): it stays COMPLETE exactly when every
  later receipt call throws, or is a success whose readback throws or is the expected split
  (`Settlement.CompleteStaysExactly`).
- Eligibility counts runs, not distinct runs: for every valid request one run, listed twice for each scenario,
  is certified (`Eligibility.OneRunIsCertified`). The certified runs are different exactly when their
  identifiers are twice as many as the required scenarios (`Eligibility.CertifiedRunsDistinctExactly`).
- A score drop that equals its bound can be reported as a regression: 64.4 - 59.4 is computed as
  5.000000000000007 (`Comparison.EqualDropIsReported`), and two cohorts of five runs with these means compare as
  REGRESSION under a policy that allows a drop of 5 (`EqualDrop.EqualDropIsRegression`). Only at equality does
  the rounding decide (`Doubles.DropDecided`), and `Comparison.VerdictExactly` states the verdict with that
  condition.

## Model

| member | source | states |
|---|---|---|
| Canonical.DecodeEncode | packages/protocol/src/canonical.ts:30-37 | decoding undoes encoding for every list of fields whose names and types hold no NUL |
| Canonical.PreimageInjective | packages/protocol/src/canonical.ts:39-43 | two digests have one preimage only when kind (without a bar) and all fields agree |
| Canonical.MatchPreimageInjective | packages/protocol/src/canonical.ts:71-81 | equal match preimages have equal tournament (in lower case), stage, round, index, slots and revision |
| Canonical.AttemptPreimageInjective | packages/protocol/src/canonical.ts:83-88 | equal attempt preimages have equal match digest (in lower case) and attempt number, for any digest texts |
| Canonical.MatchIsNoAttempt | packages/protocol/src/canonical.ts:71-88 | a match preimage is never an attempt preimage |
| Canonical.MatchPreimageSays | packages/protocol/src/canonical.ts:71-81 | behind its prefix and kind a match preimage decodes to seven named and typed fields, in order: tournament, stage, round, index, both slots and revision |
| Canonical.AttemptPreimageSays | packages/protocol/src/canonical.ts:83-88 | and an attempt preimage to the match and the attempt number |
| Canonical.DigestExactly | packages/protocol/src/canonical.ts:8 | a digest is sha256: and 64 hexadecimal digits in either case |
| Canonical.LowerExactly | packages/protocol/src/canonical.ts:20-23 | the 26 capital letters become small, everything else stays |
| Bracket.BuildBracket | packages/domain/src/bracket.ts:68-125 | the builder succeeds exactly for well-formed digests, a safe non-negative revision and 8 to 32 different well-formed entrants, and then returns the specified bracket of the revision |
| Bracket.BuildRollingByeBracket | packages/domain/src/bracket.ts:135-173 | for any 8 or more entrants the rolling-bye loop builds the specified bracket; its three throws are unreachable |
| Bracket.PlayRollingRounds | packages/domain/src/bracket.ts:141-153 | the round loop emits exactly the rounds, matches and byes of the recursive definition |
| Bracket.PlacementCandidates | packages/domain/src/bracket.ts:156-159 | the reversed, flattened and cut list of losers is the specified placement, and has three slots |
| Bracket.BuildPowerBracket | packages/domain/src/bracket.ts:76-125 | for any 8 or more entrants the power-of-two loops build the specified bracket; its throw at line 110 is unreachable |
| Bracket.SizesMatchPage | frontend/src/views/TournamentDetail.tsx:63-64 | the builder's round sizes are those of the tournament page's closed form, for any number of slots |
| Bracket.MainMatchCount | packages/domain/src/bracket.ts:97-107 | a knockout of n slots has n - 1 matches, whichever rule pairs them |
| Bracket.RoundCount | frontend/src/views/TournamentDetail.tsx:63-65 | the number of rounds is the least k with 2^k >= n |
| Ranking.RollingCounts | packages/domain/src/bracket.ts:135-173 | revision 2: n - 1 main matches, n + 1 in all, ceil(log2 n) rounds of the page's sizes, and one bye exactly in each round an odd number enters |
| Ranking.PowerCounts | packages/domain/src/bracket.ts:76-124 | revisions 0 and 1: n + 3 matches, a main draw of the largest power of two p <= n in log2 p rounds, n - p preliminaries and 2p - n byes |
| Identifiers.MatchIdsDistinct | packages/domain/src/bracket.ts:62-66 | the matches of a bracket have pairwise different identifiers, if the hash has no collision among their own preimages |
| Identifiers.IdSays | packages/domain/src/bracket.ts:62-66 | a match identifier is the hash of a text that decodes to the tournament, the stage, the round and index, the kind and identifier of both slots, and the revision |
| Identifiers.SameIdSameMatch | packages/domain/src/bracket.ts:62-66 | where the hash does not confuse two matches' preimages, one identifier stands for one stage, round, index and pair of slots |
| Identifiers.PreimageExists | packages/domain/src/bracket.ts:62-66 | no field of an emitted match makes the digest throw |
| Identifiers.CanonicalIsLegal | packages/domain/src/bracket.ts:62-66 | so a bracket built with the real identifiers satisfies what the progression theorems ask for |
| Elimination.BracketPlayable | packages/domain/src/bracket.ts:135-173 | every emitted match list is ordered group by group: no match depends on one of its own stage and round, keys are distinct, rank sources are known |
| Elimination.RoundsConserve | packages/domain/src/bracket.ts:94-107 | a knockout conserves entrants: each one either loses one of its matches or is its champion |
| Elimination.ChampionWinsFinal | packages/domain/src/bracket.ts:94-107 | the champion of the rounds is the winner of the single last match |
| Progression.AdvanceBracket | packages/domain/src/progression.ts:9-37 | the ranking loop computes the specified progression, including each throw |
| Progression.ResolveWalks | packages/domain/src/progression.ts:15-27 | on an ordered list with unique identifiers the recursive resolver neither throws nor runs into its path: it walks back through the list |
| Progression.ResolversAgree | packages/orchestrator/src/orchestrator.ts:195-205 | the orchestrator's resolver and the progression's agree on every known slot |
| Progression.ResolversMean | packages/domain/src/progression.ts:23-26 | whatever meaning gives a match won by side A its slot A as winner and its slot B as loser, the other way round for one won by side B, and neither otherwise: both resolvers give just that meaning |
| Progression.WalkInterprets | packages/domain/src/progression.ts:15-27 | there is such a meaning for any results of an ordered list |
| Progression.ResolveTraces | packages/domain/src/progression.ts:15-27 | on any list of matches a resolution follows the results from side to side until an entrant, an open match, or a match that is missing or passed before; it throws exactly in the last case |
| Progression.AdvanceAccounts | packages/domain/src/progression.ts:28-37 | on any blueprint: COMPLETE ranks all five sources by different entrants, PENDING stops at the first open one, and a throw means unknown results, a repeated or unresolvable source, or not five of them |
| Progression.WalkMonotone | packages/domain/src/progression.ts:15-27 | a slot that stands for an entrant keeps standing for it when results are added |
| Finishers.SingleElimination | packages/domain/src/bracket.ts:76-171 | with every match decided an entrant is on the side the result goes against in exactly one preliminary or main match, and in none if it wins the final |
| Ranking.FiveFinishers | packages/domain/src/bracket.ts:123-171 | with every match decided the five rank sources stand for five different entrants of the roster |
| Finishers.RollingRanked | packages/domain/src/bracket.ts:155-171 | revision 2: rank 1 and 2 are winner and loser of the only main match of the highest round, 3 and 4 of the only third-place match, 5 the loser of the only fifth-place match; these are played by the losers of the three latest matches before the final, latest round first |
| Finishers.PowerRanked | packages/domain/src/bracket.ts:108-124 | revisions 0 and 1: the same for ranks 1 to 4, and 5 is the winner of the second fifth-place round; the losing semifinalists play for third, the losing quarterfinalists, in order of their matches, for fifth |
| Finishers.RankingMeans | packages/domain/src/progression.ts:28-37 | a built bracket is ranked as soon as its five sources stand for somebody, by whom they stand for |
| Finishers.RankedBySides | packages/domain/src/progression.ts:23-36 | in a complete ranking the final's result goes to the side of the first and against the side of the second, the third-place result to the third and against the fourth, and the last fifth-place result against the fifth (revision 2) or to it |
| Ranking.AdvanceIsSafe | packages/domain/src/progression.ts:9-37 | for any partial results of a built bracket no throw is reachable; a completed ranking is five different entrants; and it completes when every match is decided |
| Ranking.RankingIsFinal | packages/domain/src/progression.ts:28-36 | a complete ranking never changes when results are added |
| Orchestrator.Run | packages/orchestrator/src/orchestrator.ts:75-131 | whatever the clock says at the start and at each attempt, the sequential run ends with a ranking exactly when it has not expired and every match is won in turn, with those results and their ranking; each result is the judge's verdict on the outputs of the match's first attempt that was neither abandoned, without consensus nor undecided, in the context of that attempt and of the entrants its slots stand for; otherwise the run ends with what its first unwon match calls for in the same sense: refund with its reason, recovery, wait or rejection; its throws at lines 98, 100 and 130 are unreachable |
| Orchestrator.RunConcurrent | packages/orchestrator/src/orchestrator.ts:75-192 | for every batch size the same ranking and results as the sequential loop, in the same cases; the same early outcome for every batch size, which says of one whole group what ended each of its matches: its verdict, its wait or its recovery, with the first recovery answered, or the refund of its first refunded match |
| Orchestrator.EarlyOutcomesAlike | packages/orchestrator/src/orchestrator.ts:143-189 | when both runners stop early: a refund of the sequential one is the concurrent one's, with the same reason; a recovery is the same recovery unless the group calls for a refund; a wait is that wait, a recovery or a refund; a rejection becomes a recovery or a refund |
| Orchestrator.RunGroup | packages/orchestrator/src/orchestrator.ts:147-182 | batches of any size gather one and the same wins, blocked matches and refund for a group |
| Orchestrator.CaughtWinsAlike | packages/orchestrator/src/orchestrator.ts:155-175 | an attempt sequence has the same execution under the concurrent runner's catch as under the sequential one, but for a rejected inference, which becomes a recovery |
| Orchestrator.Collect | packages/orchestrator/src/orchestrator.ts:177-181 | the loop over a batch adds its executions in order and stops at the first refund |
| RunTracker.FingerprintFixed | packages/evaluation/src/run-tracker.ts:287-316 | in every history of any number of processes a submission keeps one fingerprint, that of the run's binding and answer |
| RunTracker.LeftExactlyByPut | packages/evaluation/src/run-tracker.ts:287-434 | in any state, with any number of polls and submissions in flight, a step leaves FINALIZED or FAILED exactly when a submission in flight gets its hash, a poll in flight reads an unfinished receipt, or a poll whose copy is due begins a replay over a record without a hash |
| RunTracker.TerminalChangesExactly | packages/evaluation/src/run-tracker.ts:287-434 | over all continuations a FINALIZED or FAILED record can still change exactly when some process has an operation in flight |
| RunTracker.OverlapLeavesFinalized | packages/evaluation/src/run-tracker.ts:299-316 | a concrete history in which a submission leaves FINALIZED and keeps the scorecard |
| RunTracker.StalePollLeavesFinalized | packages/evaluation/src/run-tracker.ts:338-343 | a concrete history, with no submission in flight, in which a poll that outlived its lease leaves FINALIZED and drops the scorecard |
| RunTracker.StaleReplayLeavesFinalized | packages/evaluation/src/run-tracker.ts:406-434 | a concrete history in which a replay begun by a stale poll leaves FINALIZED |
| RunTracker.SendsBounded | packages/evaluation/src/run-tracker.ts:287-434 | over every history of any number of processes a run is sent at most maxSubmissionAttempts times for each replay begun on a stale copy and once more; without such a replay at most maxSubmissionAttempts times, the stored counter covering every send while no hash is known |
| RunTracker.ExceededExactly | packages/evaluation/src/run-tracker.ts:318-324 | in any state the stored counter passes its limit exactly when a poll finds attempts left in its own copy and the stored counter has none |
| RunTracker.LeasedSendsBounded | packages/evaluation/src/run-tracker.ts:137-167 | with at most one poll and one submission in flight, which may overlap each other, a run is sent at most maxSubmissionAttempts times |
| RunTracker.StalePollSendsAgain | packages/evaluation/src/run-tracker.ts:318-324 | a concrete history with two polls in flight: three sends with a limit of two |
| RunTracker.ScorecardExactly | packages/evaluation/src/run-tracker.ts:287-434 | with one operation at a time a scorecard exists exactly when the run is FINALIZED |
| RunTracker.SettledStays | packages/evaluation/src/run-tracker.ts:308-311 | what a history of one operation at a time has finalized or failed keeps its whole record, however the history goes on |
| RunStates.RecoveryExactly | packages/evaluation/src/run-tracker.ts:318-340 | in any state of any number of processes RECOVERY_REQUIRED is stored exactly when a poll reads that the chain has no result, with no replay due or after one, and the stored record has used up maxSubmissionAttempts and recoveryTimeoutMs |
| RunStates.GivenUpUsedUp | packages/evaluation/src/run-tracker.ts:318-340 | in every history a run that requires recovery has used up its stored attempts and its time |
| RunStates.FailedExactly | packages/evaluation/src/run-tracker.ts:346-350 | FAILED is stored exactly when a poll reads the final receipt of a failed execution, over the poll's copy |
| RunStates.FinalizedExactly | packages/evaluation/src/run-tracker.ts:351-356 | FINALIZED is stored exactly when a poll reads a scorecard that its validation accepts, over the poll's copy, with that scorecard, and with the hash only after a receipt |
| RunStates.TrackedExactly | packages/evaluation/src/run-tracker.ts:300-345 | a hash is stored exactly when a submission gets it or a poll reads that its receipt is not final |
| RunStates.AttemptsExactly | packages/evaluation/src/run-tracker.ts:406-434 | an attempt begins exactly with a first submission or a replay that is due, and is persisted with its number and time before it is sent |
| RunStates.SendsExactly | packages/evaluation/src/run-tracker.ts:299-301 | a transaction is sent exactly once for each persisted attempt that is about to send, and never otherwise |
| RunStates.PollGoesOn | packages/evaluation/src/run-tracker.ts:308-345 | where a poll goes: the view without a hash, the receipt with one, the result after a final receipt, and the view again after its own replay |
| RuntimeStore.Connect | packages/persistence/src/sqlite-runtime.ts:157-169 | the purge loop, for any order of the rows, ends with the least set of identifiers closed under connection and selects exactly the rows it connects |
| RuntimeStore.LeastClosedUnique | packages/persistence/src/sqlite-runtime.ts:157-169 | that set does not depend on how it was found |
| RuntimeStore.Runtime.PurgeIdentifiers | packages/persistence/src/sqlite-runtime.ts:142-207 | records, counters and leases after a purge are exactly those the set does not connect, and the counts are the numbers removed |
| RuntimeStore.SurvivorsMentionNothing | packages/persistence/src/sqlite-runtime.ts:157-203 | no surviving row mentions a purged identifier as key, string value or fingerprint, and a record goes exactly when every closed set holds its key |
| RuntimeStore.ReferencesExactly | packages/persistence/src/sqlite-runtime.ts:33-40 | a payload references an identifier exactly when one is the whole text at some path of it, through arrays and property values |
| RuntimeStore.PropertyNamesDoNotConnect | packages/persistence/src/sqlite-runtime.ts:33-40 | renaming the properties of a payload, at any depth, changes no reference |
| RuntimeStore.OnlyNamedSurvives | packages/persistence/src/sqlite-runtime.ts:33-40 | a record that holds an identifier only as a property name, or within a longer string, survives its purge |
| RuntimeStore.Runtime.ClaimLease | packages/persistence/src/sqlite-runtime.ts:235-265 | the whole table after a claim, for the throw, BUSY and CLAIMED |
| RuntimeStore.Runtime.ReleaseLease | packages/persistence/src/sqlite-runtime.ts:267-276 | a lease is deleted exactly by its owner |
| RuntimeStore.Runtime.Increment | packages/persistence/src/sqlite-runtime.ts:219-233 | a counter is added to within the safe integer range, and otherwise left alone |
| RuntimeStore.Runtime.PutIfAbsent | packages/persistence/src/sqlite-runtime.ts:115-125 | only the first writer of a key stores |
| Leases.AlwaysHeld | packages/evaluation/src/run-tracker.ts:137-167 | whatever others do, an operation within its lease holds the lease: no late finisher has deleted it and nobody has taken it over |
| Leases.Exclusion | packages/evaluation/src/run-tracker.ts:143-151 | of two operations running at once one has outlived its lease |
| Leases.NeverTwo | packages/evaluation/src/run-tracker.ts:143-151 | when operations end within their lease never two run for one key |
| Leases.StartsExactly | packages/persistence/src/sqlite-runtime.ts:246-264 | when exactly a second operation starts |
| Leases.OverdueOverlaps | packages/evaluation/src/run-tracker.ts:143-151 | a concrete history in which an overdue operation is joined, and its late finish leaves the successor's lease alone |
| Leases.OtherFingerprintBlocked | packages/persistence/src/sqlite-runtime.ts:251-253 | a lease left behind by a dead worker blocks every other fingerprint for good |
| PolicyFindings.EvaluateActionProposal | packages/evaluation/src/policy.ts:7-37 | the application's loop computes the specified findings and the proposed identifiers, and blocks exactly when the list breaks some rule |
| PolicyFindings.BlocksExactly | packages/evaluation/src/policy.ts:36 | a proposal blocks exactly when the whole list breaks some rule |
| PolicyFindings.DerivePolicyFindings | contracts/AgentEvaluationJudge.py:181-213 | the contract's loop computes the specified rows |
| PolicyFindings.SameListAgrees | packages/evaluation/src/policy.ts:17-35 | on one action list the two derivations give the same rows in the same order, for lists of any length |
| PolicyFindings.DisallowedIgnoresOrder | packages/evaluation/src/policy.ts:34 | the order in which a runtime lists argument keys does not matter |
| PolicyFindings.AgreeExactly | packages/evaluation/src/run-tracker.ts:181-191 | the two lists are equal exactly when every action whose arguments are looked at has as many disallowed keys on both sides |
| PolicyFindings.UnfencedAgree | contracts/AgentEvaluationJudge.py:71-87 | so they are equal whenever no argument key holds a code fence |
| PolicyFindings.FencedKeyDisagrees | contracts/AgentEvaluationJudge.py:76 | a concrete key that the contract strips to an allowed one and the application forbids |
| JudgeAgreement.NormalizeJudgment | contracts/AgentEvaluationJudge.py:216-262 | accepts exactly six fitting rows of distinct dimensions with an absent or right aggregate; the result is a permutation of them in order with the floor mean; the coverage throw at line 249 is unreachable |
| JudgeAgreement.GradesAreWorth | contracts/AgentEvaluationJudge.py:20-21 | the grades are worth 100, 80, 60, 30 and 0, and the inapplicable one is not counted |
| JudgeAgreement.AgentEvaluationJudge.SubmitEvaluation | contracts/AgentEvaluationJudge.py:313-413 | a run identifier is judged once: a stored result is never replaced, a resubmission returns it or conflicts, and a new result is bound, derived and complete |
| JudgeAgreement.ValidateCanonical | packages/evaluation/src/run-tracker.ts:474-514 | the reader's checks accept exactly the values with its own binding, six ordered fitting rows, the floor mean, its own findings and the derived class |
| JudgeAgreement.AcceptedExactly | packages/evaluation/src/run-tracker.ts:503-512 | a result the contract stores is accepted by its reader exactly when both sides count the same disallowed argument keys |
| JudgeAgreement.StoredIsAccepted | contracts/AgentEvaluationJudge.py:409-412 | every stored result is accepted when no argument key holds a code fence |
| JudgeAgreement.AcceptedClass | packages/evaluation/src/run-tracker.ts:505-512 | an accepted class above failing means a clean plan, no failing safety or rule grade and a mean of at least 50 |
| SoloCampaign.RunTextInjective | packages/evaluation/src/solo-runner.ts:174 | a run text names its scenario and attempt, whatever bars the versions hold |
| SoloCampaign.AlwaysShaped | packages/evaluation/src/solo-runner.ts:163-242 | in every history, overlapping or not, a campaign is a FINALIZED prefix, at most one open item and untouched ones, with as many run identifiers as attempts |
| SoloCampaign.RunIdsDistinct | packages/evaluation/src/solo-runner.ts:174-178 | in every history no two run identifiers of a campaign are equal, if the hash has no collision among the texts of its own runs |
| SoloCampaign.FinalizedExactly | packages/evaluation/src/solo-runner.ts:237-241 | in every history a campaign is FINALIZED exactly when all its items are |
| SoloCampaign.ScorecardsSettled | packages/evaluation/src/solo-runner.ts:237-241 | with one advance at a time a FINALIZED item has the scorecard its last run settled on |
| SoloCampaign.LeftExactlyByAdvance | packages/evaluation/src/solo-runner.ts:154-242 | in any state of any number of advances, FINALIZED, FAILED and RECOVERY_REQUIRED are left by a step exactly when an advance in flight stores an open copy |
| SoloCampaign.EndedChangesExactly | packages/evaluation/src/solo-runner.ts:154-242 | an ended campaign can still change, over all ways to go on, exactly when some advance in flight can store something else than it |
| SoloCampaign.EndedStays | packages/evaluation/src/solo-runner.ts:154-166 | a campaign that ended in a history of one advance at a time keeps its whole record however the history goes on, overlapping or not |
| SoloCampaign.CallsCounted | packages/evaluation/src/solo-runner.ts:183-206 | in every history, overlapping or not, the provider's calls are the runs called for, at most scenarios x maxProviderAttempts, plus the repeated calls |
| SoloCampaign.RepeatedExactly | packages/evaluation/src/solo-runner.ts:183-206 | in any state of any history a step repeats a call exactly when it calls for a run whose earlier call was interrupted by a crash or is still waited for |
| SoloCampaign.CallsBounded | packages/evaluation/src/solo-runner.ts:183-206 | with one advance at a time the provider is called at most scenarios x maxProviderAttempts times, plus once for each crash |
| SoloCampaign.OverlapRevivesFailed | packages/evaluation/src/solo-runner.ts:154-161 | a concrete history in which failInfrastructure during an advance is overwritten |
| SoloCampaign.OverlapRevivesFinalized | packages/evaluation/src/solo-runner.ts:99-110 | a concrete history in which a second advance finalizes the campaign and the first one puts its copy back |
| SoloCampaign.OverlapCallsTwice | packages/evaluation/src/solo-runner.ts:183-206 | a concrete history in which two advances call the provider for one attempt without a crash |
| CampaignStates.UncertainExactly | packages/evaluation/src/solo-runner.ts:225-229 | in any state of any number of advances a campaign requires recovery exactly when a poll says so of its run |
| CampaignStates.FailedExactly | packages/evaluation/src/solo-runner.ts:99-235 | FAILED is stored exactly when a poll says that the judge failed, a submission is lost before anything of it is stored, the provider has failed in the last attempt, or the caller of a rejected advance fails a campaign that has not ended |
| CampaignStates.FinalizedByStep | packages/evaluation/src/solo-runner.ts:163-242 | FINALIZED is stored exactly when a poll brings the last missing scorecard of the advance's copy, or an advance begins on finalized items only |
| CampaignStates.PolledItem | packages/evaluation/src/solo-runner.ts:225-241 | what a poll's answer makes of the items: that of the run alone, with its scorecard if there is one |
| CampaignStates.FailureIsRetried | packages/evaluation/src/solo-runner.ts:268-274 | a provider's failure with attempts left makes the item RETRYABLE without a current run |
| CampaignStates.AnswerExactly | packages/evaluation/src/solo-runner.ts:183-199 | the first answer for a run is recorded; a later one records nothing, and lets its advance go on exactly when it agrees with the recorded success or failure |
| Settlement.SplitConserves | packages/settlement/src/worker.ts:39-47 | fee and credits add up to the gross pool exactly, and the remainder is at most 4 units |
| Settlement.SharesAreFair | packages/settlement/src/worker.ts:42-45 | ranks 2 to 5 get their exact share rounded down; rank 1 at least its own and less than 4 units more |
| Settlement.RanksOrdered | packages/settlement/src/worker.ts:43-45 | non-increasing BPS give non-increasing, non-negative credits |
| Settlement.SplitUnique | packages/settlement/src/worker.ts:39-47 | no other split rounds ranks 2 to 5 down and pays everything out |
| Settlement.SettlementWorker.Submit | packages/settlement/src/worker.ts:142-156 | a submission is sent once and stored with its answer exactly when it is acceptable and new, or bound to this input without a transaction; a known transaction is returned and not sent; anything else changes nothing |
| Settlement.SettlementWorker.Reconcile | packages/settlement/src/worker.ts:159-173 | the record of a bound input takes exactly the state its receipt and readback call for; nothing changes where a call throws or the input is not the bound one |
| Settlement.AcceptableExactly | packages/settlement/src/worker.ts:174-185 | an input is accepted exactly with five different entrants and five non-negative BPS that add up to 10000 |
| Settlement.VerdictExactly | packages/settlement/src/worker.ts:166-172 | COMPLETE exactly on a successful receipt and a readback of the expected split, RECOVERY_REQUIRED exactly on a successful receipt and another readback, rejected exactly on a failed receipt |
| Settlement.CompleteStaysExactly | packages/settlement/src/worker.ts:166-172 | over every history of reconciliations COMPLETE stays exactly when each receipt call throws or is a success with an absent or expected readback |
| Settlement.LastReadingDecides | packages/settlement/src/worker.ts:166-172 | a history of reconciliations ends in the state the last one that did not throw calls for |
| Settlement.CompleteIsLeft | packages/settlement/src/worker.ts:167-168 | a concrete history from COMPLETE to PENDING to SETTLEMENT_REJECTED |
| Settlement.SettlementWorker.CompleteConserves | packages/settlement/src/worker.ts:170-171 | fee and credits of every COMPLETE settlement add up to its pool |
| AutoPayout.AutomaticPayoutWorker.Run | packages/settlement/src/auto-payout.ts:136-171 | what each outcome means: COMPLETE that every credit and the fee are complete and wholly paid, nothing else is owed and the close is complete; PARTIAL_FAILURE names exactly the operations that are open; PAYOUT_PENDING leaves an open one unnamed; RECOVERY_REQUIRED that only a further liability is left; by the calls that were made: each credit and the fee is sent exactly once if it reads other than zero and an attempt is due, and the close is sent, when all are complete and the liability reads zero, if an attempt is due |
| AutoPayout.AutomaticPayoutWorker.ProcessTransaction | packages/settlement/src/auto-payout.ts:192-231 | by the calls that were made: it sends once exactly when the record is not complete, has attempts left and no transaction in flight but a reverted one; it answers pending exactly when the last receipt is pending, throws exactly when a call before a send throws, completes exactly on the effect, and fails exactly at the limit, on a revert, without the effect, or when something throws at or after the send; and the record it leaves |
| AutoPayout.AutomaticPayoutWorker.Attempt | packages/settlement/src/auto-payout.ts:210-229 | an attempt sends once and counts once, whatever throws after the send |
| AutoPayout.AutomaticPayoutWorker.SendsBounded | packages/settlement/src/auto-payout.ts:209-217 | a key is sent as often as its attempts and its sends lost to a crash say, and more than maxAttempts times exactly when more sends were lost than attempts are left |
| AutoPayout.CrashedSendIsRepeated | packages/settlement/src/auto-payout.ts:214-217 | with a crash between send and put a worker allowed one attempt sends twice |
| Concurrency.BoundedExecutionScheduler.Acquire | packages/operations/src/concurrency.ts:88-94 | a caller goes on exactly when a slot is free; holders never exceed the limit and nobody waits beside a free slot |
| Concurrency.BoundedExecutionScheduler.Release | packages/operations/src/concurrency.ts:96-100 | a slot passes to the longest waiter |
| Concurrency.BoundedExecutionScheduler.FirstComeFirstServed | packages/operations/src/concurrency.ts:88-100 | a caller is granted only after everyone who came before it |
| Concurrency.LaneKeyExactly | packages/operations/src/concurrency.ts:103-108 | two lanes share a key exactly when network, chain and signer, trimmed and in lower case, agree |
| Concurrency.LaneKeyGiven | packages/operations/src/concurrency.ts:103-108 | a lane has a key exactly on a positive chain and for a signer of 0x and 40 hexadecimal digits |
| Concurrency.TrimStartExactly | packages/operations/src/concurrency.ts:105 | what is cut off before the signer is white space, and the rest begins with none |
| Concurrency.TrimEndExactly | packages/operations/src/concurrency.ts:105 | what is cut off behind it is white space, and the rest ends with none |
| Concurrency.InMemoryTransactionSubmissionCoordinator.Arrive | packages/operations/src/concurrency.ts:24-35 | a submission joins its lane's queue, or opens a lane |
| Concurrency.InMemoryTransactionSubmissionCoordinator.Finish | packages/operations/src/concurrency.ts:38-42 | ending a send releases the next and drops an idle lane, keeping at most one state with work for each key |
| Concurrency.InMemoryTransactionSubmissionCoordinator.OneInFlight | packages/operations/src/concurrency.ts:24-43 | per lane at most one send is in flight |
| Concurrency.InMemoryTransactionSubmissionCoordinator.NeverStuck | packages/operations/src/concurrency.ts:24-43 | a lane with work always has a send in flight or one free to go |
| Payloads.DeepEqualExactly | packages/persistence/src/store.ts:65-88 | two payloads compare equal exactly when they stand for the same value, in whatever order their properties come |
| Payloads.ProperExactly | packages/persistence/src/store.ts:65-88 | that covers every plain value, and the objects whose property names differ |
| Tables.AddedExactly | packages/persistence/src/store.ts:159-228 | when an add succeeds: digests valid, and the key free with its composite key, or taken by an equal record |
| Tables.TournamentAdded | packages/persistence/src/store.ts:163-172 | by the record's fields: a new tournament is appended, one that differs at most in the order of its policy's properties changes nothing, anything else throws |
| Tables.EntrantAdded | packages/persistence/src/store.ts:173-188 | the same for entrants, with three digests and the key of tournament, wallet and agent |
| Tables.MatchAdded | packages/persistence/src/store.ts:189-198 | the same for matches, with two digests |
| Tables.AttemptAdded | packages/persistence/src/store.ts:199-216 | the same for attempts, with five digests and the key of match and number |
| Tables.EventAdded | packages/persistence/src/store.ts:217-229 | the same for events, which are kept by operation key and differ in their identifiers |
| Tables.ArenaStoreTx.Add | packages/persistence/src/store.ts:159-228 | the five adders compute exactly that, and change nothing when they throw |
| Persistence.ArenaStore.Transact | packages/persistence/src/store.ts:254-260 | either the whole staged state is committed or the store is as it was; keys stay unique |
| Persistence.FromSnapshot | packages/persistence/src/store.ts:276-288 | a store is restored exactly from the consistent snapshots, and then holds their rows |
| Persistence.RoundTrip | packages/persistence/src/store.ts:262-288 | a snapshot can always be restored and the restored store has the same snapshot |
| SnapshotOrder.SnapshotIgnoresInsertionOrder | packages/persistence/src/store.ts:262-274 | the snapshot depends on what was inserted, not on the order |
| Eligibility.Evaluate | packages/marketplace/src/eligibility.ts:35-78 | a certificate is issued exactly to the inputs no rule rejects, with their mean, spread, dimension means and run identifiers; the reasons are exactly the violated rules |
| Eligibility.ExactlyTwice | packages/marketplace/src/eligibility.ts:43-54 | an eligible agent has exactly two runs of every required scenario and none of any other |
| Eligibility.RequestExactly | packages/marketplace/src/eligibility.ts:39 | a request is valid exactly with at least six different scenarios, all named |
| Eligibility.DimensionsExactly | packages/marketplace/src/eligibility.ts:64-66 | a dimension score is invalid exactly where some run has none in some dimension, or one outside 0 to 100 |
| Eligibility.ScoreThresholds | packages/marketplace/src/eligibility.ts:59-62 | in exact sums: a mean of at least 80 and no two scores more than 20 apart |
| Eligibility.DimensionThresholds | packages/marketplace/src/eligibility.ts:63-69 | in exact sums: a mean of at least 80 in each of the four core dimensions and 60 in the two others |
| Eligibility.EveryRunAbove60 | packages/marketplace/src/eligibility.ts:59-62 | an eligible agent has no run below 61 |
| Eligibility.RunIdsIgnored | packages/marketplace/src/eligibility.ts:43-68 | renaming the runs in any way changes no reason and no score |
| Eligibility.OneRunIsCertified | packages/marketplace/src/eligibility.ts:43-68 | for every valid request one run, listed twice for each scenario, passes every rule |
| Eligibility.CertifiedRunsDistinctExactly | packages/marketplace/src/eligibility.ts:43-54 | the runs of a certificate are different exactly when their identifiers are twice as many as the required scenarios |
| Comparison.AggregateIgnoresOrder | packages/evaluation/src/comparison.ts:270-303 | means and spreads do not depend on the order of the runs |
| Comparison.EvaluateIgnoresOrder | packages/evaluation/src/comparison.ts:80-152 | permuting the campaigns inside either cohort changes neither status, coverage, findings nor aggregates |
| ComparisonOutcomes.EvaluateExactly | packages/evaluation/src/comparison.ts:80-135 | the answer is that of the earliest of eighteen codes that applies, with its status and coverage; each code is stated on the campaigns and their items: repeated identifiers, differing fields, items that do not fit the scenarios, failed or unrecorded runs, scenarios finished on one side only, coverage, unnamed models, differing digests |
| ComparisonOutcomes.UnscoredExactly | packages/evaluation/src/comparison.ts:137-144 | where no code applies, a compared run without a fitting scorecard ends in INFRASTRUCTURE_ERROR, and otherwise both sides are aggregated |
| ComparisonOutcomes.ScoredExactly | packages/evaluation/src/comparison.ts:146-151 | and then UNSTABLE, PASS or REGRESSION, by spreads, bounds, rounded drops and the critical codes of the candidate's runs |
| ComparisonOutcomes.RunsCounted | packages/evaluation/src/comparison.ts:120-121 | a scenario is covered by a cohort exactly when its item is FINALIZED in every campaign |
| ComparisonOutcomes.AggregateExactly | packages/evaluation/src/comparison.ts:270-312 | a mean is the sum in hundredths over the number of values, rounded down; a spread is the largest difference of two values of runs of one scenario, and is reached; a dimension without points has neither |
| ComparisonOutcomes.PointsExactly | packages/evaluation/src/comparison.ts:158-158 | the points of a run in a dimension, by the grade of its only row |
| ComparisonOutcomes.CardExactly | packages/evaluation/src/comparison.ts:275-291 | a scorecard is valid exactly with an overall score from 0 to 100 and one row with a known grade for each of the six dimensions |
| Comparison.VerdictExactly | packages/evaluation/src/comparison.ts:146-151 | once both sides are aggregated: UNSTABLE exactly on a spread above its bound, PASS exactly when every bound holds in exact numbers, no critical code is present and no drop that equals its bound is rounded up |
| Comparison.EqualDropIsReported | packages/evaluation/src/comparison.ts:334 | a concrete drop that equals its bound and is reported as a regression |
| EqualDrop.EqualDropIsRegression | packages/evaluation/src/comparison.ts:326-343 | two concrete cohorts and a policy, valid and with exact means that differ by the allowed drop, for which the whole comparison returns REGRESSION |
| Doubles.DropDecided | packages/evaluation/src/comparison.ts:305-340 | in doubles, a difference of scores beyond a whole bound is computed as such and one within it is not; only equality is open |
| Doubles.BelowDecided | packages/evaluation/src/comparison.ts:339 | in doubles, a score is below a whole minimum exactly when its hundredths are |
| Comparison.PassMeans | packages/evaluation/src/comparison.ts:80-152 | PASS implies, in exact numbers and for the aggregates of the runs of the covered scenarios, coverage, spreads, drops and minimums of the policy for every dimension, and no critical code |
| Comparison.PassBoundsRuns | packages/evaluation/src/comparison.ts:80-152 | after PASS every covered scenario has as many runs a side as required, and any two of a side differ by at most the overall spread bound |
| Comparison.FinalizedByScenario | packages/evaluation/src/comparison.ts:243-260 | the grouping loop throws exactly on an invalid finalized row, and otherwise files every finalized row, in order, under its scenario |
| Comparison.VarianceFailures | packages/evaluation/src/comparison.ts:314-324 | there are no findings exactly when both sides are steady; each finding names a spread above its bound with its value, and each such spread has one |
| Comparison.RegressionFailures | packages/evaluation/src/comparison.ts:326-343 | there are no findings exactly when every drop and minimum bound holds as computed and no run has a critical code; each finding reports something beyond its bound, and everything beyond its bound is reported |

## Left out

- SHA-256: a function from texts to digests; freedom from collisions is assumed only among the preimages of one bracket or one campaign.
- UTF-8: a text is the string of its bytes, one char a byte; case folding is that of ASCII letters.
- Number formats: safe-integer checks on counts and times appear where the code's outcome depends on them; elsewhere numbers are unbounded.
- JSON parsing: escapes, duplicate property names, undefined, NaN and prototype names are not modelled; values are taken as parsed.
- Orchestrator: the clock is an oracle read at the start and before every attempt; that its readings grow is not used, and runs are compared for the same readings.
- The order of judge submissions between concurrent matches (`runJudgeSubmissionSerially`): the ports are deterministic, so it does not show.
- RunTracker and SoloCampaign: records are values passed from step to step and not objects, because the point is what happens between awaits; diagnostic fields (failure stage and code, model and route, how a submission was recovered) are not kept.
- RunTracker: the leases themselves are in `Leases`; here operations of different processes may overlap at will, and a replay may find the lease on submissions taken.
- SoloCampaign.CallsBounded: assumes one advance at a time, since otherwise it is false (`OverlapCallsTwice`); so does ScorecardsSettled, because a second judge answer may follow the one an item was finalized with.
- SoloCampaign: what the run tracker answers is arbitrary, also under overlap; its own rules are in `RunTracker`.
- Runtime.PurgeIdentifiers: as the code does, property names and lease owners are not looked at.
- Leases.NeverTwo: assumes distinct worker identifiers and one clock.
- AutomaticPayoutWorker: the leases around a key, and beneficiaries that differ only in letter case, are not modelled.
- InMemoryTransactionSubmissionCoordinator: lane states live in a table and are identified by their place in it; white space is blank, tab, line feed and carriage return.
- Persistence.ArenaStore.Transact: a transaction object that is kept and used after its transaction, and nested transactions, are not modelled.
- Persistence.ArenaStore: shape checks of snapshot arrays are types; `cloneDeep` is the identity on JSON values.
- Eligibility.Evaluate: the reasons are a set, without the order they are found in; blank model names are made of spaces; models and the evidence digest of the certificate are not built, and its run identifiers are kept without their sorted order.
- Comparison.EvaluateIgnoresOrder: the record's identifiers and binding, which do follow the order, are not part of the outcome.
- Comparison: sorting scenarios by locale is taken as given; the registry of immutable comparisons is left out.
- JudgeAgreement.AgentEvaluationJudge.SubmitEvaluation: the checks of digests, sizes and shapes of its text arguments are taken as passed.
- PolicyFindings and JudgeAgreement: text limits are on bytes as above; prompts, consensus and operator keys are outside.
- packages/genlayer/src/tracker.ts, packages/inference/src/pair-runner.ts, packages/evaluation/src/tournament-runner.ts and services/api/src/daily-tournament.ts: the same write-ahead, lease and retry patterns again.
- Views, wallets, HTTP and SDK adapters, the arena comparison contracts and the Solidity escrows: thin or external.
