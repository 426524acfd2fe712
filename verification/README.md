# Verified models of the acceptance and benchmark tooling

This project models the small state machines behind the repository's `scripts/` directory in Dafny
and proves what they are for. Each machine exists twice: as pure functions over values, about which
the laws are proved, and, where the program works by updating things step by step, as a class or a
method with loops whose every method is proved to move its fields exactly as those functions do.

| part | modules |
|---|---|
| cost ledger: own allowances, one carry pool, reservations and settlements | Ledger, LedgerLaws, Finishing, SlackBound, IsolationBound, Budget |
| staged battle against its result-matrix validator | Staging, StagingJobs, StagingRuns, StagingLaws, Battle |
| accepted-record protocol: write-ahead journal, exclusive records, hash fold | Acceptance, AcceptanceLaws, AcceptanceSafety, AcceptanceRuns, Available, Tamper, Coordinator |
| closing a run: five create-once files, four journal phases | Closeout, CloseoutLaws, Convergence, WholeRun, Closer |
| redaction and the append-only evidence store | Redaction, AttemptNames, Evidence, EvidenceLaws, EvidenceRuns, EvidenceStore |
| the paid judge call | Judge, JudgeLaws, JudgeCall |
| ordered single dispatch | Dispatch, DispatchLaws, Lifecycle |
| transactional escalation reconciliation | Reconciliation, ReconciliationLaws, Reconciler |
| bounded concurrent load harness | Harness |
| winner selection, blinding, provider chain | Percentiles, Selection, SelectionLaws, Blinding, BlindingLaws, Reviewing, ProviderChain, ProviderChainLaws |
| shared facts about sequences, sorting and grouping | Prelude, Sorting, Grouping |

Crashes are a number of durable steps a process lives to take. Files are create-once maps; a digest
is a function that is injective on file contents, said as: each digest can be traced back to its
contents. Where a law needs that, it is a hypothesis of the law. Money and scores are real numbers.

## What the proofs found

- A producer file that is not the canonical encoding of its value passes acceptance but not the
  reader, which re-encodes (`AcceptanceRuns.UnreadableRun`,
  `AcceptanceRuns.OtherBytesAreDeliverable`): the run is then unreadable for good
  (`AcceptanceSafety.ReadableIffNewestCanonical`, `AcceptanceSafety.UnreadableStays`). The
  coordinator's own publisher always writes canonical files.
- After a crash between journal and record (`AcceptanceRuns.HalfDoneRun`), only a retry at the
  journalled clock can complete (`AcceptanceSafety.RetryOfHalfDone`).
- A settlement refused after its reservation was popped leaves that reservation pending for good.
  The candidate can still be finished exactly when the reservations lost this way add up to no more
  than the comparison slack (`Finishing.FinishableIff`): a free request answered with a cost does no
  harm, a dear one blocks the candidate for ever (`Finishing.OverchargedWitness`). A caller avoids
  all of it by checking the cost against the reservation and the cap before settling
  (`Finishing.SettlementGuard`).
- A settlement takes the first reservation of its amount. If an older one of the same amount was
  split differently between own money and pool, that one's split is refunded
  (`LedgerLaws.OlderReservationIsSettled`); reserving and settling is paying on the spot exactly when
  this cannot happen (`LedgerLaws.ReserveThenSettle`).
- The slack can be used up: k settlements can overdraw the pool by (1 + k) times it, and by no more
  (`SlackBound.SlackIsAttained`, `LedgerLaws.SpendBound`), and they can cost an idle candidate k
  times it of its own money, and no more (`IsolationBound.IsolationIsExact`, `LedgerLaws.Isolation`).
- The check that a cap is exceeded after a provider response is reachable only because of the
  comparison slack (`LedgerLaws.CapBranchIffSlack`).
- The thousandth attempt of a scenario is stored and makes all of them unreadable
  (`EvidenceLaws.ThousandthAttempt`, reached by `EvidenceRuns.CleanRunsReadable`).
- A scenario whose own name looks like a phone number takes its first attempt, redacts the name in it,
  and refuses every further one (`EvidenceLaws.ChangedNameStopsAtOne`, `EvidenceRuns.PhoneScenario`).
  Any other name takes as many clean attempts as fit (`EvidenceRuns.AllStoredIff`).
- A death between the defect ledger and its receipt cannot be repaired by calling again
  (`CloseoutLaws.FinalizeResumes`, `Convergence.TearingDeath`). It is the only interruption that
  keeps a closable run from being closed (`Convergence.ClosingConverges`, and from the first delivery
  on `WholeRun.WholeRunCloses`).
- `close-execution` compares one anchor per phase, so in the phases between it notices no drift
  (`Convergence.ClearInvocation`, `Convergence.DriftSlipsThrough`): a commit leaves the anchors right
  exactly when it found them right (`Convergence.CommitKeepsDrift`). Starting from its own runs they
  always are (`Convergence.InvocationKeeps`).
- A judge receipt dated before its permit by a clock set back is filed, but accepted only after a
  reconciliation that agrees with it (`JudgeLaws.BackdatedRuns`, `JudgeLaws.BackdatedExample`).
- A payload that shows the key private_manager_token at any depth cannot be stored
  (`Redaction.DoublyClassifiedKeyIsRefused`, `EvidenceLaws.ManagerTokenIsNeverAppended`), unless it
  is hidden behind a key that is redacted itself (`Redaction.HiddenDoubleKeyPasses`).
- In a practical tie the baseline wins even from outside the tie band
  (`SelectionLaws.BaselineWinsFromOutsideTheBand`); the winner lies in the band exactly when the
  baseline fails a gate or is itself in it (`SelectionLaws.TieWinnerInBandIff`).

## Model

| member | source | states |
|---|---|---|
| Budget.RequestCostBudget.constructor | scripts/model_battle.py:250-278 | a new budget is the initial ledger: every candidate owns the smaller of its cap and 1.25 times its estimate, nothing is pending, spent, carried or finished |
| Budget.RequestCostBudget.Create | scripts/model_battle.py:234-275 | a budget is built exactly when every candidate has a cap and both prices and no number is negative; caps of other models are dropped |
| Budget.RequestCostBudget.ReserveRequest | scripts/model_battle.py:292-324 | moves the dictionaries, the reservation list and the pool as the ledger's reservation does, with the same grant, exhaustion (cost cap or battle allowance) or error |
| Budget.RequestCostBudget.MatchIndex | scripts/model_battle.py:335-344 | the first reservation within the slack of the requested amount, or none |
| Budget.RequestCostBudget.ReconcileRequest | scripts/model_battle.py:326-362 | moves the state as the ledger's settlement does, including the reservation that is already popped when a later check refuses |
| Budget.RequestCostBudget.FinishCandidate | scripts/model_battle.py:364-372 | moves the remaining own allowance to the pool, or refuses a finished candidate or one with money pending |
| Ledger.StepKeepsInv | scripts/model_battle.py:298-372 | every operation, refused or not, keeps: reservations well formed, own money non-negative, spending within cap plus slack, pending at least the outstanding reservations, pool no lower than minus (1 + settlements) times the slack; with no slack, spent plus pending within the cap |
| LedgerLaws.Conservation | scripts/model_battle.py:298-372 | over every sequence of operations own money, pool, pending and spent money add up to the initial allowances, and pending covers the outstanding reservations |
| LedgerLaws.ReserveThenSettle | scripts/model_battle.py:298-362 | reserving a worst case and settling a smaller cost is refused only for the cap; it equals paying that cost on the spot, own money first and carry second, exactly when every outstanding reservation from the first of that amount on, if there is one, was split like the new one; a free request then leaves no trace |
| LedgerLaws.OlderReservationIsSettled | scripts/model_battle.py:335-346 | a second request of the same amount, paid by the pool and settled at no cost, gives back the own money of the older reservation instead |
| LedgerLaws.OneHeldIsReached | scripts/model_battle.py:298-372 | the ledger it starts from is reached by two operations |
| LedgerLaws.SpendBound | scripts/model_battle.py:304-362 | no candidate spends more than its cap plus eps; after k settlements the pool is overdrawn and the battle overspent by at most (1 + k) * eps; without slack, spent plus pending respects the cap |
| LedgerLaws.SlackClosedForm | scripts/model_battle.py:347-362 | the slack consumed by k settlements is (1 + k) * eps |
| SlackBound.SlackIsAttained | scripts/model_battle.py:304-362 | the bound is exact: for every slack and every positive number k of settlements some run ends with the pool at minus (1 + k) * eps and the battle overspent by just that |
| LedgerLaws.CapBranchUnreachable | scripts/model_battle.py:352-356 | without slack the error that the cap is exceeded after a provider response is unreachable in every run |
| LedgerLaws.CapBranchIffSlack | scripts/model_battle.py:352-356 | that error can be reached by some run exactly when the slack is positive |
| LedgerLaws.StepStuck | scripts/model_battle.py:346-362 | money pending without a reservation grows by exactly the popped reservation when a settlement is refused after its pop, and changes in no other step |
| LedgerLaws.PendingIsOutstanding | scripts/model_battle.py:346-356 | pending equals the sum of outstanding reservations as long as no settlement was refused after its pop |
| LedgerLaws.RefusalBlocksFinishForever | scripts/model_battle.py:346-369 | after such a refusal of more than twice the slack, no later sequence of operations can ever finish the candidate; the exact condition is Finishing.FinishableIff |
| Finishing.FinishableIff | scripts/model_battle.py:346-372 | after any run an unfinished candidate can still be finished by some further operations exactly when the worst cases of its settlements refused after the pop add up to no more than the slack |
| Finishing.SettlementGuard | scripts/model_battle.py:346-356 | a matched settlement gets nothing stuck exactly when its cost is within the popped worst case and the cap, each plus the slack; otherwise the candidate stays finishable exactly while the lost reservations still fit the slack |
| Finishing.OverchargedWitness | scripts/model_battle.py:346-369 | a run that ends with a cost refused above the reservation: the candidate can still be finished afterwards exactly when the request's worst case was within the slack, so always after a free request and never after a dear one |
| LedgerLaws.OthersLeaveAccount | scripts/model_battle.py:298-372 | operations on other candidates leave an account and its finished mark untouched |
| LedgerLaws.Isolation | scripts/model_battle.py:256-260 | an unfinished candidate that never drew carry is granted every worst case up to its own remaining money less k * eps, whatever the others do |
| IsolationBound.IsolationIsExact | scripts/model_battle.py:304-324 | the bound is exact: for every slack and every number k of settlements there is a run after which a candidate that did nothing is granted a request exactly if its worst case is within its own money less k * eps |
| IsolationBound.RunFramed | scripts/model_battle.py:234-275 | a further candidate that does nothing changes nothing in any run of the others |
| LedgerLaws.IsolationFromNowOn | scripts/model_battle.py:298-324 | without slack, the own money such a candidate has at some moment stays reservable through any later activity of the others |
| Battle.JobBlocks | scripts/model_battle.py:3012-3022 | the job list of a stage: one rearranged block per candidate, in order of estimated cost |
| Battle.BuildSurvivorJobs | scripts/model_battle.py:3088-3124 | the survivor stage's jobs, repetitions two and three of the repeated cases for the round-zero survivors: in blocks by estimated cost, or as one shuffled list when there are no estimates |
| Battle.RoundZeroSurvivors | scripts/model_battle.py:3047-3085 | grouping the rows in a dictionary and scoring each candidate yields the sorted survivors |
| StagingJobs.SurvivorsExactly | scripts/model_battle.py:3055-3085 | a candidate survives exactly when it has a row that is not truncated, all such rows pass, and on the system suite they carry at least 95 percent of a positive number of semantic points |
| StagingJobs.TruncatedRowsAreIgnored | scripts/model_battle.py:3057-3062 | a truncated row, wherever it stands, changes nobody's survival |
| StagingJobs.DifferentiatingExact | scripts/model_battle.py:3025-3044 | the differentiating cases are the first limit cases, or all if there are fewer, in the order of falling spread and then rising case id, none twice |
| StagingJobs.DifferentiatingAreWidest | scripts/model_battle.py:3025-3044 | so every chosen case spreads the candidates at least as far as every case that was not chosen |
| StagingJobs.RoundZeroJobsFacts | scripts/model_battle.py:2993-3022 | whatever the shuffles, round zero has each candidate with each case exactly once per repetition, one under a hard profile and the configured number otherwise, a candidate's jobs in one block |
| StagingJobs.SurvivorJobsFacts | scripts/model_battle.py:3088-3124 | whatever the shuffles, the survivor stage has each survivor, repeated case and repetition two or three exactly once, a candidate's jobs in one block |
| StagingJobs.EstimatesOnlyOrder | scripts/model_battle.py:3107-3124 | with or without cost estimates the survivor stage gets the very same jobs, whatever the shuffles |
| Battle.AskProvider | scripts/model_battle.py:2353-2369 | one provider request: reserve the worst case, then settle the reported cost, an exhausted budget or a missing cost ending the case |
| Battle.RunCase | scripts/model_battle.py:2340-2375 | the requests of one case, each reserved and settled, until one is not paid |
| Battle.EnforceModelCostCaps | scripts/model_battle.py:1810-1837 | adding up the rows' costs per candidate and comparing with the caps plus slack |
| Battle.RunOneJob | scripts/model_battle.py:3980-4024 | one job: skipped for an exhausted candidate, recorded as a row, or recorded as exhaustion and the candidate finished |
| Battle.RunStage | scripts/model_battle.py:3980-4092 | a whole stage of jobs, in the survivor stage finishing each candidate after the last job of its block |
| Battle.RunBattle | scripts/model_battle.py:3931-4095 | one suite of a battle on a fresh budget computes the staged battle: round zero, elimination, survivor repetitions, every finish |
| StagingRuns.RunRequestsSettles | scripts/model_battle.py:2340-2375 | a case run that starts with nothing reserved ends with nothing reserved, its cost on the candidate's books; it can only be broken off by a missing or oversized cost, a malformed request or the cap check |
| StagingRuns.RunJobsFacts | scripts/model_battle.py:3980-4092 | running a list of jobs keeps the ledger quiet and reachable, keeps the rows within the caps, answers each job at most once, and finishes exactly the exhausted and, in the survivor stage, everybody without a job left |
| StagingLaws.StagedRunRefinesValidator | scripts/model_battle.py:3127-3175 | under a hard profile the collected rows satisfy the independent matrix validator exactly when no candidate ran out of money, for every provider and every shuffle |
| StagingLaws.BattleEndsFinished | scripts/model_battle.py:3980-4095 | a battle is only ever broken off by the provider; otherwise every candidate is finished exactly once with nothing pending or owned, and the row cap check never fires |
| StagingLaws.BattleSpendsItsAllowances | scripts/model_battle.py:3980-4095 | at the end spent money plus the pool equals the sum of the allowances |
| Coordinator.RunCoordinator.PutArtifact | scripts/e2e_acceptance/coordinator.py:660-669 | a producer file is created once; a later delivery changes nothing |
| Coordinator.RunCoordinator.RecordAcceptance | scripts/e2e_acceptance/coordinator.py:457-484 | an event bound to this run, its authorization and the execution at its ordinal is journalled in canonical order while executing, or found to be the very event already journalled; anything else is refused without a change |
| Coordinator.RunCoordinator.WriteOrValidateExact | scripts/e2e_acceptance/coordinator.py:125-140 | a record file is created, or must already hold the very same bytes |
| Coordinator.RunCoordinator.ReadAcceptedRecords | scripts/e2e_acceptance/coordinator.py:765-858 | reads records in order against the running fold and the durable journal, stops at the first gap and refuses any record after it |
| Coordinator.RunCoordinator.AcceptNext | scripts/e2e_acceptance/coordinator.py:860-923 | accepts the next ordinal with the process dying after any number of its durable writes |
| Coordinator.RunCoordinator.AcceptAvailable | scripts/e2e_acceptance/coordinator.py:925-937 | accepts delivered ordinals one after another until the next artifact is missing |
| AcceptanceLaws.ReadReachable | scripts/e2e_acceptance/coordinator.py:765-858 | on every store the protocol can produce the reader returns all records, or nothing if some accepted producer file was not a canonical encoding |
| AcceptanceLaws.StepKeepsInv | scripts/e2e_acceptance/coordinator.py:860-923 | every delivery, acceptance, crash or phase change keeps journal and records those of one growing list of claims, and takes nothing back |
| AcceptanceSafety.RunIsSafe | scripts/e2e_acceptance/coordinator.py:860-923 | in every interleaving records form a gap-free prefix, records <= journal events <= records + 1, and each record is the one its claim determines |
| AcceptanceSafety.OnlyLegitimateRecords | scripts/e2e_acceptance/coordinator.py:720-763 | nothing stale, foreign or unauthorized is ever accepted: every record carries this run's execution, an allowed producer, a source with its own digest, and a receipt for the delivered artifact in force at the moment of acceptance |
| AcceptanceSafety.NothingIsRewritten | scripts/e2e_acceptance/coordinator.py:457-484 | no ordinal ever gets a second record or journal entry: later stores extend earlier ones |
| AcceptanceSafety.RetryOfHalfDone | scripts/e2e_acceptance/coordinator.py:897-923 | a half-done acceptance is completed by a retry exactly when its clock equals the journalled one, with the identical record; any other retry is refused and changes nothing |
| AcceptanceSafety.HalfDoneStays | scripts/e2e_acceptance/coordinator.py:897-923 | without a retry at that clock it stays half done, and nothing further is journalled or recorded, through any other activity |
| AcceptanceRuns.HalfDoneRun | scripts/e2e_acceptance/coordinator.py:897-923 | whatever may be delivered for the first execution, a death between the two writes of its acceptance leaves a half-done run |
| AcceptanceSafety.ReadableIffNewestCanonical | scripts/e2e_acceptance/coordinator.py:819-822 | a run can be read back exactly when the newest accepted artifact and receipt were canonically encoded: the writer digests raw bytes, the reader the re-encoded value |
| AcceptanceSafety.UnreadableStays | scripts/e2e_acceptance/coordinator.py:863-864 | once unreadable, no clock ever accepts again |
| AcceptanceRuns.OtherBytesAreDeliverable | scripts/e2e_acceptance/coordinator.py:819-822 | wherever a producer may deliver at all, bytes that are not canonical but parse to its artifact can be delivered as well |
| AcceptanceRuns.UnreadableRun | scripts/e2e_acceptance/coordinator.py:819-822 | the first execution's artifact delivered in any bytes that parse to it is accepted and recorded, and can be read back exactly when those bytes are its canonical encoding |
| AcceptanceSafety.CanonicalRunsAreReadable | scripts/e2e_acceptance/coordinator.py:632-670 | producers that publish canonical files keep every run readable |
| AcceptanceSafety.CompleteRunIsFixed | scripts/e2e_acceptance/coordinator.py:860-867 | once all executions are accepted and readable, what is read never changes again |
| Available.AvailableStops | scripts/e2e_acceptance/coordinator.py:925-937 | it returns when every record reads back and the next artifact is missing; calling it again at any later time accepts nothing more |
| Available.AvailableAcceptsAll | scripts/e2e_acceptance/coordinator.py:925-937 | with no half-done acceptance in the way it accepts everything delivered, canonical and fresh |
| Available.AvailableIsSafe | scripts/e2e_acceptance/coordinator.py:925-937 | however it ends, the store it leaves holds journal and records of one list of claims that continues the one before, and nothing that was there is changed |
| Tamper.SameJournalSameRecords | scripts/e2e_acceptance/coordinator.py:781-851 | two stores the reader accepts against the same journal hold the same records byte for byte at every ordinal both have |
| Tamper.SameFoldSameEvidence | scripts/e2e_acceptance/coordinator.py:782-790 | two accepted runs with the same last fold digest, even of different registries, have the same length and the same artifact and receipt at every ordinal |
| Closer.RunCloser.WriteEach | scripts/e2e_acceptance/coordinator.py:1224-1238 | writes or validates the planned files in order, dying before any of them |
| Closer.RunCloser.LoadOrCommitDefectLedger | scripts/e2e_acceptance/coordinator.py:1024-1151 | loads a committed ledger pair bound to this evaluation, commits an empty one when nothing failed, and refuses half a pair |
| Closer.RunCloser.FinalizeRun | scripts/e2e_acceptance/coordinator.py:1153-1249 | the five files of finalization, dying before any of them |
| Closer.RunCloser.CloseExecution | scripts/run_noor_e2e_acceptance.py:535-577 | finalize, then the phase transitions with their drift checks, dying before any of them |
| CloseoutLaws.FinalizeReplays | scripts/e2e_acceptance/coordinator.py:1153-1249 | after one success every later call, at any time, returns the same result and leaves every file as it is |
| CloseoutLaws.FinalizeResumes | scripts/e2e_acceptance/coordinator.py:1224-1242 | a death before any write is made good by calling again, except exactly between the two files of a fresh ledger pair |
| CloseoutLaws.TornStays | scripts/e2e_acceptance/coordinator.py:1034-1037 | half a ledger pair is refused by every later call and never mended by it |
| Convergence.ClearInvocation | scripts/run_noor_e2e_acceptance.py:542-576 | from any phase an undisturbed invocation commits the attempt chain and leaves the other anchors as they were or as the records determine, or refuses exactly on drift of the one anchor compared in that phase |
| Convergence.DriftSlipsThrough | scripts/run_noor_e2e_acceptance.py:553-576 | for any files that can be finalized, a state between the phases with a wrong final event that an undisturbed invocation commits without noticing |
| Convergence.CommitKeepsDrift | scripts/run_noor_e2e_acceptance.py:542-576 | an undisturbed invocation that commits leaves the anchors right exactly when it found them right |
| Convergence.InvocationKeeps | scripts/e2e_acceptance/execution.py:4526-4660 | an invocation, however it ends, keeps every anchor equal to what the accepted records determine and takes no phase back |
| Convergence.ClosingConverges | scripts/run_noor_e2e_acceptance.py:535-577 | after any history of interrupted, blocked or failed invocations, one undisturbed invocation commits with the anchors the records determine, and closing again changes nothing, exactly when the files it all started from could be finalized and no invocation died between the two files of a fresh ledger; otherwise it fails and the run stays where it was |
| Convergence.ClosableIff | scripts/e2e_acceptance/coordinator.py:1024-1249 | after any invocations the files can be finalized exactly when they could at the start and no invocation tore a fresh ledger pair |
| Convergence.TornLedgerBlocks | scripts/e2e_acceptance/coordinator.py:1034-1037 | a death between the two ledger files keeps the run in its phase through every later invocation |
| Convergence.TearingDeath | scripts/e2e_acceptance/coordinator.py:1224-1238 | a run whose executions all passed can be finalized from no files at all, but a death at the fifth write leaves half a ledger that no further invocations get past |
| WholeRun.WholeRunCloses | scripts/run_noor_e2e_acceptance.py:535-577 | from the first delivery on, over any order of deliveries, acceptances, crashes and close-execution commands: an undisturbed command commits exactly when every execution is accepted and readable, all passed with distinct sources, and no command died between the two ledger files; the anchors are those the run's own records determine and closing again changes nothing; otherwise the run is still executing |
| WholeRun.EventsAreRetries | scripts/e2e_acceptance/coordinator.py:1153-1170 | commands issued before the records are complete do nothing, and the others all work on the records that are there at the end |
| WholeRun.BothEndsOccur | scripts/run_noor_e2e_acceptance.py:535-577 | a run of one passing execution is closed by the next undisturbed command, and never if a command died at its fifth write before |
| Redaction.ValidatedIsFixed | scripts/e2e_acceptance/evidence.py:176-228 | a tree the validator accepts loses nothing to the redactor but its tuples |
| Redaction.FixedIffTupleFree | scripts/e2e_acceptance/evidence.py:193-196 | on validated trees the redactor is the identity exactly where there is no tuple |
| Redaction.SecondRedactionIsIdle | scripts/e2e_acceptance/evidence.py:611-641 | redacting what was redacted and then validated changes nothing |
| Redaction.RedactionPassesIff | scripts/e2e_acceptance/evidence.py:176-228 | redaction passes validation exactly on trees whose visited keys are in at most one sensitive class and whose visited strings no longer leak once scrubbed |
| Redaction.DoublyClassifiedKeyIsRefused | scripts/e2e_acceptance/evidence.py:98-141 | under the program's own key classes a payload that shows the key private_manager_token anywhere, at any depth, outside redacted fields, is refused once redacted, whatever the key's value |
| Redaction.HiddenDoubleKeyPasses | scripts/e2e_acceptance/evidence.py:176-228 | behind a redacted key the same key passes |
| AttemptNames.ListingIsNumericIff | scripts/e2e_acceptance/evidence.py:544-559 | sorting the zero-padded attempt names agrees with numeric order exactly up to 999 attempts |
| EvidenceStore.AttemptStore.VerifyChains | scripts/e2e_acceptance/evidence.py:544-601 | walks the sorted listing, the anchors, the indexes and both hash chains before an append, and returns the last two digests |
| EvidenceStore.AttemptStore.AppendAttempt | scripts/e2e_acceptance/evidence.py:523-659 | the anchor, the tracked file and the index, each created once, dying between any of them |
| EvidenceStore.AttemptStore.VerifiedAttemptPayloads | scripts/e2e_acceptance/evidence.py:661-737 | returns every tracked payload of a scenario in order, or refuses it |
| EvidenceLaws.AppendExact | scripts/e2e_acceptance/evidence.py:602-659 | on a reachable store an append is refused without a trace unless the attempt is the next one, its redaction serializes cleanly, nothing blocks the scenario, and it is the first or redaction leaves the scenario's name alone; the tracked file never differs from its protected anchor |
| EvidenceLaws.DoubleKeyIsNeverAppended | scripts/e2e_acceptance/evidence.py:611-627 | an attempt that shows a key of two sensitive classes, at any depth, is refused before the first write, whatever the store |
| EvidenceLaws.ManagerTokenIsNeverAppended | scripts/e2e_acceptance/evidence.py:98-141 | under the program's own key classes private_manager_token is such a key |
| EvidenceLaws.ReadableIff | scripts/e2e_acceptance/evidence.py:689-737 | a reachable store is read to the last attempt exactly while every tracked file has its index and there are at most 999; verification before an append asks in addition that redaction left the scenario's name alone |
| EvidenceLaws.ReaderReturnsWhatWasStored | scripts/e2e_acceptance/evidence.py:661-737 | after any appends and crashes an accepted reading is exactly the stored attempts, redacted, in order |
| EvidenceLaws.ReadableNeverChanges | scripts/e2e_acceptance/evidence.py:523-737 | what could be read once begins every later reading, word for word |
| EvidenceLaws.NumbersAreConsecutive | scripts/e2e_acceptance/evidence.py:602-608 | no attempt number is skipped or reused |
| EvidenceLaws.OrphanIsInvisible | scripts/e2e_acceptance/evidence.py:628-633 | a crash after the anchor leaves the reading as it was |
| EvidenceLaws.CrashBetweenWritesBlocks | scripts/e2e_acceptance/evidence.py:628-658 | either crash between the writes blocks the scenario, the later one also for the reader |
| EvidenceLaws.BlockedStays | scripts/e2e_acceptance/evidence.py:523-659 | a blocked scenario never changes again |
| EvidenceLaws.ChangedNameStopsAtOne | scripts/e2e_acceptance/evidence.py:544-601 | a scenario whose name redaction changes takes one attempt and no other, ever |
| EvidenceLaws.ThousandthAttempt | scripts/e2e_acceptance/evidence.py:544-559 | the thousandth attempt is stored without complaint and makes the scenario unreadable |
| EvidenceRuns.CleanRunsReadable | scripts/e2e_acceptance/evidence.py:523-737 | from the empty store any number of clean attempts up to a thousand is stored in full; they can be read back exactly if there are at most 999, and after a thousand nothing is ever stored or read again |
| EvidenceRuns.AllStoredIff | scripts/e2e_acceptance/evidence.py:544-608 | of up to a thousand clean attempts all are stored exactly if there is no second one or redaction leaves the scenario's name alone |
| EvidenceRuns.PhoneScenario | scripts/e2e_acceptance/evidence.py:16-17 | a scenario named by ten digits, which redaction takes for a phone number, is of the other kind |
| EvidenceRuns.PlainScenario | scripts/e2e_acceptance/evidence.py:523-659 | there is a scenario whose name is left alone and whose attempts are all clean, so the thousandth attempt is really reached |
| EvidenceLaws.AnchorFixesHistory | scripts/e2e_acceptance/evidence.py:690-737 | an anchor that two chained stores share has the same number in both and fixes every attempt up to it, by descent along the two hash chains |
| EvidenceLaws.NewestAnchorFixesReading | scripts/e2e_acceptance/evidence.py:690-737 | two stores the reader accepts, whoever wrote their files, read the same attempts to the same length as soon as their newest protected anchors are equal |
| EvidenceLaws.SameAnchorsSamePayloads | scripts/e2e_acceptance/evidence.py:690-737 | in particular two stores the reader accepts over the same protected anchors agree on every attempt both have |
| JudgeCall.JudgeRun.RunOrReplayJudge | scripts/e2e_acceptance/live_producer.py:579-736 | one invocation, with the process dying before any durable step: repair, then replay a filed receipt or make the call |
| JudgeCall.JudgeRun.OpenJournal | scripts/e2e_acceptance/execution.py:3001-3002 | reopening repairs the reservation, then the settlement, dying before any durable step |
| JudgeCall.JudgeRun.RecoverActionReservation | scripts/e2e_acceptance/execution.py:3613-3638 | a reservation that reached the authorization ledger but not the journal is entered there |
| JudgeCall.JudgeRun.RecoverCostSettlement | scripts/e2e_acceptance/execution.py:3382-3432 | a settlement stopped after its intent is finished, or refused when the action is not terminal |
| JudgeCall.JudgeRun.ReserveAction | scripts/e2e_acceptance/execution.py:3823-3836 | the reservation enters the authorization ledger, then the journal |
| JudgeCall.JudgeRun.ConsumeRequestPermit | scripts/e2e_acceptance/execution.py:3919-3967 | the request is filed and the one-use permit moves the action from reserved to unknown |
| JudgeCall.JudgeRun.CompleteResponse | scripts/e2e_acceptance/execution.py:4137-4194 | a bound receipt not older than its permit moves the action to succeeded, then settles its cost |
| JudgeCall.JudgeRun.SettleActionCost | scripts/e2e_acceptance/execution.py:4213-4334 | intent, ledger and journal entries of a settlement, each at most once, a retry at another cost refused |
| JudgeLaws.SentAtMostOnce | scripts/e2e_acceptance/live_producer.py:653-699 | over any invocations, reconciliations and deaths the paid request is sent at most once, and never again once the permit is consumed |
| JudgeLaws.EverySuccessAgrees | scripts/e2e_acceptance/live_producer.py:597-651 | every later success returns the decision, raw digest and time of judgment of an earlier one, for the same observation |
| JudgeLaws.SuccessAfterPermit | scripts/e2e_acceptance/live_producer.py:597-658 | once the permit is consumed, an invocation that lives long enough succeeds exactly when the receipt is on file for its observation, was not judged before the permit, and contradicts no reconciliation |
| JudgeLaws.ReceiptDecides | scripts/e2e_acceptance/live_producer.py:597-658 | over all runs without reconciliations and on clocks that do not run back inside an invocation, an invocation after the permit that lives long enough succeeds exactly when the receipt was filed |
| JudgeLaws.BackdatedRuns | scripts/e2e_acceptance/live_producer.py:597-651 | a receipt dated before its permit is never accepted by any number of invocations alone, and after a reconciliation that lives long enough exactly when that found success at the receipt's cost |
| JudgeLaws.BackdatedExample | scripts/e2e_acceptance/execution.py:4137-4194 | one invocation on a clock set back files such a receipt; the next one refuses it, and after an agreeing reconciliation it is returned |
| Lifecycle.Runner.ExecuteResume | scripts/run_noor_e2e_acceptance.py:351-429 | the loop over the sealed plan with its early returns picks and dispatches at most one action, dying before any durable step |
| Lifecycle.Runner.DispatchLocal | scripts/e2e_acceptance/production.py:325-341 | preflight, permit, then the adapter call |
| Lifecycle.Runner.ReserveAction | scripts/e2e_acceptance/execution.py:3823-3836 | a reservation enters the authorization ledger, then the journal |
| Lifecycle.Runner.ReconcileAction | scripts/e2e_acceptance/execution.py:4336-4434 | an unknown action becomes terminal, then its settlement is written in three steps; a replay must agree |
| DispatchLaws.ChooseFirstOpen | scripts/run_noor_e2e_acceptance.py:375-397 | the loop stops at the first action of the plan's order that is not terminal and settled |
| DispatchLaws.DispatchFollowsPlan | scripts/run_noor_e2e_acceptance.py:375-429 | over any commands and deaths the consumed permits are an exact beginning of the plan's order, each once, all but the last terminal and settled, and the adapter calls a subsequence of them |
| DispatchLaws.OneDispatchAtATime | scripts/run_noor_e2e_acceptance.py:360-429 | each command dispatches at most one action, the next of the plan, never while any action is unknown and only when all earlier ones are terminal and settled |
| DispatchLaws.CompleteMeansAllDispatched | scripts/run_noor_e2e_acceptance.py:425-429 | when the loop reports completion every dispatchable action was dispatched |
| Reconciler.BuildManifest | scripts/escalation_guard.py:139-176 | walking the rows in id order yields the manifest of the safe ones |
| Reconciler.Session.ApplyManifest | scripts/escalation_guard.py:264-339 | checks and resolves row after row in place, up to the first mismatch |
| Reconciler.Session.ApplyInTransaction | scripts/escalation_guard.py:342-354 | commits the whole apply, or restores the database when a row or the commit itself fails |
| ReconciliationLaws.TransactionExact | scripts/escalation_guard.py:264-354 | a transaction commits exactly when the manifest is valid, every action's row is untouched and still safe or already resolved, and the database accepts the commit; it then changes exactly the former, and otherwise nothing |
| ReconciliationLaws.ReportPartitionsIds | scripts/escalation_guard.py:294-339 | changed and already-applied ids are disjoint and together exactly the manifest's ids |
| ReconciliationLaws.ConversationsNeverChange | scripts/escalation_guard.py:223-232 | no transaction alters a conversation |
| ReconciliationLaws.ReapplyChangesNothing | scripts/escalation_guard.py:304-312 | committing the same manifest again at any time changes nothing and reports every id as already applied |
| ReconciliationLaws.BuiltManifest | scripts/escalation_guard.py:82-233 | a built manifest is always valid and lists exactly the rows classified as safe to resolve |
| ReconciliationLaws.BuildThenApply | scripts/escalation_guard.py:139-339 | built from the database's rows and applied at the same time or later, it commits and changes every id it lists |
| ReconciliationLaws.ResolvableIff | src/services/escalation_state.py:106-131 | a row may be resolved without a human exactly when it is pending and its conversation is closed and resolved, or active and unpaused with the row at least the given number of days old |
| Harness.LoadRun.Advance | scripts/load_test_conversations.py:111-136 | one step of one task up to its next await |
| Harness.LoadRun.Gather | scripts/load_test_conversations.py:153-155 | the gathered tasks advance one step at a time under any schedule, as the model's runs do |
| Harness.StepKeepsInv | scripts/load_test_conversations.py:111-136 | no interleaving lets two tasks update the counters at once, loses an update or exceeds the semaphore |
| Harness.InFlightIsBounded | scripts/load_test_conversations.py:128-136 | in_flight equals the number of tasks between their two updates and, like max_in_flight, never exceeds the concurrency |
| Harness.MaxIsPeak | scripts/load_test_conversations.py:129-131 | whenever no task is recording, max_in_flight is exactly the largest number ever in flight |
| Harness.SomeTaskCanMove | scripts/load_test_conversations.py:111-136 | there is no deadlock: until all tasks are finished some task can move |
| Harness.MaximalRunsFinish | scripts/load_test_conversations.py:153-155 | runs that only schedule tasks that can move are bounded, and end with all tasks finished |
| Harness.DoneMeansIdle | scripts/load_test_conversations.py:128-136 | when all tasks are done nothing is in flight, every permit is back and the lock is free |
| Percentiles.PercentileForgetsOrder | scripts/model_battle.py:567-581 | the percentile depends on the bag of values only |
| Percentiles.PercentileIsBounded | scripts/model_battle.py:574-581 | it lies between the least and the greatest value |
| Percentiles.PercentileIsMonotone | scripts/model_battle.py:574-581 | it grows with the quantile |
| Percentiles.PercentileEnds | scripts/model_battle.py:574-581 | at quantiles zero and one it is the minimum and the maximum |
| Selection.SelectWinner | scripts/model_battle.py:1256-1400 | grouping, gating, ranking and deciding as the program does computes the selection |
| SelectionLaws.SelectionForgetsOrder | scripts/model_battle.py:1256-1400 | every reordering of the rows leads to the same decision |
| SelectionLaws.WinnerPassesGates | scripts/model_battle.py:1370-1384 | there is a winner exactly when some candidate passes every gate, and it is one that does |
| SelectionLaws.ClearWinnerLeads | scripts/model_battle.py:1385-1400 | a clear winner leads every other passing candidate by at least a full point of quality and by at least its own spread |
| SelectionLaws.ClearWinnerLeadsRunnerUp | scripts/model_battle.py:1385-1388 | and it leads the runner-up, whom no other ranks before, by at least the runner-up's spread as well |
| SelectionLaws.TieGoesToBaseline | scripts/model_battle.py:1388-1395 | in a practical tie the baseline wins whenever it passes its gates, otherwise a candidate nobody ranks before |
| SelectionLaws.TieWinnerInBandIff | scripts/model_battle.py:1388-1395 | the winner of a practical tie is the leader or level with it, in the sense of the tie rule, exactly when the baseline fails a gate or is itself the leader or level with it |
| SelectionLaws.LeaderExists | scripts/model_battle.py:1370-1385 | whenever anybody passes the gates there is a leader, whom nobody passing ranks before |
| SelectionLaws.BaselineWinsFromOutsideTheBand | scripts/model_battle.py:1388-1395 | concrete rows on which the baseline, outside the tie band and a point and a half behind both leaders, is declared the tie winner |
| Blinding.LabelsAreABijection | scripts/model_battle.py:698-719 | labels and models are in bijection and each label carries its model's answer |
| BlindingLaws.ReviewedAsBuilt | scripts/model_battle.py:688-719 | what the reviews below are filled in for, and the key kept beside them, is exactly the pair that the builder hands out |
| Reviewing.EvaluateBlindReviews | scripts/model_battle.py:759-820 | collecting points and gate observations pair by pair and label by label computes the evaluation |
| BlindingLaws.BlindingCancels | scripts/model_battle.py:688-820 | for every permutation drawn, and reviews in any order, the evaluation equals that of an open review |
| BlindingLaws.EvaluatedIff | scripts/model_battle.py:765-809 | an evaluation is refused exactly when the reviewed pairs are not the keyed ones or some pair lacks scores or a reveal mapping, has other labels than its key or an invalid rubric |
| ProviderChain.ResolveProviderChain | scripts/model_battle.py:2722-2789 | the loop over the ranked endpoints admits the first few distinct providers and keeps all their endpoints |
| ProviderChain.ProviderOrderFromChain | scripts/model_battle.py:2792-2809 | each provider of the chain once, in order of appearance |
| ProviderChain.ProviderQuantizationsFromChain | scripts/model_battle.py:2812-2820 | the quantizations of the chain, each once, in ascending order |
| ProviderChain.BuildPinnedEntry | scripts/model_battle.py:2823-2893 | pinned prices are attained and bound every priced endpoint of the chain of at most three providers, exactly the common parameters and the chain's quantizations are listed, the required parameters are among the former and no excluded quantization is among the latter |
| ProviderChainLaws.ChainIsExact | scripts/model_battle.py:2746-2789 | an endpoint may serve exactly when it is eligible and fewer than limit other providers have an eligible endpoint that ranks before all of its provider's |
| ProviderChainLaws.PlaceIsCount | scripts/model_battle.py:2767-2789 | a provider's place in the ranked order is the number of providers that have an eligible endpoint ranking before all of its own |
| ProviderChainLaws.OrderIsAdmitted | scripts/model_battle.py:2777-2809 | the provider order lists exactly the admitted providers, once each, in rank order |
| ProviderChainLaws.EarlierIsNoWorse | scripts/model_battle.py:2767-2789 | some endpoint of an earlier provider ranks no worse than every endpoint of a later one, admitted or not |
| ProviderChainLaws.FirstPartyLeads | scripts/model_battle.py:2767-2776 | whenever the first party has an eligible endpoint it leads both the chain and the order |

## Left out

- Floating-point rounding and every `round(...)` call: money, scores and latencies are exact reals; the comparison slack stays, as the parameter `eps`, because the program relies on it.
- Names of models, cases, providers and executions are integers standing for their rank in string order; attempt file names and JSON keys are real strings.
- The seeded shuffles: a job list may be rearranged in any way within a candidate's block, or as a whole where there are no cost estimates, and the hash order behind a blind pair may be any permutation.
- Battle.RunBattle: runs one suite; eliminated candidates are finished in list order where the program iterates a set, which no result depends on.
- Battle.RunCase: the retries and tool rounds of one case are one list of provider requests, each with the cost reported for it; an unsuccessful attempt without a cost settles at zero; the text of answers and its scoring are not modelled.
- Staging.Differentiating: the ranking of cases is an expression, not the dictionary loop of the program.
- Budget.RequestCostBudget.Create: non-finite numbers are not modelled, only negative ones.
- SHA-256, JSON encoding and the regular expressions: an injective digest, a parser for bytes that are not canonical, and substitutions that are the identity where nothing matches.
- Partial writes: a file is either absent or complete, and a crash falls between writes; path-set, permission and symbolic-link checks are not modelled.
- Field shapes, time zones, error texts, command-line parsing and the network.
- Tampering with the journal's own event chain while a process runs; the acceptance events of one run are the journal.
- Evidence.Append: one scenario; the reader's outer loop over scenario directories concatenates the scenarios' payloads. Digests and attempt ids hold no phone number or credential (a hypothesis of the laws).
- Closeout: the aggregation of criteria outcomes and the evidence lineage of ledger entries are functions of the accepted records; the final readback either can or cannot be sealed.
- Judge: one action of one run; quota limits are part of whether the reservation is authorized; the journal stays in its executing phase.
- Dispatch: the journal is in its executing phase; settlement amounts (the judge model has them) and the content of requests and responses; the judge may move its own actions in any way.
- Reconciliation: ids are compared as values, so a manifest id in a non-canonical spelling, which the program reports as missing, does not arise; record summaries are part of the digested rest.
- Harness: an exception inside a task takes the same path through the counters; timings are not modelled.
- Selection: standard deviation is any function of the bag of scores; an unknown profile is not modelled.
- Blinding.Evaluate: labels are positions of letters, so key rows with other labels are not modelled.
- ProviderChain: prices are numbers or missing; the display-name fallback of a provider slug is not modelled.
- Prompt fixtures, report rendering, catalog fetching, paraphrase and counter-set tools, and the sales bot itself.
