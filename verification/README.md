# TauCeti worker: accounting, audit and cache protocols

This Dafny project models the parts of the TauCeti worker in which money, coverage
claims and shared files must stay consistent over many steps, and proves what they
promise.

* **The budget ledger.** Its state is a fold over transactions of typed events. The
  writers are specified as functions from a state to the events that they append
  (`Receipts`, `Writers`), and `Writers.Run` is any sequence of writer calls. The class
  `BudgetWriters.Budget` holds the ledger and the queue and does what the program does,
  loop by loop; each of its methods is proved to be one such step, so every theorem over
  runs is a theorem about sequences of its calls. The theorems are conservation,
  telescoping of resume chains, confluence, what each call charges and reserves
  (`Charges`, `Settlements`, `Funding`), admission safety with cooldowns and
  calibration, and fairness of the queue.
* **Around the ledger.** The indexed incremental projection (`SessionIndex`,
  `LedgerProjection`), the recovery planner on copy-on-write sessions (`RecoveryPlan`,
  `Recovery`, `RecoveryOutcomes`), torn writes and their repair (`LedgerBytes`, `LedgerRepair`,
  `RepairMarker`), usage evidence (`Usage`) and cost allocation (`Allocation`).
* **The paged audit reader**: lossless bounded pagination, the token protocol with lost
  answers and crashes, and one theorem from the coverage receipt to the rebuilt batch.
* **Two protocols of files**, as interleaved steps: the content-addressed cache with
  publishers and collectors, and the accounting bridge with failing reply writes. The
  entries of the cache stay complete with any number of collectors. How long a canonical
  name lives is stated for one, because `retention.run` holds `cleanup.lock` around each
  sweep (retention.py:576-577).
* **Ranks and Spearman correlation.**

`dafny verify dfyconfig.toml` checks the whole project.

Amounts are exact reals. A locked section is one atomic step. Clock readings, the
liveness of processes, the set of orphaned bridges, generated identities, the outcome of
file writes and the contents of receipts and usage journals are parameters over which
every theorem quantifies. Tickets and tokens are assumed to be new when they are
generated. The JSON encoding of a record is a parameter that decodes what it encodes and
contains no newline.

## Where the code does not do what one would expect

* A late native receipt that clamps earlier estimates, while sessions after it on the
  chain are already settled, shifts those sessions by its own change only. Their costs
  then no longer telescope. `ChainSteps.LateStep` gives the exact condition, and
  `CornerRun.ClampedLateReceiptBreaks` a run of writer calls that ends there.
* An indexed selection with a limit of zero selects nothing, while the linear one then
  keeps every row (`rows[-0:]`). `LedgerProjection.Projection.Select` states exactly when
  the two agree. No caller passes zero.
* A ledger file that exists and is empty has no final newline, so `repair` accepts it and
  writes a marker. `LedgerRepair.LedgerFile.Repair` follows the code.

## Model

| member | source | states |
|---|---|---|
| `Conservation.HonestAllApplies` | tauceti_worker/budget.py:178-221 | a record whose events state the amounts that the state implies always replays, and keeps spending equal to the sum of the session costs and balance plus spending equal to everything granted, set and earned |
| `HonestWriters.WriterHonest` | tauceti_worker/budget.py:360-387 | every writer (funding, admission, settlement, reconciliation, receipts, saved usage, cooldowns) appends only such events |
| `HonestWriters.ReceiptHonest` | tauceti_worker/budget.py:712-949 | so do all branches of a native receipt: clamps, the own correction, rebased successors, settlements and lower bounds |
| `HonestWriters.RecoverHonest` | tauceti_worker/budget.py:977-1072 | so does charging saved usage, complete or not |
| `HonestWriters.AdmitHonest` | tauceti_worker/budget.py:519-605 | so does an admission attempt with its orphan marks, whether it admits or waits |
| `HonestWriters.OrphansApply` | tauceti_worker/budget.py:528-531 | marking orphans changes exactly the active sessions whose bridge disappeared, and nothing but their status |
| `RunConservation.RunSound` | tauceti_worker/budget.py:343-358 | conservation over every run of writer calls, whatever was refused, repeated or corrected: the ledger replays and its books balance |
| `RunConservation.AccrualPathIndependent` | tauceti_worker/budget.py:318-323 | accruing at many clock readings, in any order and with the clock jumping backward, earns the rate up to the latest reading exactly once |
| `Ledger.ReplayAppend` | tauceti_worker/budget.py:162-250 | replaying an appended ledger is one more step from the state before |
| `Ledger.ReplayNumber` | tauceti_worker/budget.py:162-250 | a ledger that replays is numbered without gaps: its state counts all records |
| `StateBooks.Books.ReplayAll` | tauceti_worker/budget.py:162-250 | updating the state event by event fails exactly when the fold of all records fails, and otherwise ends in it |
| `StateBooks.Books.ApplyEvent` | tauceti_worker/budget.py:178-250 | one event updates the fields in place as the fold does, and fails exactly on a session that was never admitted |
| `StateBooks.Books.EarnRate` | tauceti_worker/budget.py:318-323 | accruing updates balance and watermark, and reports the event whose replay does the same |
| `Selection.EstimateCovers` | tauceti_worker/budget.py:438-460 | the admission estimate is positive, at least one without a sample, and covers the cheaper three quarters of its sample |
| `Selection.Quartile` | tauceti_worker/budget.py:456-459 | the number of covered costs is the least that is three quarters of the sample |
| `Calibration.SampleEmpty` | tauceti_worker/budget.py:438-456 | there is no cost sample exactly when no session of the model settled at a positive cost and no open one holds a positive reservation |
| `Calibration.SampleFrom` | tauceti_worker/budget.py:438-456 | every sampled cost is what a settled session of the model cost, of the phase if one of the phase settled; reservations count only while none settled |
| `Selection.Sort` | tauceti_worker/budget.py:456 | sorting a sample keeps its members with their multiplicities and puts them in order |
| `ReceiptEffects.ClampAllTargets` | tauceti_worker/budget.py:825-866 | however many providers a receipt names, each earlier session is corrected at most once, by the amount by which its cost really changes |
| `ReceiptEffects.RebaseTargets` | tauceti_worker/budget.py:884-922 | each later session is corrected at most once, all of them after the receipt's own session |
| `Corrections.CorrectAll` | tauceti_worker/budget.py:205-221 | corrections of distinct sessions change exactly those sessions, each by its own event, whatever the order |
| `Chains.ChainCostIsTotal` | tauceti_worker/budget.py:776-783 | in a linked ledger the costs through any position on a provider sum to the total recorded there |
| `Chains.BaselineIsPrev` | tauceti_worker/budget.py:778-783 | in a linked ledger the largest earlier total is the latest earlier total |
| `Chains.LooseSuffix` | tauceti_worker/budget.py:828-841 | the estimates above the last exact total are a suffix of the chain, and the total before them is that exact total |
| `ClampTheorem.ClampSplits` | tauceti_worker/budget.py:837-866 | clamping one provider whose sessions have nonnegative costs: every trailing estimate gets a nonnegative cost, the cumulative totals rise from the last exact total, and the costs sum to native minus exact; also when all the estimates were free |
| `RunCosts.RunPaid` | tauceti_worker/budget.py:607-949 | over every run no session costs a negative amount, whatever receipts and journals say |
| `RunCosts.ReachableClampSplits` | tauceti_worker/budget.py:837-866 | so in every ledger that writers produce from nothing, clamping splits as above |
| `ClampTheorem.ClampAllIff` | tauceti_worker/budget.py:825-843 | a receipt cannot be clamped if and only if one of its providers is below the exact total, has nothing to clamp, or has estimates with mixed providers |
| `ClampTheorem.BlockedChangesNothing` | tauceti_worker/budget.py:867-868 | one provider that cannot be clamped stops the whole receipt: no amount and no total is recorded, at most the session is marked unresolved |
| `ClampedChains.ClampChain` | tauceti_worker/budget.py:844-866 | clamping keeps every session before the receipt linked to the one before it and makes the chain end at the native total, without touching other providers |
| `Rebasing.RebaseKeepsChain` | tauceti_worker/budget.py:884-922 | when the previous total really moved by the stated change, every later session still costs its total minus the previous one |
| `Rebasing.RebaseBreaksChain` | tauceti_worker/budget.py:884-922 | when it moved by anything else, the ledger is no longer linked |
| `Telescoping.FirstReceiptChained` | tauceti_worker/budget.py:923-946 | the first native receipt of a session keeps the chain invariant, with clamping where its total is below the chain |
| `Telescoping.LateReceiptChained` | tauceti_worker/budget.py:871-922 | a late native receipt keeps the chain invariant if and only if it is not below its baseline or nothing settled follows on the chain |
| `ChainSteps.LateStep` | tauceti_worker/budget.py:821-947 | the same for the transaction that is appended: the invariant survives a late receipt exactly under that condition, and totals of earlier native receipts survive always |
| `ChainSteps.LaunchStep` | tauceti_worker/budget.py:519-605 | an admission attempt keeps the chain invariant, because a resume is refused while another session resumes the same provider |
| `ChainSteps.EstimateStep` | tauceti_worker/budget.py:1017-1045 | settling a complete journal by its estimate keeps the chain invariant |
| `ChainSteps.PrefixStep` | tauceti_worker/budget.py:1046-1071 | charging the prefix of an incomplete journal keeps the chain invariant |
| `ChainTheorems.WriterStep` | tauceti_worker/budget.py:519-949 | every writer call other than a manual settlement keeps the chain invariant, and no native session ever changes its totals |
| `RunTelescoping.RunChained` | tauceti_worker/budget.py:821-947 | the same over every run of such calls |
| `RunTelescoping.Telescopes` | tauceti_worker/budget.py:776-783 | telescoping: after any such run the costs of the sessions on a provider up to and including a session sum exactly to the total recorded for it, and the session costs that total minus the costs before it |
| `CornerRun.CornerReached` | tauceti_worker/budget.py:1017-1045 | two estimates with totals 10 and 15 and a third session with the native total 18, all on one chain, are reached from the empty files by funding, launches, saved usage and a native receipt |
| `CornerRun.ClampedLateReceiptBreaks` | tauceti_worker/budget.py:886-922 | the exception is real: from there a native receipt of 8 for the second session is accepted, and then the costs through the third session sum to 16 although its own native total is 18 |
| `Evidence.EvidenceDecides` | tauceti_worker/budget.py:821-947 | in linked ledgers the admission order and what was reported about each session determine every cost, every total and the spending |
| `Evidence.ReceiptTells` | tauceti_worker/budget.py:871-922 | a receipt at or above its baseline changes what is known of its own session only, although it corrects later sessions |
| `SettledSessions.AllKeepCertain` | tauceti_worker/budget.py:205-221 | honest events never turn a session that was settled natively or by hand back into an estimate, unless one of them says so |
| `RepeatedReceipts.WriterRespects` | tauceti_worker/budget.py:837-866 | no writer appends an event that says so: only estimates are clamped |
| `RepeatedReceipts.RepeatedReceipt` | tauceti_worker/budget.py:767-768 | idempotence: once a native receipt was recorded, clamped or late, for any number of providers, and after any further run of writers, every receipt for its session leaves ledger and queue as they are |
| `Confluence.LateEqualsEarly` | tauceti_worker/budget.py:871-922 | a native receipt applied after its own estimate and after later sessions settled ends with the same costs, totals and spending as a ledger in which it came first |
| `Confluence.UsageTells` | tauceti_worker/budget.py:1017-1071 | charging saved usage changes what is known of its own session only |
| `Confluence.EstimateThenReceipt` | tauceti_worker/budget.py:923-946 | a token-priced prefix or estimate first and the native receipt later, or the receipt alone: both are accepted and end with the same amounts |
| `RunConfluence.HistoriesAgree` | tauceti_worker/budget.py:519-1071 | any two runs that admitted as many sessions and know the same about each agree on every cost, every total and the spending, in whatever order the evidence arrived |
| `RelatedRows.NativeRelated` | tauceti_worker/budget.py:288-297 | settling a native receipt against the provider-linked sessions only gives the same transaction as settling it against the whole ledger |
| `RelatedRows.ClampAllRelated` | tauceti_worker/budget.py:776-866 | so does clamping |
| `RelatedRows.RebaseRelated` | tauceti_worker/budget.py:884-922 | so does rebasing the later sessions |
| `ReceiptLoops.Baselines` | tauceti_worker/budget.py:778-783 | the loop over earlier sessions finds for every provider its largest recorded total |
| `ReceiptLoops.Spread` | tauceti_worker/budget.py:844-866 | the clamping loop issues the proportional corrections and its cursor ends at the native total |
| `ReceiptLoops.ClampProviders` | tauceti_worker/budget.py:825-866 | the loop over providers stops exactly when one of them cannot be clamped; otherwise every clamped baseline is now its native total |
| `ReceiptLoops.Successors` | tauceti_worker/budget.py:886-922 | the loop over later sessions refuses mixed baselines and negative costs, rebases estimates, and stops at the first native session |
| `Accounting.SettleAgainst` | tauceti_worker/budget.py:712-949 | the whole of a native receipt decides as the specification of its transaction does, from the provider-linked sessions only |
| `Accounting.NativeAgainst` | tauceti_worker/budget.py:821-947 | settling against the provider-linked sessions: none exactly when some provider cannot be clamped |
| `Accounting.ChargeIsSum` | tauceti_worker/budget.py:867-869 | the cost of a receipt at or above its baselines is the sum of its plain differences |
| `BudgetWriters.Budget.Configure` | tauceti_worker/budget.py:360-387 | funding appends the one record of the model's step, or is refused without a trace |
| `BudgetWriters.Budget.Admit` | tauceti_worker/budget.py:519-605 | an admission attempt changes ledger and queue exactly as the model's step, and reports its reason |
| `BudgetWriters.Budget.SettleCost` | tauceti_worker/budget.py:607-661 | a settlement with a known or unknown cost is the model's step |
| `BudgetWriters.Budget.Reconcile` | tauceti_worker/budget.py:663-710 | a manual reconciliation is the model's step |
| `BudgetWriters.Budget.SettleReceipt` | tauceti_worker/budget.py:712-949 | a native receipt is the model's step, which the theorems over runs speak about |
| `BudgetWriters.Budget.RecoverUsage` | tauceti_worker/budget.py:977-1072 | charging saved usage is the model's step |
| `BudgetWriters.Budget.CoolDown` | tauceti_worker/budget.py:1079-1083 | a cooldown is the model's step |
| `BudgetWriters.Budget.WaitForAdmission` | tauceti_worker/budget.py:417-436 | a preflight wait changes the queue file only |
| `BudgetWriters.Budget.RefreshWaiter` | tauceti_worker/budget.py:406-412 | a heartbeat changes the queue file only, and only for a wait that is still fresh |
| `BudgetWriters.ReasonToWait` | tauceti_worker/budget.py:552-568 | the chain of conditions over the marked sessions finds the first obstacle as defined over the unmarked state |
| `AdmissionLoops.MarkOrphans` | tauceti_worker/budget.py:528-531 | the marking loop marks and reports exactly the orphans among the unsettled sessions |
| `AdmissionLoops.FirstInLine` | tauceti_worker/budget.py:541-551 | the first wait is found, if and only if there is one in line for the model |
| `AdmissionLoops.UnsettledOrphans` | tauceti_worker/budget.py:525-531 | looking at unsettled sessions only misses no orphan |
| `Solvency.AdmissionCovered` | tauceti_worker/budget.py:519-605 | right after every admission the balance covers the sum of all outstanding reservations, the new one included |
| `Solvency.AttemptExposure` | tauceti_worker/budget.py:528-585 | a refused or waiting attempt changes neither the costs nor the reservations of any session |
| `SolventRuns.AvailableIsFundsLessExposure` | tauceti_worker/budget.py:534 | what is available for admissions is what came in less what sessions cost and may still cost |
| `SolventRuns.SettlementAvailable` | tauceti_worker/budget.py:607-661 | how a settlement changes what is available, and that it takes nothing from other reservations if and only if its cost is within its own reservation and charged prefix |
| `Availability.ChainReceiptAvailable` | tauceti_worker/budget.py:821-946 | the first native receipt of a session on a chain, clamped or not, takes exactly what its total adds to the baseline, and takes nothing from other reservations if and only if that is within its own reservation and charged prefix |
| `Availability.FirstReceiptAvailable` | tauceti_worker/budget.py:821-946 | the same for any number of providers: the charge, less what clamping gives back |
| `Availability.LateReceiptAvailable` | tauceti_worker/budget.py:871-922 | a late native receipt takes its charge in place of the old cost, less what clamping and the first later native session give back |
| `Availability.BoundAvailable` | tauceti_worker/budget.py:786-820 | a lower bound exchanges the old reservation for the new one: the least amount that, with what was charged, covers what is known and a full further estimate, and that is not below the old reservation |
| `Charges.BoundReserved` | tauceti_worker/budget.py:786-820 | the same over the ledger after the receipt, from the receipt itself: the further estimate is the largest of the session's, the model's and what is known, unless the tail of a charged prefix is recorded, and no smaller reservation would do |
| `Charges.JournalCharged` | tauceti_worker/budget.py:977-1072 | over the ledger after the call: a session is charged the larger of the journal's price and its lower bound, complete or not; an incomplete journal at a new checkpoint reserves the largest of both estimates and that charge |
| `Charges.NothingCharged` | tauceti_worker/budget.py:969-981 | nothing is charged to a session that is settled, unknown or still running, or without a journal |
| `Settlements.CostSettled` | tauceti_worker/budget.py:607-661 | a settlement with a cost leaves the session settled at it, without one it keeps charge and reservation; no other session changes |
| `Settlements.CostRefused` | tauceti_worker/budget.py:607-634 | a settled session is not settled again, and a different cost is refused |
| `Settlements.Reconciled` | tauceti_worker/budget.py:663-710 | a reconciliation leaves the session at exactly the stated cost, with the totals and authority of a settled one, and changes no other; one that is not acceptable changes nothing |
| `Funding.Configured` | tauceti_worker/budget.py:360-387 | funding leaves the balance at the target, or the grant on top of everything earned up to the call, and the rate as set; settings that make no sense change nothing |
| `Availability.PrefixAvailable` | tauceti_worker/budget.py:1046-1071 | a charged prefix takes its cost and its tail in place of the old charge and reservation, with the exact condition for taking nothing from others |
| `Availability.EstimateAvailable` | tauceti_worker/budget.py:1017-1045 | a complete journal takes its cost in place of the old charge and reservation, with the exact condition |
| `SolventRuns.StepSolvent` | tauceti_worker/budget.py:519-605 | a call that does not set the balance and stays within its reservation leaves all reservations covered; an admission does so without any condition |
| `RunSolvency.NeverOverdrawn` | tauceti_worker/budget.py:519-605 | over every run of such calls the balance covers all reservations and is never negative |
| `Cooldowns.NoAdmissionWhileCooling` | tauceti_worker/budget.py:561-562 | after a cooldown, whatever writers do, no session of its model is admitted at a clock before its end |
| `Cooldowns.RunKeepsCooling` | tauceti_worker/budget.py:1079-1083 | no run of writers shortens a cooldown |
| `Cooldowns.NotCoolingAnymore` | tauceti_worker/budget.py:561-562 | once the clock has reached every cooldown that the ledger records for the model, a cooldown is never the reason to wait |
| `Calibration.CalibratesFirst` | tauceti_worker/budget.py:563-564 | while no session tells what a model costs, none of its sessions is admitted beside a live one, and only then is calibration the reason to wait |
| `Queueing.PlaceKept` | tauceti_worker/budget.py:406-436 | a fresh wait keeps its since and ticket through every call, of other workers and of its own, until it is admitted |
| `Queueing.AdmittedIsFirst` | tauceti_worker/budget.py:541-568 | whoever is admitted for a model stands, in line, before every other worker in line |
| `Queueing.OrderKept` | tauceti_worker/budget.py:535-585 | no two workers ever share a place |
| `RunQueueing.AlwaysOrderly` | tauceti_worker/budget.py:535-585 | from the empty files on, with new tickets, the queue that an admission attempt reads never has two waits in one place |
| `RunQueueing.RunKeepsPlace` | tauceti_worker/budget.py:535-585 | over every run a worker that stays in line keeps the place with which it came |
| `RunQueueing.NoOvertaking` | tauceti_worker/budget.py:541-605 | no overtaking: whoever is admitted for the model while a worker stays in line stood before the place with which that worker came |
| `SessionIndex.SaveKeepsIndex` | tauceti_worker/budget_projection.py:110-131 | saving one changed session keeps tables and sessions in agreement, in admission order |
| `SessionIndex.WriteInOverlay` | tauceti_worker/budget_projection.py:35-48 | writing into the overlay of changed sessions writes over the stored ones |
| `SessionIndex.AnswerUnique` | tauceti_worker/budget_projection.py:93-98 | a query ordered by admission has one answer only |
| `SessionIndex.FilterAnswer` | tauceti_worker/budget_projection.py:61-98 | the filter query answers with the linear filter, in the same order |
| `SessionIndex.RelatedAnswer` | tauceti_worker/budget_projection.py:100-108 | the provider query answers with the linear filter over recorded and resumed providers, in the same order |
| `SessionIndex.Query` | tauceti_worker/budget_projection.py:93-98 | the rows with the wanted identities, sorted by ordinal |
| `LedgerProjection.Projection.Select` | tauceti_worker/budget_projection.py:61-98 | an indexed selection is the linear one if and only if its limit is not zero or nothing matches |
| `LedgerProjection.Projection.RelatedTo` | tauceti_worker/budget_projection.py:100-108 | the indexed related sessions are the linear ones |
| `LedgerProjection.Projection.Save` | tauceti_worker/budget_projection.py:110-131 | saving keeps the state and empties the overlay |
| `LedgerProjection.Projection.ApplyIndexed` | tauceti_worker/budget_projection.py:212-214 | applying one record to the tables is applying it to the state, and fails exactly with it |
| `LedgerProjection.Projection.Update` | tauceti_worker/budget_projection.py:171-244 | an incremental load succeeds if and only if the full replay does, and then represents exactly its state; otherwise everything is rolled back |
| `LedgerProjection.Projection.Load` | tauceti_worker/budget_projection.py:159-244 | after any loads and appends the projection equals the full replay of all records |
| `LedgerProjection.AppendStaysFaithful` | tauceti_worker/budget_projection.py:181-191 | a projection stays usable while writers append |
| `LedgerProjection.ChangesStayFaithful` | tauceti_worker/budget_projection.py:181-195 | whatever writers append and repairs put in place of the ledger between two loads, in any order, the next load finds a projection that is either its own prefix or not taken for its own |
| `PlanLaws.ReplaysSame` | tauceti_worker/budget_recovery.py:123-132 | the collected events without their accruals lead to the same sessions and spending as the events that the plan replayed |
| `PlanLaws.ReceiptSettlesLast` | tauceti_worker/budget.py:923-946 | a receipt settles at most its own session, in its last event, so stating its finish time changes no amount |
| `RecoveryPlan.Plan.Append` | tauceti_worker/budget_recovery.py:123-132 | appending to the plan is applying the record to its private state; sessions of an earlier snapshot are never changed |
| `RecoveryPlan.Plan.ReplayInPlace` | tauceti_worker/budget_recovery.py:123-132 | replaying changes only copies of the sessions that the events name |
| `Recovery.TryReceipt` | tauceti_worker/budget_recovery.py:208-240 | the plan afterwards is the specified one: what the receipt adds, or the plan as it was when it is unusable |
| `Recovery.TryEstimate` | tauceti_worker/budget_recovery.py:241-316 | an unusable journal leaves the plan as before it; otherwise the plan is the specified one, with the candidate settled |
| `Recovery.EstimateEffect` | tauceti_worker/budget_recovery.py:243-314 | an estimate settles its own session only: at exactly what is certain when its journal is complete, else at the least amount that is neither below that nor below the guess |
| `Recovery.Consider` | tauceti_worker/budget_recovery.py:184-332 | a candidate is planned as specified; a failed one leaves state and events of the plan exactly as before it, and live sessions are never changed |
| `Recovery.PlanAll` | tauceti_worker/budget_recovery.py:175-332 | the drafts of the plan follow one another as specified, candidate by candidate; the collected events lead from the state before to the last draft whenever they are written, and live sessions are untouched |
| `Recovery.RowsAddUp` | tauceti_worker/budget_recovery.py:334-344 | the deltas of the rows sum to the change in cost, and the released reservations to the change in reservations |
| `Recovery.Committed` | tauceti_worker/budget_recovery.py:386-389 | committing the collected events as one transaction on the original ledger reproduces the planned sessions and spending |
| `Recovery.CommittedSound` | tauceti_worker/budget_recovery.py:386-389 | the committed ledger still conserves: every theorem about runs applies after a recovery |
| `Recovery.Recover` | tauceti_worker/budget_recovery.py:139-400 | outcomes and planned state are those of the specified planning of all candidates; a dry run, or a session that came alive, writes nothing; otherwise at most one record is appended, reproduces the planned sessions and spending and keeps the ledger sound |
| `RecoveryOutcomes.ReceiptPlanned` | tauceti_worker/budget_recovery.py:208-226 | a usable native receipt is always planned: for an eligible candidate whose own final receipt is at or above the planned baseline, acceptable, and reaches no live session, the whole plan ends with its session settled natively at the receipt's total and at its difference to the baseline, whatever the other candidates are |
| `RecoveryOutcomes.PlanOutcome` | tauceti_worker/budget_recovery.py:184-332 | exactly which candidates of a plan are left untouched, which fail, and which are planned |
| `RecoveryOutcomes.UsableTurn` | tauceti_worker/budget_recovery.py:208-226 | the same for receipts with any number of providers, clamped or not: the session is settled at the charge over the baselines, with the totals of the receipt |
| `RecoveryOutcomes.EstimatedTurn` | tauceti_worker/budget_recovery.py:241-316 | without a usable receipt an eligible candidate fails exactly when its session is open and its journal has to be read again; else it is planned, an open session at the estimate, and the estimate extends the chain of the resumed provider |
| `RecoveryOutcomes.OneUsable` | tauceti_worker/budget.py:745-775 | exactly when a final receipt for one provider is refused: a negative amount, a live process, a failed launch that left usage, an impossible finish time, or later totals that cannot be kept |
| `RecoveryOutcomes.UntilTurn` | tauceti_worker/budget_recovery.py:183-240 | until its turn a candidate's session changes in cost and totals only, and not at all while it is open |
| `RecoveryOutcomes.AfterTurn` | tauceti_worker/budget_recovery.py:183-240 | once a session has a native cost no later candidate changes it |
| `PlannedCorrections.TurnKeeps` | tauceti_worker/budget_recovery.py:317-320 | planning one candidate may correct estimates before it, and cost and totals of settled sessions after it, and nothing else |
| `History.PhaseFirst` | tauceti_worker/budget_recovery.py:60-82 | every rate in use is what another session of the model, settled natively at a positive cost within the week before the launch, really cost per second; three of the phase are compared with nobody else |
| `History.HistoricalExactly` | tauceti_worker/budget_recovery.py:60-99 | the estimate is historical exactly when the session's time is known and at least three sessions can be compared with it, else it is what was estimated before the launch |
| `History.RatesCount` | tauceti_worker/budget_recovery.py:60-82 | every comparable session contributes exactly one rate |
| `History.MedianHalves` | tauceti_worker/budget_recovery.py:84 | at most half of the rates lie below their median, and at most half above |
| `History.GuessFromHistory` | tauceti_worker/budget_recovery.py:83-97 | a historical estimate lies between what the recorded time would have cost at two of those rates |
| `LedgerBytes.ReadWritten` | tauceti_worker/budget.py:143-160 | what was written is read back |
| `LedgerBytes.EveryPrefix` | tauceti_worker/budget.py:143-160 | for every byte prefix of an append, reading gives the old records, the new records, or the torn error |
| `LedgerRepair.LedgerFile.Records` | tauceti_worker/budget.py:143-160 | reading line by line is the parser of which the theorems speak |
| `LedgerRepair.LedgerFile.Append` | tauceti_worker/budget.py:343-358 | a write that stops early leaves a prefix of the line |
| `LedgerRepair.LedgerFile.Write` | tauceti_worker/budget.py:252-267 | no writer appends anything after a torn line |
| `LedgerRepair.LedgerFile.Repair` | tauceti_worker/budget.py:1085-1133 | repair succeeds exactly with a note, a ledger without a final newline and a prefix that replays; the damaged bytes are archived unchanged |
| `LedgerRepair.RepairKeepsRecords` | tauceti_worker/budget.py:1085-1133 | repairing any torn write gives back exactly the old records plus one marker with the next number |
| `RepairMarker.RepairedIsUnaudited` | tauceti_worker/budget.py:1106-1120 | the repaired ledger keeps the books balanced and holds an unsettled marker |
| `RepairMarker.RunKeepsMark` | tauceti_worker/budget.py:1106-1120 | no run of writers removes the marker |
| `RepairAudit.StepKeepsOpen` | tauceti_worker/budget.py:607-1072 | a call that does not name the marker (no settlement with a cost, reconciliation, receipt or saved usage for it) leaves it unsettled |
| `RepairAudit.NoAdmissionUntilAudited` | tauceti_worker/budget.py:553-554 | after a repair no admission succeeds, whatever writers do, as long as no call names the marker |
| `RepairAudit.ReconciledMarker` | tauceti_worker/budget.py:663-710 | a reconciliation of the marker ends this |
| `AuditSections.Cut` | tauceti_worker/audit_reader.py:31-38 | a section is never empty before the end, at most the width, and ends after its last newline if there is one |
| `AuditSections.RebuildSections` | tauceti_worker/audit_reader.py:28-58 | cutting loses nothing: the sections of any fields rebuild exactly those fields, with null kept apart from empty text |
| `AuditSections.OnlyNamesOverflow` | tauceti_worker/audit_reader.py:30-50 | long text never exceeds a page; only the names of a commit and a path can |
| `AuditPages.Paginator.Add` | tauceti_worker/audit_reader.py:48-55 | a section goes on the current page or on a new one, and is refused exactly when it alone exceeds a page |
| `AuditPages.Paginator.AddField` | tauceti_worker/audit_reader.py:28-58 | a field is refused exactly when one of its sections is |
| `AuditPages.Pages` | tauceti_worker/audit_reader.py:23-61 | pagination fails exactly when some section alone exceeds a page; otherwise no page is empty or too large and flattening the pages gives all sections in order |
| `AuditReader.Open` | tauceti_worker/audit_reader.py:65-89 | a reader starts afresh without a retained receipt, with its memory when it fits the batch, and not at all when it does not |
| `AuditReader.Reader.Request` | tauceti_worker/audit_reader.py:119-175 | a page is delivered exactly for the current token or an empty one, already read or next in order, and only after the receipt was replaced; a refused request changes nothing |
| `AuditRuns.ReceiptRoundTrip` | tauceti_worker/audit_reader.py:73-89 | a written receipt restores the memory from which it was written |
| `AuditRuns.Reachable` | tauceti_worker/audit_reader.py:119-175 | in every reachable state, with lost answers, crashes before and after the receipt write, and restarts, the read pages are a prefix and all but possibly the last one reached the client, that one too if it holds the current token |
| `AuditRuns.CoverageProves` | tauceti_worker/audit_progress.py:50-75 | complete coverage and the final token prove that every page reached the client |
| `AuditBatches.RebuildWhole` | tauceti_worker/audit_reader.py:26-28 | the list of commits and all fields determine the batch, with commits that changed no file and the boundaries between commits |
| `AuditRuns.CompleteInspection` | tauceti_worker/audit_reader.py:23-61 | end to end: such a client can rebuild the whole batch, whose commits have distinct hashes, from the pages and the list of commits that it received |
| `CacheSteps.PublishKeeps` | tauceti_worker/expanded_cache.py:300-312 | the rename that makes an entry visible shows all its files at once and hands their canonical names to the entry |
| `CacheSteps.LinkCanonKeeps` | tauceti_worker/expanded_cache.py:74-89 | a canonical name is created only beside a publication link of the same file |
| `CacheSteps.EvictKeeps` | tauceti_worker/cache_storage.py:243-271 | evicting an entry takes none of another entry's files |
| `CacheSteps.NextKeeps` | tauceti_worker/expanded_cache.py:208-311 | every step of publishers, readers and collectors keeps the invariant, in any interleaving |
| `CacheSafety.VisibleEntriesComplete` | tauceti_worker/expanded_cache.py:208-311 | every visible entry contains every file that it lists, each with the content of its hash name |
| `CacheSafety.CanonicalKeepsTwoLinks` | tauceti_worker/cache_storage.py:285-297 | while a canonical file is recorded as held by its creator, it has a second link, and no collector sees it as unreferenced |
| `CacheLifetimes.CreatedNameStays` | tauceti_worker/cache_storage.py:285-297 | from the step in which a publisher creates a canonical name, through any moves of publishers, readers and one collector: as long as that publisher does not fail and its entry is not evicted, the name exists and its file has at least two links |
| `CacheSingleCollector.NeverTakesHeld` | tauceti_worker/cache_storage.py:285-297 | a single collector never removes a canonical name that its creator still holds |
| `BridgeSafety.HandledKeeps` | tauceti_worker/claude_api.py:225-293 | handling a request keeps the invariant: an allowed answer carries the identity that was just admitted for its ticket |
| `BridgeProgress.AnswerMeans` | tauceti_worker/claude_api.py:225-293 | exactly when a request is allowed, told to wait, or refused: with capacity, funds and no failure every ticket that was not admitted before is allowed, waiting admits nothing, and without a failure only a ticket admitted before is refused |
| `BridgeSafety.NextKeeps` | tauceti_worker/claude_api.py:322-351 | every step of clients, server and files keeps the invariant |
| `BridgeSafety.OneAdmission` | tauceti_worker/claude_api.py:225-293 | however requests are duplicated, collected early or answered by failing writes, each ticket has at most one ledger admission |
| `BridgeSafety.LaunchesAdmitted` | tauceti_worker/claude_api_client.py:127-143 | a client launches at most once, only under an identity that the ledger admitted for its own ticket, and no two clients share one |
| `BridgeProgress.ServedLaunches` | tauceti_worker/claude_api.py:225-293 | from any reachable world a client that waits with a new ticket launches, under the identity just admitted for it, when it is served with capacity and funds, its reply is written, and it reads it |
| `BridgeProgress.AllowedLaunches` | tauceti_worker/claude_api_client.py:127-143 | an answered admission is not lost: the same however the other clients, the server and the sweeper act in between |
| `BridgeProgress.RunStaysAnswered` | tauceti_worker/claude_api.py:322-351 | no move but the client's own takes an allowed reply away |
| `BridgeServer.Context.Handle` | tauceti_worker/claude_api.py:225-293 | the server's tables after a request are those of the protocol |
| `BridgeServer.Context.Answering` | tauceti_worker/claude_api.py:330-346 | one message: a request that cannot be read, or is gone, is answered with an error; each answer and its write are two protocol steps |
| `BridgeServer.Context.Pass` | tauceti_worker/claude_api.py:322-351 | a pass over inbox and outbox is a sequence of protocol steps, answers all requests whose reply can be written, and keeps only replies whose request is still there |
| `Usage.Evidence` | tauceti_worker/budget_usage.py:8-49 | the loop over earlier sessions finds the unseen responses, their price, and whether the journal is complete |
| `Usage.PricedSum` | tauceti_worker/budget_usage.py:36-49 | the price is the sum of the prices of all responses, wherever they stand |
| `Usage.ChargedToFirst` | tauceti_worker/budget_usage.py:17-41 | a response is charged to a session of a resume chain if and only if that session recorded it and none before it did |
| `Usage.ChargesDisjoint` | tauceti_worker/budget_usage.py:17-41 | no response is charged to two sessions of a chain |
| `Usage.EverythingCharged` | tauceti_worker/budget_usage.py:17-41 | every recorded response is charged to some session of the chain |
| `Allocation.Allocate` | tauceti_worker/activity_costs.py:124-144 | however the divisions round, the parts of a cost sum exactly to it |
| `Allocation.UnusedIsFirst` | tauceti_worker/activity_costs.py:90-96 | a response is taken exactly when no earlier session used its key and nothing before it in its journal has the same key |
| `Allocation.UnusedDistinct` | tauceti_worker/activity_costs.py:90-96 | no key is taken twice |
| `Allocation.UnusedKeys` | tauceti_worker/activity_costs.py:90-96 | no key that is not used yet is lost |
| `Allocation.Claim` | tauceti_worker/activity_costs.py:90-96 | the loop takes those responses, and marks all keys of the journal as used |
| `Allocation.Spread` | tauceti_worker/activity_costs.py:97-169 | the rows of one conversation are the proportional parts of its unused responses, or one row over its interval, and sum exactly to its value; a negative value is the only error |
| `Allocation.ProportionalRows` | tauceti_worker/activity_costs.py:124-131 | apart from rounding every response, the last one included, gets its part of a cost in proportion to its price |
| `Allocation.Prepare` | tauceti_worker/activity_costs.py:81-169 | it fails if and only if the value of some conversation is negative; otherwise the rows are those of each conversation in turn, from the responses that no earlier one used |
| `Allocation.ClaimedOnce` | tauceti_worker/activity_costs.py:90-96 | a response is used by the first conversation that recorded its key, and by no other |
| `Allocation.AccrualsAddUp` | tauceti_worker/activity_costs.py:81-169 | all accruals together sum to the values of all conversations |
| `Allocation.Accrued` | tauceti_worker/activity_costs.py:210-226 | the loop adds up the part of each accrual that falls into the window |
| `Allocation.KindsPartition` | tauceti_worker/activity_costs.py:231-239 | completed, live and stopped amounts sum to the undivided total of any window |
| `Allocation.WholeWindow` | tauceti_worker/activity_costs.py:210-226 | a window over all accruals recovers the sum of all their costs |
| `Ranks.Rank` | tauceti_worker/cost_model.py:876-888 | sorting and grouping gives each value the number of smaller values plus half the number of other equal ones |
| `Ranks.Order` | tauceti_worker/cost_model.py:877 | the order is sorted and names every position exactly once |
| `Ranks.RanksOrder` | tauceti_worker/cost_model.py:876-888 | ranks are equal exactly for equal values and smaller exactly for smaller values |
| `Ranks.RanksSum` | tauceti_worker/cost_model.py:876-888 | the ranks of n values sum to n(n-1)/2, with or without ties |
| `Ranks.MeanRank` | tauceti_worker/cost_model.py:896 | their mean is (n-1)/2 |
| `Ranks.CauchySchwarz` | tauceti_worker/cost_model.py:897-898 | the numerator squared is at most the product of the two sums of squares |
| `Ranks.SpearmanBound` | tauceti_worker/cost_model.py:891-899 | rho lies between -1 and 1, and is undefined only when its numerator is zero |
| `Ranks.AlikeCorrelate` | tauceti_worker/cost_model.py:891-899 | two columns that order their rows alike have rho 1 |

## Left out

- Telescoping and confluence of receipts with several providers: a chain is about one provider, as every launched session reports one; conservation and clamping are proved for any number.
- Manual settlements in the telescoping and confluence theorems: the repository's README.md:682-684 says that they do not restore a cumulative baseline; they are part of conservation, solvency and queueing.
- Rounding of `Decimal`, its string forms and finiteness checks: amounts are reals; only the remainder in the allocation loop is about rounding, where the rounding is arbitrary.
- BudgetWriters.Budget.Admit: a queue file in which two waits share both time and ticket, or in which a wait is filed under another worker's name. Tickets are generated identifiers, and no sequence of calls makes such a file (RunQueueing.AlwaysOrderly).
- BudgetWriters.ReasonToWait: the same.
- AdmissionLoops.FirstInLine: the same.
- Fields that no amount, decision or theorem depends on (notes, actors, owners, lifecycles, audit inputs and digests of recovery rows).
- The cached cost samples of a replayed state, which repeat the last costs of the sessions.
- The fallback of a receipt to an unresolved mark (budget.py:948-949) takes the lock a second time; here it belongs to the same step.
- The first, unlocked lookup of `recover_usage` (budget.py:969-976): saved usage and liveness are parameters of the locked part.
- Usage.Evidence: both the session's own journal and the earlier ones come from one lookup; only the own one may be reconstructed from a linked transcript in the program.
- Native transcripts, price tables, and the checks in `audit_recovery.py`: long lists of cases without a common invariant.
- History.GuessFromHistory: the result is not quantized to twelve decimals.
- History.PhaseFirst: whether an outcome text speaks of an estimate is a given set of sessions.
- Recovery.Recover: the written manifest files, the comparison with an earlier dry run and the refreshed journals are left out.
- Loss or corruption of the queue file: a file is there or the recorded waits are used, but it is never damaged between calls.
- LedgerProjection.ChangesStayFaithful: an inode number that is used again for a ledger; the program also compares a hash of the last bytes.
- LedgerProjection.Projection.Update: a file that keeps its identity is only ever appended to, as writers and repair do; an in-place rewrite that keeps the hashed last 256 bytes and changes size would go unnoticed.
- The fallback of an open projection to a full replay after a database error.
- CacheSafety.VisibleEntriesComplete: the copy across file systems in `link`, the deletion of unusable entries by `rmtree`, and link counts of files outside the pool are left out; private links of readers are modelled.
- Pressure, ages and sizes that decide what a collector evicts: a collector may evict any unlocked entry at any time.
- BridgeSafety.LaunchesAdmitted: a client's polling is one move that reads a reply, and its timeout is a move at any time; accounting switched off is not modelled.
- What follows the launch in the client (stream totals, receipts in the inbox, cooldown messages) and the server's record of launch failures.
- AuditReader.Reader.Request: the other methods of the tool protocol and the limit on the length of an answer.
- `legacy_coverage_only`, `continuation_prompt` and `snapshot` in `audit_progress.py`.
- HTTP, Zulip, GitHub, OAuth, the terminal interface, argument parsing, reports, `agents.py` and its process launches: plumbing and presentation.
