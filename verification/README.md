# ReconMate: verified model of the receivables backend

This project models the backend of ReconMate (`apps/api/app`): a ledger of invoices, payments and
promises, and the machines that work on it. Money is whole cents, a date is a day number, a table is
a sequence of rows. Code that updates rows, dictionaries or an arm's state in place is a class whose
methods are proved against functions on values; the theorems are about those functions, over every
input, every run or every interleaving.

- `Domain`, `Money`, `Sums`: entities, rounding to cents, sums over lists and dictionaries.
- `Engine`, `Recommendations`: how invoices, promises and cases are evaluated, and the recommendation
  cascade.
- `Experiment`, `ArmSteps`, `Dominance`, `ArmSafety`, `ArmRecords`, `ArmContacts`, `ArmPayments`: the
  paired shadow experiment. Two arms share every draw; theorems about the two runs together, and
  about books, attribution, contact and the origin of every record in each.
- `PolicySchedule`, `ReconMateSchedule`, `PolicyTrap`, `PolicyComparison`: the calendars of the two
  policies, and exactly when one of them never falls behind the other.
- `Ledger`, `Simulation`, `TickProperties`, `TickEvents`: simulation ticks and the relation every step keeps between
  an invoice and its successor.
- `Synchronisation`, `SyncAudits`: case states follow the facts, every detection due is audited, once.
- `Payments`, `PaymentRace`: payment requests, provider events, and concurrent delivery of one event.
- `Backend`: ticks, deliveries, requests and synchronisations in any order over one ledger.
- `History`: the ledger of every reachable state meets what the recovery proof assumes.
- `Workflow`: the approval-controlled action lifecycle.
- `PlanRegistry`, `Confirmation`, `ConfirmationProperties`, `ConfirmationRecovery`,
  `ConfirmationExpiry`: confirming a command plan over a durable log, with the process lost between
  any two commits.
- `Imports`, `Query`: import and structured queries.
- `Scoring`, `ScoringFacts`, `RiskOverTime`: risk scoring, what each signal stands for, and what time alone does to it.
- `Reconciliation`: the batch recovery proof.

## What the code does differently from what one might expect

- The plan registry is not purely a cache. Only the path through the log compares a plan with the
  latest recorded portfolio reset (`apps/api/app/commands/service.py:201-208`), so a plan still in
  memory can be confirmed where the same plan expires after a restart.
  `RegistryIsACacheExactly` gives the exact condition, `RestartCanExpireAPlan` a run. A reset clears
  the registry, but the reset on record carries the operating date and not the clock
  (`apps/api/app/seed/portfolio.py:383-385`), so a plan prepared later can still be dated before it.
- A stored promise status other than CANCELLED is ignored by the evaluator, and shadow invoices keep
  no payments. A shadow promise marked fulfilled is therefore evaluated active or broken again, and
  the ReconMate arm goes on treating it so (`ShadowPromisesAreNeverFulfilled`).
- Shadow customers have no consent columns, so communication is always permitted in the experiment.
- A payment overwrites the DISPUTED status, from the provider as well as in the experiment. Nothing
  here claims that disputes end only by resolution.
- A partial payment event may pick a one-cent invoice and then clears it; the availability test asks
  for more than one cent, the candidate list does not.
- In the experiment one draw decides both whether a payment is full and which share it is, so partial
  payments start at 25.1% of the balance, not at the configured 8% (`PartialPaymentShare`).
- Time alone can lower a risk score: when an invoice is issued that was paid in advance, its payment
  becomes visible and payment activity looks fresh. Simulated payments can prepare that, because a
  tick's candidates include invoices that are not issued yet. `MetricsNeverFallExactly` says when no
  metric can fall, `ScoreNeverFallsExactly` when no score can, `EarlyPaymentLowersTheScore` is an
  instance in which it does.
- ReconMate can recover less than the baseline, and not only by holding back. It falls behind for some
  draws exactly when, on a day on which the baseline's reminder is in force, its own last action need
  not have been outreach: because the case is closed, a payment is claimed or a promise is open, but
  also because the case is severe without a recent commitment, when it prepares an escalation that
  moves no money. A dispute alone costs nothing, since nobody pays while it lasts.
  `NeverBehindExactly` states this, `ThirtyDaysExactly` reduces it to one date.

## Reading the contracts

Random draws, random picks, clock readings, provider answers and the recommendation a guard consults
are inputs, so every theorem holds for all of them. Seeded draws are an arbitrary function of day and
channel into [0, 1); name-based identities are the constructor `FromCommand`, which is injective by
construction. Fractions are exact reals.

## Model

| member | source | states |
|---|---|---|
| `Dominance.CoupledDominance` | apps/api/app/reporting/recovery_experiment.py:313-329 | Two arms that start coupled and live through the same draws stay coupled after every day of any horizon (balance of the one ahead at most that of the one behind; same dispute flag and same promises while it is open), for any promise list, balance and policy, as long as its response increment is no weaker on the days on which a payment can be drawn for it |
| `Dominance.PairStartsCoupled` | apps/api/app/reporting/recovery_experiment.py:99-151 | The two shadow copies made from one case are coupled, either way round |
| `Dominance.PromiseLoopCoupled` | apps/api/app/reporting/recovery_experiment.py:209-220 | The promise loop keeps two arms coupled although the two may close at different promises |
| `Dominance.PaymentCoupled` | apps/api/app/reporting/recovery_experiment.py:286-310 | The payment draw keeps two arms coupled: the arm with the larger effect pays whenever the other does, and the larger balance keeps the larger remainder |
| `Money.FractionRemainderMonotone` | apps/api/app/reporting/recovery_experiment.py:68-71 | `b - round(b * k)` never decreases in `b` for any share `k` below one, although the payment is rounded half to even and clamped to one cent |
| `Money.PaymentRemainderMonotone` | apps/api/app/reporting/recovery_experiment.py:68-75 | The same for the two-branch payment amount that one draw selects |
| `Money.PartialPaymentShare` | apps/api/app/reporting/recovery_experiment.py:68-75 | As one draw picks both branch and share, a partial payment is between 25.1% and 65% of the balance up to rounding; the 8% end of the configured range is never used |
| `Money.PaymentAmountBounds` | apps/api/app/reporting/recovery_experiment.py:74-75 | A payment on a positive balance is at least one cent and at most the balance |
| `Money.RoundExactly` | apps/api/app/reporting/recovery_experiment.py:71-71 | An amount is the rounded one if and only if it is nearest, and even when two are equally near |
| `Money.PaymentAmountExactly` | apps/api/app/reporting/recovery_experiment.py:68-75 | Draws below 0.30 clear the balance; others pay the share between 8% and 65% that they pick, rounded, and a cent at least |
| `PolicyComparison.NeverBehindExactly` | apps/api/app/reporting/recovery_experiment.py:248-310 | On an admitted case, ReconMate has at most as much outstanding as its baseline twin under all draws and on all days of a horizon if and only if outreach is to be expected on every contact day behind a day of the baseline's window (`AlwaysAnswers`): a condition on closure, claims, promises, signals, priority, balance, delay and dispute at the start |
| `PolicyComparison.ThirtyDaysExactly` | apps/api/app/reporting/recovery_experiment.py:32-37 | Over the experiment's own thirty days one look at one date decides: day 28 for a case undisputed at the start, day 29 for a disputed one |
| `PolicyComparison.AnsweringNeverFallsBehind` | apps/api/app/reporting/recovery_experiment.py:248-310 | The sufficient half, for every horizon and without assumptions on the promises |
| `PolicyComparison.AnUnansweredWindowCanCostEverything` | apps/api/app/reporting/recovery_experiment.py:248-310 | The necessary half: wherever outreach cannot be expected, explicit draws under which the baseline recovers everything and ReconMate nothing |
| `PolicyComparison.ReconMateNeverFallsBehindOnRoutineCases` | apps/api/app/reporting/recovery_experiment.py:262-283 | On a routine overdue case, disputed or not, the condition holds, so ReconMate never has more outstanding |
| `PolicyComparison.UnwillingNeverGetsAhead` | apps/api/app/reporting/recovery_experiment.py:262-273 | On a case that is closed, claims a payment or has an open promise, the baseline never has more outstanding than ReconMate |
| `PolicyComparison.HeldCaseNeverGetsAhead` | apps/api/app/reporting/recovery_experiment.py:262-273 | On a case with a promise not yet due within the horizon ReconMate takes no action at all, and never has less outstanding than the baseline |
| `PolicyComparison.HoldingCanCostTheWholeBalance` | apps/api/app/reporting/recovery_experiment.py:248-283 | A failing instance of the condition: a case held by a promise, on which the baseline recovers everything and ReconMate nothing |
| `PolicyComparison.EscalatingCanCostTheWholeBalance` | apps/api/app/reporting/recovery_experiment.py:262-283 | A failing instance without any hold: a large balance, for which ReconMate prepares an escalation that moves no money |
| `PolicySchedule.BaselineEffect` | apps/api/app/reporting/recovery_experiment.py:248-259 | The baseline responds, with its one increment, exactly in the first week of every fortnight while money is owed |
| `PolicySchedule.OutreachFades` | apps/api/app/recommendations/service.py:56-63 | Outreach to be expected on a date was to be expected on every earlier one: signals age and delays grow |
| `ReconMateSchedule.RunOnCalendar` | apps/api/app/reporting/recovery_experiment.py:262-283 | On a willing case, under any draws and through any dispute, ReconMate's last action is at most a week old, falls on a multiple of seven days if the case was undisputed, and left its window exactly when outreach was to be expected |
| `ReconMateSchedule.PolicyOnCalendar` | apps/api/app/reporting/recovery_experiment.py:262-283 | One day of the policy keeps that calendar, on disputed days too |
| `ReconMateSchedule.WillingRecommendation` | apps/api/app/recommendations/service.py:106-147 | Undisputed, such a case is recommended for outreach if it is mild and for an escalation if not, without a blocker |
| `ReconMateSchedule.UnwillingNeverResponds` | apps/api/app/reporting/recovery_experiment.py:262-283 | On every other case ReconMate never opens a response window, under any draws |
| `PolicyTrap.TrapSprings` | apps/api/app/reporting/recovery_experiment.py:286-310 | Under the trap draws nothing happens to either arm before the chosen day, on which an arm that responds is cleared and one that does not is left alone |
| `PolicyTrap.TrapFindsNoWindow` | apps/api/app/reporting/recovery_experiment.py:262-310 | If outreach cannot be expected on a possible contact day, the trap whose dispute ends that day finds ReconMate without a window |
| `ArmSafety.BooksBalance` | apps/api/app/reporting/recovery_experiment.py:170-200 | After every day recovered plus outstanding is the starting exposure, and the payment rows form an unbroken before/after chain with positive amounts and consecutive ordinals |
| `ArmSafety.AttributionIsAccountable` | apps/api/app/reporting/recovery_experiment.py:223-310 | After every day each payment credited to an action names one of the arm's actions that was completed, has a positive effect and is at most six days old; intervention credit occurs in the ReconMate arm only |
| `ArmSafety.ReconMateContactIsSafe` | apps/api/app/reporting/recovery_experiment.py:262-283 | Every ReconMate action ever recorded falls on a day with positive balance, no dispute, no promise evaluated active and no blocker, is the action recommended that day, and comes at least seven days after the one before |
| `ArmSafety.UnblockedIsClear` | apps/api/app/recovery/engine.py:156-201 | A recommendation without blockers means an undisputed case with no active promise |
| `ArmRecords.BaselineKeepsItsSchedule` | apps/api/app/reporting/recovery_experiment.py:248-259 | The baseline contacts on exactly every fourteenth day on which money is owed, and its two counters are the numbers of those days that met a dispute and an active promise |
| `ArmRecords.ReconMateNeverViolates` | apps/api/app/reporting/recovery_experiment.py:262-283 | Counted as the baseline's contacts are, no contact of ReconMate meets a dispute or an active promise, so its violation counters are rightly zero |
| `ArmRecords.PaymentsAreDated` | apps/api/app/reporting/recovery_experiment.py:170-200 | Payment rows are in day order within the days lived; the full-recovery day is set exactly when nothing is outstanding and is the day of the last payment |
| `ArmRecords.ShadowPromisesAreNeverFulfilled` | apps/api/app/reporting/recovery_experiment.py:112-138 | In an arm every promise is evaluated by its date alone, active up to it and broken after, even one marked fulfilled and paid |
| `ArmContacts.ReconMateRecordsExactly` | apps/api/app/reporting/recovery_experiment.py:262-283 | Over every draw and day: each ReconMate action is the one recommended that day and is completed if and only if that needed no approval or the approval draw fell below 0.80; the completed counter counts the completed rows; there is an action on exactly the days on which money is owed, the recommendation is actionable and no action is less than a week old; deferral and decisions are those of the days shown |
| `ArmContacts.EscalationNeedsApproval` | apps/api/app/reporting/recovery_experiment.py:276-283 | An escalation is completed if and only if its approval draw fell below 0.80 |
| `ArmContacts.PolicyRecords` | apps/api/app/reporting/recovery_experiment.py:223-283 | One day of the policy, told by the recommendation: row, completion, increment, counters, deferral and decision note |
| `ArmContacts.CompletedActionsAreRemembered` | apps/api/app/reporting/recovery_experiment.py:235-245 | After every day the shadow case of either arm holds one executed follow-up, with its date, for each completed action and nothing for the others |
| `ArmPayments.PaymentsAreFounded` | apps/api/app/reporting/recovery_experiment.py:203-310 | Every payment row of every run is founded: a promise that had come due and was kept by a draw below 0.55, paid as far as the balance went, or a draw of that day, for the amount drawn, natural below the natural probability and otherwise brought about by the increment of a completed action at most six days old |
| `ArmPayments.DrawExactly` | apps/api/app/reporting/recovery_experiment.py:286-310 | When a payment is drawn, its amount, association and action reference, and that nothing else happens |
| `ArmPayments.PromiseStepExactly` | apps/api/app/reporting/recovery_experiment.py:209-220 | When a promise is kept, broken or left alone, and what is paid |
| `ArmPayments.DisputeEndsExactly` | apps/api/app/reporting/recovery_experiment.py:207-208 | A dispute ends when the draw falls below 0.04, and leaves the invoice overdue |
| `ArmPayments.ShadowExactly` | apps/api/app/reporting/recovery_experiment.py:99-151 | What an arm starts from, field by field |
| `ArmPayments.ShadowPromisesExactly` | apps/api/app/reporting/recovery_experiment.py:125-138 | Exactly the promises evaluated active or broken are copied, with that status, their date and identity, no source, and at most the balance |
| `Experiment.NaturalGrows` | apps/api/app/reporting/recovery_experiment.py:63-65 | The natural daily probability grows evenly from 0.6% to 1.5% over half a year overdue, and stays there |
| `ArmSteps.PromiseLoopKeeps` | apps/api/app/reporting/recovery_experiment.py:203-220 | External events leave actions, response window, decisions, counters and the terms of every promise alone and cancel no promise |
| `ArmSteps.PolicyKeepsInvoice` | apps/api/app/reporting/recovery_experiment.py:248-283 | Neither policy ever touches the invoice |
| `Experiment.ClosedArmStays` | apps/api/app/reporting/recovery_experiment.py:317-323 | Leaving the day loop early is the same as living to the end, because a closed arm no longer changes |
| `Experiment.ShadowPromises` | apps/api/app/reporting/recovery_experiment.py:125-138 | A copied promise is never larger than the balance and never cancelled |
| `Experiment.CopyOpenPromises` | apps/api/app/reporting/recovery_experiment.py:124-138 | The copying loop yields the active and broken promises, in order |
| `Experiment.Arm.constructor` | apps/api/app/reporting/recovery_experiment.py:99-151 | A fresh arm is the shadow copy: original amount set to the balance, no payments, no actions, no consent columns |
| `Experiment.Arm.Pay` | apps/api/app/reporting/recovery_experiment.py:170-200 | Booking a payment in place keeps to `ApplyPayment`, for which `BooksBalance` and `PaymentsAreDated` are proved: never more than the balance, a non-positive amount leaves no trace |
| `Experiment.Arm.LivePromise` | apps/api/app/reporting/recovery_experiment.py:209-220 | One promise on one day keeps to `PromiseStep`, for which the coupling of two arms is proved: only an active, due promise can change, and what it pays is capped by the balance left by the promises before it |
| `Experiment.Arm.LiveExternalEvents` | apps/api/app/reporting/recovery_experiment.py:203-220 | The loop over the promises keeps to `ExternalEvents`, although every iteration may change the invoice it reads; a closed arm is skipped, an arm that closes inside the loop goes on |
| `Experiment.Arm.Record` | apps/api/app/reporting/recovery_experiment.py:223-245 | Recording an action keeps to `RecordAction`, for which attribution is proved: an unapproved action counts as an attempt but opens no response window |
| `Experiment.Arm.ApplyBaselinePolicy` | apps/api/app/reporting/recovery_experiment.py:248-259 | The baseline policy keeps to `BaselinePolicy`, for which the schedule and both violation counts are proved |
| `Experiment.Arm.ApplyReconMatePolicy` | apps/api/app/reporting/recovery_experiment.py:262-283 | The ReconMate policy keeps to `ReconMatePolicy`, for which safe contact is proved |
| `Experiment.Arm.DrawPayment` | apps/api/app/reporting/recovery_experiment.py:286-310 | The payment draw keeps to `SimulatedPayment`, for which coupling and attribution are proved |
| `Experiment.Arm.LiveDay` | apps/api/app/reporting/recovery_experiment.py:318-328 | External events, policy and payment draw in this order, the last two only while money is owed |
| `Experiment.Arm.Simulate` | apps/api/app/reporting/recovery_experiment.py:313-329 | The whole day loop with its early exits computes the run the theorems are about |
| `ConfirmationProperties.ConfirmationIsExactlyOnce` | apps/api/app/commands/service.py:138-171 | Over any sequence of preparations, confirmations that may lose the process between any two commits, restarts and operator work: at most one action row per (plan, proposal), each for a proposal selected by the first recorded request with its case and recommendation; recorded requests never change; all results returned for a plan are equal |
| `ConfirmationProperties.RunKeepsGood` | apps/api/app/commands/service.py:138-257 | The invariant behind it (registry faithful to the log and bounded, log coherent, action lifecycle, every command row authorised) holds after every run, and the log only grows |
| `ConfirmationProperties.ConfirmKeepsGood` | apps/api/app/commands/service.py:138-171 | One confirmation, cut short anywhere or not, keeps the invariant, and what it returns is what the log holds |
| `ConfirmationProperties.WorkKeeps` | apps/api/app/commands/service.py:211-250 | Every prefix of the durable steps keeps the log coherent and every command row authorised by the recorded request |
| `ConfirmationProperties.EmptyServerIsGood` | apps/api/app/commands/service.py:41-45 | A fresh installation satisfies the invariant |
| `ConfirmationRecovery.CrashThenRetryIsTransparent` | apps/api/app/commands/service.py:138-171 | If the process is lost at any point after the request was recorded, confirming again under the same facts, with any request, returns the result of the uninterrupted confirmation and leaves the same records |
| `ConfirmationRecovery.WorkResumes` | apps/api/app/commands/executor.py:39-98 | Finishing the durable steps after a cut gives what doing them in one go gives |
| `ConfirmationRecovery.RunProposalsAgain` | apps/api/app/commands/executor.py:62-98 | Working off a selection again over the rows of an interrupted attempt reports the same outcomes and adds only the missing rows |
| `ConfirmationRecovery.RegistryIsACacheExactly` | apps/api/app/commands/service.py:144-154 | A confirmation gives the same answer with and without what memory holds if and only if memory does not hold an unconfirmed, unexpired plan older than the latest recorded reset |
| `ConfirmationRecovery.RestartCanExpireAPlan` | apps/api/app/commands/service.py:201-208 | A run in which the condition fails, for all requests and facts: the same plan is confirmed from memory and expired from the log |
| `ConfirmationRecovery.ResultTellsTheTruth` | apps/api/app/commands/executor.py:62-98 | A selected proposal whose case is found is reported executed exactly when its action row exists afterwards |
| `ConfirmationRecovery.GoodMeansBound` | apps/api/app/workflow/service.py:76-83 | In every reachable state the rows carrying a plan's identities agree with the proposals selected, so re-creation never finds its identity bound to other work |
| `ConfirmationExpiry.ConfirmAnswersExactly` | apps/api/app/commands/service.py:144-154 | For every state, request and loss of the process: a recorded result is returned again, an unknown plan is not found, a plan at or past its own expiry date or met by a reset is expired, and none of these touches the log |
| `ConfirmationExpiry.OnlyValidPlansAreConfirmed` | apps/api/app/commands/service.py:153-154 | If a confirmation of an unconfirmed identity returns or records anything, its plan is known and has no expiry date or one still to come |
| `ConfirmationExpiry.ExpiredPlansAddNothing` | apps/api/app/commands/service.py:153-171 | Over every run, confirmations at or after a plan's expiry add no request, no result and no action row for it, whatever else happens |
| `ConfirmationExpiry.ClaimExactly` | apps/api/app/commands/service.py:57-64 | A claim answers by the plan's own date and takes the plan, and no other, out of the registry |
| `ConfirmationExpiry.PurgeExactly` | apps/api/app/commands/service.py:86-90 | Purging keeps exactly the plans without expiry date or with one still to come, in order |
| `ConfirmationExpiry.EvictionExactly` | apps/api/app/commands/service.py:50-55 | Saving puts a plan last; without room the entries there longest go, and the rest keep their order |
| `ConfirmationExpiry.LookupRefreshes` | apps/api/app/commands/service.py:66-78 | Looking a result up or saving it makes it the last to go |
| `ConfirmationExpiry.ConfirmRemembers` | apps/api/app/commands/service.py:147-171 | After a confirmation that was worked off the plan is gone from the registry and the result is the last to go; a lost process leaves nothing in memory |
| `ConfirmationExpiry.SelectedExactly` | apps/api/app/commands/executor.py:45-50 | The proposals worked off, in one pass and in the plan's order |
| `ConfirmationExpiry.WarningsExactly` | apps/api/app/commands/executor.py:51-60 | When each warning is given, on the plan and the request |
| `ConfirmationExpiry.OutcomeExactly` | apps/api/app/commands/executor.py:63-97 | What each kind of outcome says about case, workflow and row |
| `ConfirmationExpiry.ResultExactly` | apps/api/app/commands/service.py:157-168 | A result counts as executed if and only if one of its outcomes is |
| `Confirmation.CommandService.constructor` | apps/api/app/commands/service.py:97-107 | A service starts on a given log with an empty registry |
| `Confirmation.CommandService.PreparePlan` | apps/api/app/commands/service.py:109-113 | Registry and log receive the same plan, which is what keeps the registry faithful to the log |
| `Confirmation.CommandService.LoadOrSaveRequest` | apps/api/app/commands/service.py:211-233 | The first recorded request of a plan stays in force |
| `Confirmation.CommandService.ProposeOne` | apps/api/app/commands/executor.py:63-97 | One proposal ends created, found again under its identity, refused with a reason, or not executable |
| `Confirmation.CommandService.ExecuteSelected` | apps/api/app/commands/executor.py:62-98 | The loop over the selected proposals, up to a loss of the process |
| `Confirmation.CommandService.ObtainById` | apps/api/app/commands/service.py:147-154 | Claim from the registry, else load from the log, where resets and expiry are checked |
| `Confirmation.CommandService.ConfirmPlan` | apps/api/app/commands/service.py:138-171 | The whole protocol in place, with a loss of the process after any durable step |
| `Confirmation.ConfirmationActions` | apps/api/app/commands/executor.py:46-46 | Exactly the proposals that require confirmation are considered |
| `Confirmation.Chosen` | apps/api/app/commands/executor.py:47-50 | Exactly the named proposals are selected |
| `PlanRegistry.SavePlanBounded` | apps/api/app/commands/service.py:47-55 | Saving keeps one entry per plan and the bound |
| `PlanRegistry.SavePlanKeepsIt` | apps/api/app/commands/service.py:47-55 | The plan just saved is there, whatever else is evicted |
| `PlanRegistry.SavePlanInventsNone` | apps/api/app/commands/service.py:47-55 | Saving adds no other plan |
| `PlanRegistry.SaveResultBounded` | apps/api/app/commands/service.py:73-78 | Saving a result keeps one entry per plan and the bound, and invents none |
| `PlanRegistry.TouchResultBounded` | apps/api/app/commands/service.py:66-71 | Looking a result up only reorders |
| `PlanRegistry.ClaimPlanBounded` | apps/api/app/commands/service.py:57-64 | Claiming keeps the bound |
| `PlanRegistry.PopOldest` | apps/api/app/commands/service.py:54-55 | Popping from the old end until the bound holds leaves the newest entries |
| `PlanRegistry.Registry.PurgeExpired` | apps/api/app/commands/service.py:86-90 | Purging removes exactly the expired plans, in place |
| `PlanRegistry.Registry.Save` | apps/api/app/commands/service.py:47-55 | The purge, the move to the end and the eviction loop leave what `SavePlan` says, for which the bound is proved |
| `PlanRegistry.Registry.ClaimById` | apps/api/app/commands/service.py:57-64 | A claim takes the plan out of the dictionary even when it answers that the plan has expired |
| `PlanRegistry.Registry.Confirmed` | apps/api/app/commands/service.py:66-71 | A lookup answers from the dictionary and makes the entry the most recently used, changing no other |
| `PlanRegistry.Registry.SaveConfirmation` | apps/api/app/commands/service.py:73-78 | The replacement and the eviction loop leave what `SaveResult` says, for which the bound is proved |
| `PlanRegistry.Registry.Clear` | apps/api/app/commands/service.py:80-84 | Clearing empties both dictionaries |
| `Backend.RedeliveriesChangeNothing` | apps/api/app/payments/service.py:104-113 | Inserting any number of redeliveries of accepted events into any run, at any later positions, leaves date, invoices, requests, provider events, cases and recovery audits as they would have been |
| `Backend.OrderIsKept` | apps/api/app/payments/service.py:139-144 | In every reachable state paid amount is the sum of the accepted amounts, lies between zero and the requested amount, the status is paid exactly when it is cleared, event identities are distinct, no case has two open requests, and every detection is audited once |
| `Payments.IngestReconciles` | apps/api/app/payments/service.py:125-144 | One delivery keeps the request books |
| `Payments.IngestMoves` | apps/api/app/payments/service.py:101-194 | A delivery books exactly one payment within the balance on the request's own invoice, or changes no money at all |
| `Payments.RedeliveryIsInert` | apps/api/app/payments/service.py:104-113 | A delivery with a known event id or payment reference changes nothing but the audit trail and answers duplicate |
| `Payments.AppliedIsRecorded` | apps/api/app/payments/service.py:170-181 | An applied delivery is found by the next one with its identity |
| `Payments.CreationExactly` | apps/api/app/payments/service.py:30-89 | A request is created if and only if the operator confirmed it against the current action and balance, the case is open, overdue, undisputed, unpromised and unclaimed, consent and channel permit contact and none was made within a day, at most the balance is requested, no request is open, and the provider accepts |
| `Payments.CreationIsSafe` | apps/api/app/payments/service.py:31-60 | What a created request implies about the facts of that day, and that it adds one unpaid request and changes nothing else |
| `Payments.CreationLeaves` | apps/api/app/payments/service.py:61-98 | The row a creation leaves, field by field: none when refused before the provider was asked, else an unpaid one under the provider's reference and status, or a failed one |
| `Payments.IngestionExactly` | apps/api/app/payments/service.py:101-133 | A delivery is applied if and only if the request is one of the demo provider, neither identity is on record, and on their fields the request can take it, with the kind saying paid exactly for the amount that clears it; and when it is a duplicate |
| `Payments.AppliedExactly` | apps/api/app/payments/service.py:139-181 | What an applied delivery leaves on invoice, request, events and audits, and that nothing else changes |
| `Payments.DuplicateExactly` | apps/api/app/payments/service.py:104-113 | A duplicate only adds an entry naming the replayed event and one on record under one of its identities |
| `Payments.DeclinedExactly` | apps/api/app/payments/service.py:102-133 | Why a delivery is declined: the first field, in the order of the checks, that does not fit |
| `Payments.RefusedExactly` | apps/api/app/payments/service.py:31-60 | Why a request is refused: the first fact, in the order of the checks, that stands against it |
| `Payments.CreateKeepsOneOpen` | apps/api/app/payments/service.py:55-60 | Creation never opens a second request for a case |
| `Payments.IngestKeepsOneOpen` | apps/api/app/payments/service.py:144-144 | Nor does a delivery reopen one |
| `Payments.CreateReconciles` | apps/api/app/payments/service.py:61-67 | A new request starts with balanced books |
| `Payments.FindEvent` | apps/api/app/payments/service.py:104-107 | An event is found exactly when one with the provider and either identity is recorded |
| `Payments.PaymentDesk.constructor` | apps/api/app/payments/service.py:30-30 | A desk starts on a given store |
| `Payments.PaymentDesk.CreateRequest` | apps/api/app/payments/service.py:30-98 | Creation keeps to `Create`, for which `CreationExactly` is proved; a provider failure leaves a failed request and a refusal |
| `Payments.PaymentDesk.IngestEvent` | apps/api/app/payments/service.py:101-194 | Ingestion keeps to `Ingest`, for which the request books, inert redelivery and the ledger theorems are proved; a refusal changes nothing, a duplicate only adds an audit |
| `PaymentRace.ExactlyOneApplies` | apps/api/app/payments/service.py:182-193 | For any number of sessions with one event identity and any interleaving of load, check, flush and commit: the committed money is untouched or is the result of exactly one delivery; every other session whose delivery was acceptable answers duplicate, and if nothing was applied every session declined |
| `PaymentRace.StepKeepsInvariant` | apps/api/app/models/domain.py:322-325 | Every single step of any session keeps that, against the unique constraints on provider events |
| `PaymentRace.LockedOut` | apps/api/app/models/domain.py:322-325 | Once one session has committed, the constraint catches every other |
| `PaymentRace.StepAudits` | apps/api/app/payments/service.py:104-193 | Each session leaves one audit entry when it answers applied or duplicate, and none otherwise |
| `Backend.LedgerConserved` | apps/api/app/simulation/service.py:312-326 | Over any mix of ticks, deliveries, requests and synchronisations each invoice keeps its terms, balance plus payments is constant, the balance never grows nor goes below zero, payments are appended and positive, paid means a zero balance if it did at the start, and a stored fulfilment is one the evaluator confirms |
| `Backend.PromisesOnlyProgress` | apps/api/app/recovery/engine.py:122-137 | Over every run the evaluated state of a promise moves only from active over broken to fulfilled, and cancellation is permanent |
| `Engine.PromiseProgress` | apps/api/app/recovery/engine.py:122-137 | The same for one promise between two days, under appended payments and simulated breaks |
| `Ledger.SettleEvolves` | apps/api/app/payments/service.py:139-143 | Booking a positive amount within the balance moves an invoice as the ledger allows and keeps paid equivalent to a zero balance |
| `Ledger.HonestyPersists` | apps/api/app/recovery/engine.py:128-133 | Later payments never turn a confirmed fulfilment around |
| `TickProperties.TickEvolves` | apps/api/app/simulation/service.py:370-416 | A whole tick moves every invoice as the ledger allows |
| `TickProperties.EventAmountBounds` | apps/api/app/simulation/service.py:315-318 | A generated payment is at least a cent and at most the balance, and a partial one leaves something unless one cent is all there is |
| `TickProperties.EventsNeverClash` | apps/api/app/simulation/service.py:338-365 | Within a tick no kind hits the same target twice, and a dispute or promise opened in it is not resolved or broken in it |
| `TickProperties.TickIsBounded` | apps/api/app/simulation/service.py:406-416 | A tick produces at least one and at most six events per invoice plus one per initially active promise, whatever its target |
| `TickEvents.TickExactly` | apps/api/app/simulation/service.py:387-416 | In the morning exactly the open or partially paid balances past due become overdue; then the logged events follow one another, each with the effect of its kind; an invoice none of them names is left as the morning made it |
| `TickEvents.EventExactly` | apps/api/app/simulation/service.py:304-367 | What each kind of event needs of the invoice it names and does to it, field by field: amounts and their shares, status, payment, promises and dates; and that no other invoice changes |
| `TickEvents.RefusedExactly` | apps/api/app/simulation/service.py:262-267 | A tick is refused if and only if nothing is owed on any invoice |
| `TickEvents.MorningKindsExactly` | apps/api/app/simulation/service.py:288-301 | Which kinds of event are possible in the morning, on the invoices and promises |
| `TickEvents.AllActiveAre` | apps/api/app/simulation/service.py:394-394 | The promises that may be broken are exactly those active before the morning |
| `Simulation.AvailableHasCandidate` | apps/api/app/simulation/service.py:288-301 | Every kind offered by the availability test has a candidate when the event is applied |
| `Simulation.AvailableKinds` | apps/api/app/simulation/service.py:293-301 | A kind is offered exactly when it is available |
| `Simulation.Candidates` | apps/api/app/simulation/service.py:305-306 | The candidate list holds exactly the invoices the event may hit |
| `Simulation.BreakCandidates` | apps/api/app/simulation/service.py:340-340 | The candidate list holds exactly the promises that may be broken |
| `Simulation.FulfilPromises` | apps/api/app/simulation/service.py:322-323 | The fulfilment loop marks exactly the active promises one payment covers |
| `Simulation.Simulator.constructor` | apps/api/app/simulation/service.py:370-378 | A simulator starts on given invoices and date |
| `Simulation.Simulator.ReceivePayment` | apps/api/app/simulation/service.py:312-326 | Books the event amount on one invoice and fulfils exactly the promises this one payment covers; no other invoice changes |
| `Simulation.Simulator.ApplyGeneratedEvent` | apps/api/app/simulation/service.py:304-367 | Every kind of event with the targets it burns keeps to `Apply`, for which the clash, bound and ledger theorems are proved |
| `Simulation.Simulator.ApplyOverdueRules` | apps/api/app/simulation/service.py:399-403 | Exactly the open or partially paid invoices past due with a balance become overdue; disputed and settled ones keep their status |
| `Simulation.Simulator.GenerateEvents` | apps/api/app/simulation/service.py:407-416 | The loop with its early stop keeps to `Generate`: it applies one available kind at a time to the state the events before it left |
| `Simulation.Simulator.RunTick` | apps/api/app/simulation/service.py:387-416 | A tick in place; with no available kind at all it is refused and changes no invoice |
| `History.EveryReachableLedgerReconciles` | apps/api/app/seed/portfolio.py:400-403 | From a ledger as the portfolio starts with it, every run of ticks, deliveries, requests and synchronisations leads to one in which every invoice satisfies the ledger equation without future payments, so the recovery proof reconstructs its balance at the end of its due date |
| `History.RunIsPast` | apps/api/app/payments/service.py:123-124 | No payment of any reachable state is dated after the current day |
| `Synchronisation.SynchroniseTwice` | apps/api/app/recovery/engine.py:249-334 | A second synchronisation on the same day changes no case and adds no audit |
| `SyncAudits.DetectionsExactly` | apps/api/app/recovery/engine.py:281-305 | After a synchronisation a detection is on record if and only if it was before or is due today: an invoice issued, unpaid and past due, a promise not cancelled, past its date and not covered, a case whose invoice is disputed; new ones carry today's date |
| `SyncAudits.StateChangesExactly` | apps/api/app/recovery/engine.py:306-315 | One state change, with both states and today's date, is appended for every case that moves, and none for any other |
| `SyncAudits.ReportedMovesAreAudited` | apps/api/app/recovery/engine.py:310-315 | The number of changed cases reported is the number of state changes written |
| `SyncAudits.RowExactly` | apps/api/app/recovery/engine.py:306-309 | A row takes the derived state, with today's date if it is new, and nothing else changes |
| `Backend.CasesFollowTheFacts` | apps/api/app/payments/service.py:145-146 | After every operation that changes an invoice or the date, and after every synchronisation, all cases are in the state the facts call for |
| `Synchronisation.RecordKeepsOnce` | apps/api/app/recovery/engine.py:224-246 | Recording keeps one audit per detection key and only appends |
| `Synchronisation.ClosedAbsorbs` | apps/api/app/recovery/engine.py:140-153 | A closed case stays closed |
| `Synchronisation.SettledResolves` | apps/api/app/recovery/engine.py:140-153 | A settled invoice resolves an open case |
| `Synchronisation.SyncedRowRests` | apps/api/app/recovery/engine.py:306-315 | A synchronised case derives the state it has |
| `Backend.SettledCaseFinishes` | apps/api/app/recovery/engine.py:306-310 | Synchronising a case with a settled invoice finishes it |
| `Backend.FinishedForGood` | apps/api/app/recovery/engine.py:140-153 | A finished case keeps its state over every later run |
| `Engine.DerivedStateStable` | apps/api/app/recovery/engine.py:140-201 | Evaluating again after applying the derived state derives the same state |
| `Engine.EvaluatePromises` | apps/api/app/recovery/engine.py:156-201 | Promises are evaluated one by one, in order |
| `Synchronisation.CaseTable.constructor` | apps/api/app/recovery/engine.py:249-275 | A table starts on given cases and log |
| `Synchronisation.CaseTable.AuditOnce` | apps/api/app/recovery/engine.py:224-246 | A detection is appended exactly when its key is new, and the key cache stays a mirror of the log |
| `Synchronisation.CaseTable.AuditInvoices` | apps/api/app/recovery/engine.py:291-295 | The overdue loop records one detection per overdue invoice not yet on the log, and the key cache stays a mirror of the log |
| `Synchronisation.CaseTable.AuditPromises` | apps/api/app/recovery/engine.py:296-300 | The broken-promise loop does the same for every promise evaluated broken |
| `Synchronisation.CaseTable.SyncCase` | apps/api/app/recovery/engine.py:301-315 | One case: the dispute detection, the derived state with its date, the change entry, and whether it moved; no other case changes |
| `Synchronisation.CaseTable.SyncEachCase` | apps/api/app/recovery/engine.py:301-315 | The loop over the cases leaves what `SyncCases` and the recorded items say and counts the cases that moved |
| `Synchronisation.CaseTable.Synchronize` | apps/api/app/recovery/engine.py:249-334 | The whole synchronisation in place, with the number of changed cases |
| `Recommendations.CascadeExactly` | apps/api/app/recommendations/service.py:106-147 | For each decision of the cascade, the facts on which it is taken, if and only if |
| `Recommendations.OutreachExactly` | apps/api/app/recommendations/service.py:106-147 | Outreach is recommended exactly for an open, undisputed, overdue balance without claim or pending promise that is not severe or was softened by a recent signal |
| `Recommendations.ApprovalExactly` | apps/api/app/recommendations/service.py:106-162 | Which decisions need approval: material ones always, monitoring for strategic accounts, outreach when permission is missing but not refused |
| `Recommendations.DerivedStateExactly` | apps/api/app/recovery/engine.py:140-153 | The derived case state as a function of closure, balance, dispute, promises, priority and delay |
| `Recommendations.FactBlockersExactly` | apps/api/app/recovery/engine.py:156-201 | What each blocker from the facts of a case stands for |
| `Recommendations.CooldownExactly` | apps/api/app/recovery/engine.py:156-201 | The cooldown stands for one automated contact within a day, the maximum for three |
| `Recommendations.InvoiceStateExactly` | apps/api/app/recovery/engine.py:105-119 | What each evaluated state of an invoice stands for, and its figures |
| `Recommendations.PromiseStateExactly` | apps/api/app/recovery/engine.py:122-137 | What each evaluated state of a promise stands for: the payments since its source against its amount, and its date |
| `Recommendations.LevelExactly` | apps/api/app/recommendations/service.py:66-70 | How urgent each decision is |
| `Recommendations.CarriedExactly` | apps/api/app/recommendations/service.py:149-162 | The state and the blockers a recommendation carries |
| `Recommendations.SignalsExactly` | apps/api/app/recommendations/service.py:56-63 | Which interpretation signals count, and for how long |
| `Engine.PermissionExactly` | apps/api/app/recovery/engine.py:78-102 | What each communication blocker stands for, on consent and channel, and when contact is permitted |
| `Workflow.LifecycleIsKept` | apps/api/app/workflow/service.py:68-209 | Over every run of operations: distinct identities, at most one live or executed row per case and recommendation, at most three status changes and one execution per row, approval before execution where required |
| `Workflow.ExecutedMeansApprovedOnce` | apps/api/app/workflow/service.py:179-209 | What that means for an executed row, and that no other row for the same case and recommendation is live or executed |
| `Workflow.ExecutesExactlyWhenCurrent` | apps/api/app/workflow/service.py:179-209 | Execution happens if and only if the row is approved or needs no approval, the stored recommendation is the current one, and the facts and permissions allow it |
| `Workflow.CreateExactly` | apps/api/app/workflow/service.py:76-126 | A row is created if and only if the identity is new, the expected action is current, work may start on it and none exists for the same case and recommendation; which row it is, and that no other changes |
| `Workflow.ReplayExactly` | apps/api/app/workflow/service.py:76-83 | A known identity answers with its row exactly when case and expected action agree, and changes nothing |
| `Workflow.CreationAudits` | apps/api/app/workflow/service.py:87-123 | What creating leaves in the audit trail: the recommendation of a new row, a readiness entry when the facts forbid current work, and otherwise nothing |
| `Workflow.AuditExactly` | apps/api/app/workflow/service.py:129-209 | A decision that takes effect adds one audit entry of its kind, a refused execution one that says so, a refused decision none |
| `Workflow.StepFollowsTheGraph` | apps/api/app/workflow/service.py:129-209 | One operation changes at most the status of its own row, only along the status graph, and a decision the graph allows takes effect |
| `Workflow.FinalRowsStay` | apps/api/app/workflow/service.py:151-187 | Executed and cancelled rows never change again |
| `Workflow.CreateKeepsLifecycle` | apps/api/app/workflow/service.py:68-126 | Creation keeps the lifecycle, with and without an idempotency identity |
| `Workflow.FindAction` | apps/api/app/workflow/service.py:77-77 | The row with an identity, if there is one |
| `Workflow.ActionDesk.constructor` | apps/api/app/workflow/service.py:68-75 | A desk starts on given rows and audits |
| `Workflow.ActionDesk.CreateAction` | apps/api/app/workflow/service.py:68-126 | Creation keeps to `Create`, for which the lifecycle is proved: a known identity answers with its row or is refused as bound elsewhere, staleness, readiness and duplicate work are refused in this order, a readiness refusal is audited |
| `Workflow.ActionDesk.ApproveAction` | apps/api/app/workflow/service.py:129-137 | Only a row pending approval is approved; otherwise nothing changes, not even the audit trail |
| `Workflow.ActionDesk.RejectAction` | apps/api/app/workflow/service.py:140-148 | Only an open row is rejected; otherwise nothing changes |
| `Workflow.ActionDesk.HoldAction` | apps/api/app/workflow/service.py:151-159 | Only an open row is held; otherwise nothing changes |
| `Workflow.ActionDesk.CancelAction` | apps/api/app/workflow/service.py:162-170 | Every row but an executed or cancelled one is cancelled, also a held or rejected one; otherwise nothing changes |
| `Workflow.ActionDesk.ExecutionBlocked` | apps/api/app/workflow/service.py:173-176 | A refused execution is audited and changes no row |
| `Workflow.ActionDesk.ExecuteAction` | apps/api/app/workflow/service.py:179-209 | Execution keeps to `Execute`, for which `ExecutesExactlyWhenCurrent` is proved; every refusal is audited and leaves all rows alone |
| `Imports.ReimportFindsOnlyDuplicates` | apps/api/app/imports/receivables.py:101-154 | After a file was persisted, parsing it again on the same or any later day finds only duplicates |
| `Imports.AcceptedRecordsAreSafe` | apps/api/app/imports/receivables.py:122-148 | On any parse accepted keys are distinct and new up to case folding, each reference has one name, and each record meets the invoice constraints |
| `Imports.ValidateConstrains` | apps/api/app/imports/receivables.py:157-226 | A validated row meets the amount, date and status constraints and carries the row's own names |
| `Imports.ValidateExactly` | apps/api/app/imports/receivables.py:157-226 | Exactly which rows give a record, on lengths, names, amounts, dates, currency and status, and which record; a row without a status is paid, partially paid, overdue or open by its amounts and due date |
| `Imports.VerdictExactly` | apps/api/app/imports/receivables.py:118-148 | How a row is judged among those before it: accepted, duplicate of the portfolio or of an earlier record, or invalid |
| `Imports.DerivedIsConsistent` | apps/api/app/imports/receivables.py:254-261 | A derived status never fails the status checks |
| `Imports.PersistedPortfolio` | apps/api/app/imports/receivables.py:280-330 | Persisting makes every record known, forgets nothing, and takes names only from the portfolio or the records |
| `Imports.ParseRows` | apps/api/app/imports/receivables.py:118-148 | Every row gets exactly one verdict, so valid, invalid and duplicate rows add up to the rows detected |
| `Imports.ValidateRow` | apps/api/app/imports/receivables.py:157-226 | The error list of a row; it is empty exactly when there is a record |
| `Imports.ParseReceivables` | apps/api/app/imports/receivables.py:101-154 | The row loop with its dictionaries |
| `Imports.PersistReceivables` | apps/api/app/imports/receivables.py:280-330 | A file with an invalid row is refused as a whole; otherwise the loop adds every record |
| `Imports.CustomerAt` | apps/api/app/imports/receivables.py:108-113 | The last customer with a folded reference, if there is one |
| `Query.StagedEqualsOneShot` | apps/api/app/commands/tools.py:457-498 | The staged filter keeps, in order, exactly the records that match the one-shot predicate and are in scope |
| `Query.StagesAreThePredicate` | apps/api/app/commands/tools.py:501-525 | Passing every switched-on stage is the one-shot predicate with the cycle scope |
| `Query.ApplyPredicates` | apps/api/app/commands/tools.py:457-498 | The shrinking loop; the exclusion counts are positive and sum to inspected minus matched |
| `Query.FilterBy` | apps/api/app/commands/tools.py:492-498 | One stage keeps exactly the records that pass it, in order |
| `Query.ExecuteQuery` | apps/api/app/commands/tools.py:281-311 | The whole query: staged filter, ranking, cut-off, and the inspected and matched counts |
| `Query.AnswerIsTheTop` | apps/api/app/commands/tools.py:298-300 | The answer is sorted, has as many records as the limit allows, and every match cut off ranks behind every record returned |
| `Query.AnswerFollowsTheField` | apps/api/app/commands/tools.py:528-550 | Along the answer the sort field never rises in a descending query and never falls in an ascending one, and no match cut off belongs before one returned, for each sort field |
| `Query.BeforeExactly` | apps/api/app/commands/tools.py:539-550 | Ties fall to the higher raw score, the higher overdue exposure, the older debt and then the identity |
| `Query.MatchesExactly` | apps/api/app/commands/tools.py:501-525 | What a record must be like to match: inclusive bounds, flags as wanted, levels asked for, latest cycle |
| `Query.LimitExactly` | apps/api/app/commands/tools.py:300-300 | How much of the ranking is returned |
| `Query.OrderDoesNotMatter` | apps/api/app/commands/tools.py:539-550 | The answer is the same for every order in which the records are looked at |
| `Query.BeforeIsStrictOrder` | apps/api/app/commands/tools.py:539-550 | The ranking key is a strict total order on records with distinct identities |
| `Query.RankedIsSorted` | apps/api/app/commands/tools.py:299-299 | Ranking sorts |
| `Query.SortedIsUnique` | apps/api/app/commands/tools.py:299-299 | A sorted list is determined by its records |
| `RiskOverTime.MetricsNeverFallExactly` | apps/api/app/intelligence/operational_service.py:112-138 | With the facts known, time alone makes no metric less alarming on any later day if and only if every payment on an invoice not issued yet will be at least as old on its issue day as the last visible payment is today |
| `RiskOverTime.MetricsGrow` | apps/api/app/intelligence/operational_service.py:112-138 | Between two given days: no metric becomes less alarming if and only if no invoice issued in between brings a fresher payment with it |
| `RiskOverTime.RecencyExactly` | apps/api/app/intelligence/operational_service.py:116-117 | Payment recency is the one metric that can improve, and exactly when that happens |
| `RiskOverTime.RiskNeverFalls` | apps/api/app/intelligence/operational_service.py:340-353 | Under that condition a later day gives no lower raw score, score or level, for any invoices, promises and cases; invoices issued long ago may have been paid in advance |
| `RiskOverTime.ScoreNeverFallsExactly` | apps/api/app/intelligence/operational_service.py:340-353 | Raw score, score and level each never fall by time alone if and only if they are not lower on any of the finitely many days on which an invoice paid in advance is issued |
| `RiskOverTime.EarlyPaymentLowersTheScore` | apps/api/app/intelligence/operational_service.py:113-116 | The failing instance: a portfolio with a fresh prepayment, whose score falls on the day the invoice is issued |
| `Scoring.FactorsExplainTheScore` | apps/api/app/intelligence/operational_service.py:340-353 | The factors are exactly the raised signals, each once with its points, and their points are the raw score |
| `ScoringFacts.BalanceSignals` | apps/api/app/intelligence/operational_service.py:178-187 | Points for exposure: the totals over issued and over late invoices, against 400,000 and 250,000 |
| `ScoringFacts.LateSignals` | apps/api/app/intelligence/operational_service.py:188-219 | Points for the oldest debt, at 30, 90 and 120 days, and for two, three or five late invoices |
| `ScoringFacts.PromiseSignals` | apps/api/app/intelligence/operational_service.py:220-230 | Points for one or more broken promises, judged by payments and dates |
| `ScoringFacts.StalledPaymentSignal` | apps/api/app/intelligence/operational_service.py:231-252 | Points when something late is owed and no payment arrived within 30 or 60 days |
| `ScoringFacts.WorkSignals` | apps/api/app/intelligence/operational_service.py:253-272 | Points for a disputed balance, and for an unfinished case without activity for three weeks |
| `Scoring.LevelExactly` | apps/api/app/intelligence/operational_service.py:73-81 | The score bands 80, 45 and 20 |
| `Scoring.SignalsAndFactors` | apps/api/app/intelligence/operational_service.py:171-284 | The chain of signal conditions gathers those factors |
| `Scoring.OverdueFactors` | apps/api/app/intelligence/operational_service.py:178-218 | The factors of the three signals about overdue balances, under their nested thresholds |
| `Scoring.StalledCases` | apps/api/app/intelligence/operational_service.py:119-124 | The loop over the active cases collects exactly the stalled ones |
| `Scoring.Score` | apps/api/app/intelligence/operational_service.py:351-353 | The displayed score is between 0 and 100 |
| `Scoring.Latest` | apps/api/app/intelligence/operational_service.py:100-109 | The latest of a list of days, none for an empty list |
| `Reconciliation.ReconciliationReconstructs` | apps/api/app/reporting/batch_recovery.py:75-84 | For invoices satisfying the ledger equation, the starting exposure over the scope is the total balance all past-due invoices had at the end of their due dates; those out of scope had none |
| `Reconciliation.BalanceAtDueDate` | apps/api/app/reporting/batch_recovery.py:109-121 | The balance at the end of the due date is today's plus what was paid since, and a past-due invoice is in scope exactly when it was not zero |
| `Reconciliation.ScopeExactly` | apps/api/app/reporting/batch_recovery.py:75-84 | Which invoices the proof is about, on their fields |
| `Reconciliation.EvidenceOfOne` | apps/api/app/reporting/batch_recovery.py:129-150 | The evidence of an invoice is complete and sound: a row for every payment after the due date, with the source its provider event recorded, or else that of the invoice, and no other row |
| `Reconciliation.BuildProof` | apps/api/app/reporting/batch_recovery.py:99-150 | The running totals and dictionaries: starting is recovered plus remaining, customer and provenance groupings have the right keys and totals and account for everything, the evidence is complete and sound over the whole scope, full and partial recoveries are counted |
| `Reconciliation.EvidenceFor` | apps/api/app/reporting/batch_recovery.py:129-150 | One evidence row per qualifying payment, with its provenance |
| `Reconciliation.GroupByProvenance` | apps/api/app/reporting/batch_recovery.py:269-274 | The dictionaries have exactly the sources in evidence as keys, the right count and amount under each, and account for every row and every cent |

## Left out

- Experiment.Arm.Simulate: arm metrics, the cohort list and the rendering of the experiment are not modelled, because they only sum and format what the arms record.
- Money.FractionRemainderMonotone: does not model the 28-digit decimal context and the float age component; shares and probabilities are exact reals.
- Confirmation.CommandService.ConfirmPlan: two confirmations of one plan at the same time are not modelled, because the code does not order their action creation; the branches on an integrity error and those without a database are left out with them.
- ConfirmationProperties.ConfirmationIsExactlyOnce: the date of the latest reset does not change during a run, and a reset's deletion of rows is not modelled.
- ConfirmationRecovery.CrashThenRetryIsTransparent: assumes that both attempts see the same recommendations, because the code consults the facts of the moment; the audit trail may differ by repeated readiness entries.
- ConfirmationProperties.ConfirmKeepsGood: runs prepare a plan under a known identity only if it is the same plan, because the planner draws a fresh random identity for each.
- ConfirmationRecovery.WorkResumes: assumes distinct proposal identities within a plan, as CrashThenRetryIsTransparent, GoodMeansBound and ResultTellsTheTruth do; the planner derives them from target and action and proposes each once.
- Confirmation.CommandService.LoadOrSaveRequest: the branch on an integrity error belongs to concurrent confirmations and is left out with them.
- Confirmation.CommandService.ProposeOne: a stored workflow action that names no known action (a validation error in the code) is not modelled.
- PaymentRace.ExactlyOneApplies: concerns sessions with one event identity only; provider ingestion takes no row lock, so the code promises nothing for different events at once. The synchronisation inside an ingestion is modelled in Backend, where ingestions do not overlap.
- Payments.PaymentDesk.CreateRequest: Razorpay's own statuses may lie outside the open list; they are arbitrary texts here, and the call itself is an answer given as input.
- Simulation.Simulator.ApplyGeneratedEvent: the preference for the same account among candidates is one of the arbitrary picks; communications, simulation events and their payloads, and the creation of a case for an invoice without one, are left out.
- Simulation.Simulator.RunTick: intelligence snapshots and transition audits are left out; a refused tick is modelled together with its caller's rollback, so it changes nothing.
- TickProperties.TickIsBounded: promises without an invoice are not modelled; no event can hit one.
- Workflow.ActionDesk.ApproveAction: approval status, decision fields and notes are left out, because no guard reads them.
- Workflow.ActionDesk.RejectAction: approval status, decision fields and notes are left out likewise.
- Workflow.ActionDesk.HoldAction: decision fields and notes are left out likewise.
- Workflow.ActionDesk.CancelAction: decision fields and notes are left out likewise.
- Workflow.LifecycleIsKept: starts from rows whose audit trail is complete, which seeded rows without audits are not.
- Recommendations.CascadeExactly: signals arrive already interpreted; explanation texts, next steps and readiness wording are left out.
- Imports.ParseReceivables: splitting text into cells and reading numbers and dates are left out; case folding is an arbitrary function.
- Imports.PersistReceivables: the recovery cases and audits created beside an invoice, and the rollback on a conflict with a concurrent import, are left out.
- Query.ExecuteQuery: the facts looked up beside a record (partial, recent, blocked, monitoring, actionable, latest cycle) are inputs; identities are numbers ordered like the identity texts.
- Query.AnswerIsTheTop: direct invoice and payment queries and case queries use the same pattern with other fields and are left out.
- Scoring.SignalsAndFactors: titles, explanations, severities, the separate label for repeated broken promises and the recommendation text of a result are left out.
- Reconciliation.EvidenceFor: references, dates and provider fields of an evidence row are copied and left out.
- Reconciliation.BuildProof: evidence rows carry customer, amount and provenance only; their sort order, hold rows, exception counts, account-level counts and the recovery rate are left out.
- HTTP routes, sessions and migrations, the web application, language-model interpretation, planner and timeline wording: I/O and message assembly.
- Candidate review: its conflict flag is not sticky and accepted candidates set fields without the ledger checks, so it would only add statements about single assignments.
- Seed data: only its ledger assertions are used, as the starting point of the run theorems.
