# Expense backend: a verified model

This project models the parts of the expense-management backend in which state changes step by step and
several tables have to agree, and proves what every operation and every run keeps:

- **Expense lifecycle, approval chain and budget ledger** (`domain`, `budget_period`, `budget_ledger`,
  `budget_metrics`, `approval_routing`, `approval_access`, `expense_lifecycle`, `expense_invariants`,
  `expense_acceptance`, `approval_progress`, `expense_store`, `expense_scenarios`, `bulk_actions`, `actionable_queue`). Each database transaction is one
  function from a state to what it commits or to the error that rolls it back. The classes `Store` and
  `BudgetTable` hold the services statement by statement and are proved to commit exactly that. Invariants are
  proved over all runs of sixteen kinds of action, which include edits of levels, departments, users and delegations.
- **Transactional outbox** (`outbox_model`, `outbox_invariants`, `outbox_delivery`, `outbox_progress`,
  `outbox_store`). A nondeterministic step system over outbox rows, queue jobs and handler keys, with concurrent relays and
  workers, failures of handlers, queue and key store, crashes, and duplicate executions. The class `Outbox` holds the
  services; lemmas show that each of their loops is a run of the step system.
- **Concurrency pool and reconciliation** (`worker_pool`), **manager history** (`manager_history`), **CSV export**
  (`csv_export`).

`dafny verify dfyconfig.toml` checks the whole project.

## Platform assumptions

- A transaction is atomic; row locks serialise transactions on one expense and on one budget row. An exception undoes it.
- Job ids are unique among the jobs of the queue. Each call on the queue is atomic; the lookup, removal and addition of one
  enqueue are separate calls, between which another relay of the same event may act. `Exclusive` (a job runs in
  one worker at a time) is a hypothesis of the delivery results only; `Duplicate` steps break it elsewhere.
- Setting a key if absent is atomic, and keys do not expire within a run. The call may fail before or after it took
  effect, and so may the deletion of a key.
- The handlers that the registry resolves for an event type do not change once events of that type exist.
- The clock never goes backwards. Amounts are positive integers, without an upper bound.
- A time zone has a fixed offset between -12 h and +14 h in whole seconds. Years are at least 100, since `Date.UTC` reads 0
  to 99 as 1900 to 1999.
- Some platforms print midnight as hour 24 under `hour12: false`. `Zone.midnightReads24` covers both behaviours.

## What the code does not do

Each of these is a lemma in the project, with a concrete case or the exact condition.

- With a clock that prints midnight as hour 24, the midnight search never recognises a midnight and falls back to the UTC
  one; year ranges and booked years then agree only at offset 0 (`RangesMatchYearsExactly`). Elsewhere an accepted submission
  can take the cached totals out of agreement (`DisagreementIsReachable`), and so can a rejection of an expense that a
  recalculated row counts although it is booked on another one (`RejectionDisagreementIsReachable`). The exact condition, in
  every zone and from every agreeing active row, is the guard of `StepKeepsAgreement`: on the instant of a submission, and on
  where the sums count an expense that is rejected or reimbursed; every other step keeps agreement. A run keeps it throughout
  if and only if every step meets the guard (`RunsAgreeExactlyWhenGuarded`). The spending limit does not depend on the zone.
- The guard on the status can reject the active stage once levels have been edited: in `UndecidableExpenseIsReachable` a run
  leads to an expense that is listed although nobody's decision on it is accepted. The exact condition is
  `RejectableExactlyWhenListed`.
- Two levels swapped between decisions can leave an expense UNDER_REVIEW with every level approved and no active stage;
  `StrandedExpenseIsReachable` is such a run. The exact condition for an accepted approval to do so is
  `ApprovalStrandsExactly`.
- A delegation does not by itself admit its delegate. The access check that comes first looks only at the caller, so a
  delegate without a global grant who does not lead the department either is refused (`DelegatesNeedAccess`; the exact answer
  to every decision is `DecisionAnswered`).
- The healing of an expense without required levels is undone by the exception that follows it in the same transaction:
  `Store.Approve` and `Store.Reject` change nothing on an error.
- A worker that dies inside a handler leaves the handler's key behind. The retry skips the handler, and the event counts as
  processed although the handler never completed (`CrashLosesHandler`; exact: `ProcessedMeansHandledOnce`).
- A job executed twice can lose a handler (`DuplicateLosesHandler`). The exact condition in every run, duplicates included, is
  `HandledExactly`: a handler has completed exactly if its key is in the store, nobody holds it and it was not left behind.
  Only giving a key back after a throw takes it out of the store (`OnlyReleaseFreesKey`), so without a throw a processed
  event is complete as soon as nobody holds its keys (`ProcessedWithoutThrow`).
- A table whose last row is a single empty cell does not survive the CSV text (`RoundTrip`).

## Model

| member | source | states |
|---|---|---|
| BudgetPeriod.ZonedMidnightToUtc | src/modules/budget/utils/budget-period.util.ts:119-161 | the search for a local midnight returns exactly that instant within four attempts, for every offset: the days counted from 1970 times a day of milliseconds, less the offset; with an hour-24 clock it returns the UTC midnight |
| BudgetPeriod.ReadClock | src/modules/budget/utils/budget-period.util.ts:128-153 | the clock shows the distance from the midnight sought modulo a day, with the first hour as the 24th on an hour-24 clock; it shows the midnight itself exactly at that instant, and never on an hour-24 clock |
| BudgetPeriod.DateMatchesDay | src/modules/budget/utils/budget-period.util.ts:119-161 | year, month and day shown by the clock are a given date exactly on that date's day number |
| BudgetPeriod.DatesAreCounted | src/modules/budget/utils/budget-period.util.ts:119-125 | the number of a date is the count of the days of all years since 1970 and all months before it |
| BudgetPeriod.FirstDayIsCounted | src/modules/budget/utils/budget-period.util.ts:119-125 | the closed form for January 1 is the count of 365 or 366 days year by year, forwards and backwards from 1970 |
| BudgetPeriod.YearsAreResolvedByCount | src/modules/budget/utils/budget-period.util.ts:62-64 | the budget year of an instant is the one among whose counted days its local day is |
| BudgetPeriod.YearStartIsCounted | src/modules/budget/utils/budget-period.util.ts:164-172 | a range starts with the counted first day of its year, earlier by the offset unless midnight reads as hour 24 |
| BudgetPeriod.BudgetYearRangeInTimeZone | src/modules/budget/utils/budget-period.util.ts:164-172 | the interval of a year is non-empty, starts and ends with the counted first days of the year and the next, and holds exactly the instants of the range |
| BudgetPeriod.RangesMatchYearsExactly | src/modules/budget/utils/budget-period.util.ts:164-172 | an instant lies in the range of the year it resolves to, and in no other, if and only if midnight reads as hour 0 or the offset is 0 |
| BudgetPeriod.MisplacedInstant | src/modules/budget/utils/budget-period.util.ts:119-172 | otherwise an instant of 2023 or 2024 is booked under a year whose range does not hold it, and the range of the other year does |
| BudgetPeriod.YearRangesTileTime | src/modules/budget/utils/budget-period.util.ts:164-172 | in every zone the year ranges cover all instants without overlap |
| BudgetLedger.ShortcutSkipsNothing | src/modules/budget/utils/expense-budget-sync.util.ts:54-83 | when the attribution shortcut says no, both snapshots contribute the same to every row |
| BudgetLedger.DeltaSpec | src/modules/budget/queries/budget-committed.query.ts:40-88 | in either column a delta leaves an inactive row alone and moves an active one by itself, not below zero |
| BudgetLedger.OtherRowsStay | src/modules/budget/services/budget.service.ts:502-562 | a transition changes no inactive row, and none that neither of its snapshots is booked on |
| BudgetLedger.AgreementMeans | src/modules/budget/queries/budget-committed.query.ts:90-117 | agreement is that committed is the total of the four submitted statuses in the range of the year, and reimbursed the total of the last one |
| BudgetLedger.BudgetTable.SyncCommittedAmountForExpenseTransition | src/modules/budget/services/budget.service.ts:502-562 | every active row moves by contribution after minus contribution before, or a reimbursement adds to the reimbursed column |
| BudgetLedger.BudgetTable.CollectDeltas | src/modules/budget/services/budget.service.ts:516-554 | the delta map holds, for every department-year, exactly the difference of the two contributions |
| BudgetLedger.BudgetTable.Accumulate | src/modules/budget/services/budget.service.ts:522-546 | one side of a transition adds its signed contribution and changes no other delta |
| BudgetLedger.BudgetTable.ApplyDeltas | src/modules/budget/services/budget.service.ts:556-561 | every delta is applied once, whatever the order |
| BudgetLedger.BudgetTable.ApplyCommittedAmountDelta | src/modules/budget/queries/budget-committed.query.ts:40-63 | clamped addition on the one active row, nothing else changes |
| BudgetLedger.BudgetTable.ApplyReimbursedAmountDelta | src/modules/budget/queries/budget-committed.query.ts:65-88 | the same for the reimbursed column |
| BudgetLedger.BudgetTable.SyncReimbursedAmountForExpense | src/modules/budget/services/budget.service.ts:472-500 | a reimbursement is added to the one row the expense is booked on |
| BudgetLedger.ContributionIsSpend | src/modules/budget/services/budget.service.ts:522-546 | the row a delta is applied to is the row whose full sum counts the expense, if and only if the instant lies in the range of the row's year exactly when it resolves to that year |
| BudgetLedger.SyncKeepsAgreement | src/modules/budget/queries/budget-committed.query.ts:40-117 | the incremental update of any agreeing active row ends in agreement if and only if a condition on the expense before and after holds; for an expense that the sums count where it is booked, the clamp at zero never takes effect |
| BudgetLedger.DriftDecidesAgreement | src/modules/budget/queries/budget-committed.query.ts:40-63 | apart from reimbursements the condition is that the difference between what is booked and what is summed stays the same, unless the clamp takes effect, and then that the sums end at zero |
| BudgetLedger.StatusChangeKeepsAgreement | src/modules/budget/utils/expense-budget-sync.util.ts:54-83 | a change of status between counted ones keeps agreement wherever the expense is placed |
| BudgetLedger.PlacedAgreementKept | src/modules/budget/queries/budget-committed.query.ts:40-117 | for an expense that the sums count where it is booked, the condition is that they still do |
| BudgetLedger.RecalculationAgrees | src/modules/budget/queries/budget-committed.query.ts:119-182 | the two recalculations establish agreement from any amounts, and each leaves an agreeing row alone |
| BudgetLedger.BudgetTable.RecalculateCommitted | src/modules/budget/queries/budget-committed.query.ts:119-155 | the committed column of one row becomes the full sum, active or not |
| BudgetLedger.BudgetTable.RecalculateReimbursed | src/modules/budget/queries/budget-committed.query.ts:157-182 | the reimbursed column of one row becomes the full sum |
| Domain.TotalUpdate | src/modules/budget/queries/budget-committed.query.ts:90-117 | changing one row of a table moves its sum by the difference, whatever order the rows are read in |
| ApprovalRouting.RequiredLevelsSpec | src/modules/approval/services/approval-routing.service.ts:69-96 | the required levels are exactly the active ones whose minimum is not above the amount and whose maximum, if any, not below it, without manager levels when the owner is the manager; each once, in rank order |
| ApprovalRouting.GetActiveStage | src/modules/approval/services/approval-routing.service.ts:122-148 | the loop finds the one required level without a decision behind approved levels only, or none if there is no such level |
| ApprovalRouting.AssertPriorLevelsComplete | src/modules/approval/services/approval-routing.service.ts:241-268 | throws exactly if the stage is not required or a level before it lacks an approval |
| ApprovalRouting.ActiveStageIsReady | src/modules/approval/services/approval-routing.service.ts:203-218 | for the active stage the prior-levels guard never throws; readiness is decided by the status guard alone |
| ApprovalRouting.StatusFitsExactly | src/modules/approval/services/approval-routing.service.ts:270-306 | the status guard accepts a stage exactly with the status of its position: SUBMITTED at a manager level in front, UNDER_REVIEW everywhere else |
| ApprovalProgress.DeactivationBlocksDecisions | src/modules/approval/services/approval-routing.service.ts:270-306 | a submitted expense of which only a finance level is still required has that level as its active stage, and every decision by anybody is refused |
| ExpenseScenarios.UndecidableExpenseIsReachable | src/modules/approval/services/approval-routing.service.ts:270-306 | a run from an empty installation, with an edit of the levels, reaches such an expense; it is listed and nobody can decide on it |
| ApprovalRouting.ApprovalOutcome | src/modules/approval/services/approval-routing.service.ts:228-239 | APPROVED implies that all levels are approved; the converse fails exactly if all later levels had been approved before |
| ApprovalProgress.ApprovalStrandsExactly | src/modules/approval/services/approval-routing.service.ts:228-239 | in every consistent state, an accepted approval leaves a pending expense without an active stage if and only if it is not at the last level and all later levels had been approved before |
| ApprovalProgress.SwapStrandsExpense | src/modules/approval/services/approval-routing.service.ts:228-239 | after two levels were swapped, the accepted approval at the one that is now first leaves the expense UNDER_REVIEW without an active stage |
| ExpenseScenarios.StrandedExpenseIsReachable | src/modules/approval/services/approval.service.ts:53-189 | a run from an empty installation, with a swap of two levels, reaches such an expense with every required level approved |
| ApprovalRouting.ChainShowsActiveStage | src/modules/approval/services/approval-routing.service.ts:150-201 | the chain view lists the required levels in order, each with its verdict, with at most one pending step, which is the active stage, behind approved steps only; all others wait |
| ApprovalAccess.CanActAsDelegate | src/modules/approval/services/delegation.service.ts:156-219 | the search succeeds exactly if some live delegation comes from a user who could act at the stage |
| ExpenseAcceptance.ActingExactly | src/modules/authorization/policies/approval-access.policy.ts:44-62 | the right to act at a stage: at a manager stage for those who lead the department that answers for the expense, at a finance stage for holders of a global grant, or for the delegates of either in the time of the delegation |
| ExpenseAcceptance.DecisionAnswered | src/modules/approval/services/approval.service.ts:63-101 | the answer to every decision: missing, no access or own expense, not waiting with its proper status, no vote, or the level it decides |
| ExpenseAcceptance.DecisionsAreByVote | src/modules/authorization/policies/approval-access.policy.ts:44-62 | an accepted decision is by, or delegated by, somebody with a vote at its stage, and never by the owner |
| ExpenseAcceptance.VotersDecideOnTrack | src/modules/approval/services/approval.service.ts:202-244 | on a pending expense on track, everybody with a vote who does not own it passes all guards |
| ExpenseAcceptance.DelegatesNeedAccess | src/modules/authorization/services/access-policy.service.ts:209-221 | a delegate without access of their own is refused |
| ExpenseAcceptance.ApprovalAccepted | src/modules/approval/services/approval.service.ts:585-622 | beyond those guards an approval asks for an existing department, a year within bounds and, over budget, a comment and at a finance stage an acknowledgement |
| ExpenseAcceptance.ApprovalLeaves | src/modules/approval/services/approval.service.ts:129-144 | the last stage of the chain approves the expense, any earlier one leaves it under review |
| ExpenseAcceptance.ApprovalRefused | src/modules/approval/services/approval.service.ts:63-101 | which refusal an approval gets: that of the guards, a missing department, or a bad request |
| ExpenseAcceptance.RejectionAccepted | src/modules/approval/services/approval.service.ts:191-244 | a rejection needs a comment and nothing else beyond those guards |
| ExpenseAcceptance.SubmissionAccepted | src/modules/expense/services/expense-submit.service.ts:73-198 | a submission is accepted exactly from the owner of a compliant draft with a positive amount whose department exists, has the manager that active manager levels need, and has room in its active budget if overspending is blocked |
| ExpenseAcceptance.SubmissionRefused | src/modules/expense/services/expense-submit.service.ts:73-198 | which refusal a submission gets, each with its exact condition |
| ExpenseAcceptance.BudgetsOnlyBlockWhenTold | src/modules/budget/services/budget.service.ts:685-720 | with blocking off no submission is refused for what the budgets hold |
| ExpenseAcceptance.SubmissionLeaves | src/modules/expense/services/expense-submit.service.ts:200-222 | an accepted submission is approved at once exactly if no active level is for its amount and approver, and otherwise waits for the first level of the lowest rank |
| ExpenseAcceptance.SubmissionPublishes | src/modules/expense/services/expense-submit.service.ts:206-258 | the events of a submission, each once, by its status and by whether there is a budget |
| ExpenseAcceptance.CreationAccepted | src/modules/expense/services/expense-draft.service.ts:56-93 | who may create a draft, what it holds, and how others are refused |
| ExpenseAcceptance.DraftUpdateAccepted | src/modules/expense/services/expense-draft.service.ts:95-155 | only drafts change, by those with the right over all or over their own, and only in what was asked |
| ExpenseAcceptance.RemovalAccepted | src/modules/expense/services/expense-draft.service.ts:157-182 | only drafts are removed, with their decisions and nothing else |
| ExpenseAcceptance.ReopeningAccepted | src/modules/expense/services/expense-draft.service.ts:184-237 | only the owner reopens, and only what was rejected |
| ExpenseAcceptance.ReimbursementAccepted | src/modules/expense/services/expense-reimbursement.service.ts:29-80 | only what was approved is reimbursed, with the permission for it |
| ExpenseAcceptance.BudgetCreationAccepted | src/modules/budget/services/budget.service.ts:72-108 | one budget per department and year, from this year on, for an active department, with a positive limit and no amounts |
| ExpenseAcceptance.BudgetUpdateAccepted | src/modules/budget/services/budget.service.ts:110-126 | an update changes the given ones of limit and activity and never the amounts |
| ExpenseAcceptance.RecalculationAccepted | src/modules/budget/services/budget.service.ts:429-470 | a recalculation sets one total of one row and refuses only years out of bounds |
| ExpenseAcceptance.MoveAccepted | src/modules/budget/services/budget.service.ts:564-607 | a move is refused only if an unattached expense of the user lies in a year out of bounds |
| ExpenseAcceptance.MoveLeaves | src/modules/user/services/user-department-change.service.ts:34-57 | the user ends in the new department, the rows of both departments in the years of unattached expenses hold their full sums, the user leads the old department no more, and nothing else changes |
| ExpenseInvariants.ReplayGivesStatus | src/modules/expense/services/expense-submit.service.ts:206-241 | in every run the events of an expense, replayed from DRAFT, stay in the status graph and end in its status |
| ExpenseInvariants.SubmitIsSound | src/modules/expense/services/expense-submit.service.ts:101-265 | a submission anchors the expense, appends the events of its new status and passes the budget check on the row it is booked on |
| ExpenseInvariants.ApproveIsSound | src/modules/approval/services/approval.service.ts:53-189 | an approval keeps log and status in step, at most one decision per level, none of them by the owner |
| ExpenseInvariants.ApprovalAddsDecision | src/modules/approval/services/approval.service.ts:110-178 | an approval appends one decision, by the caller, at a required level that had none, and one event, and changes only the status of the expense |
| ExpenseInvariants.RejectIsSound | src/modules/approval/services/approval.service.ts:191-317 | the same invariants for a rejection |
| ExpenseInvariants.RejectionAddsDecision | src/modules/approval/services/approval.service.ts:245-305 | a rejection appends one decision and two events and sets REJECTED |
| ExpenseInvariants.ReopenIsSound | src/modules/expense/services/expense-draft.service.ts:184-237 | reopening leads back to DRAFT without decisions and moves no money |
| ExpenseInvariants.ReimburseIsSound | src/modules/expense/services/expense-reimbursement.service.ts:29-80 | only APPROVED becomes REIMBURSED, with its event |
| ExpenseInvariants.UpdateIsSound | src/modules/expense/services/expense-draft.service.ts:95-155 | a draft update keeps amount, anchoring and log in order |
| ExpenseInvariants.RunsStayConsistent | src/modules/approval/services/approval.service.ts:95-178 | in every run: log and status agree, at most one decision per level, none on drafts and none by the owner, every expense past DRAFT carries department and instant |
| ExpenseInvariants.NoOneDecidesOnTheirOwn | src/modules/authorization/services/access-policy.service.ts:209-221 | no decision recorded in any run was made by the expense's owner |
| ExpenseInvariants.StepKeepsAgreement | src/modules/budget/services/budget.service.ts:502-562 | in every zone and from every consistent state, each of the sixteen actions keeps an agreeing active row in agreement if and only if it meets its guard: for a submission on its instant, for a rejection or reimbursement on where the sums count the expense, for all others none |
| ExpenseInvariants.SubmissionKeepsAgreementExactly | src/modules/expense/services/expense-submit.service.ts:161-204 | an accepted submission keeps an agreeing active row in agreement if and only if, on rows of its department, the instant lies in the range of the row's year exactly when it resolves to that year |
| ExpenseInvariants.RejectionKeepsAgreementExactly | src/modules/approval/services/approval.service.ts:255-271 | an accepted rejection does so if and only if the sums count the expense where it is booked, or the row it is booked on already shows zero |
| ExpenseInvariants.RunsAgreeExactlyWhenGuarded | src/modules/budget/services/budget.service.ts:502-562 | in every zone, an agreeing row that stays active agrees in all states of a run if and only if every step meets its guard |
| ExpenseInvariants.RunsAgreeExactlyWhenPlaced | src/modules/budget/services/budget.service.ts:502-562 | for runs that start with every expense counted under the row it is booked on, this means that it stays so in all states |
| ExpenseInvariants.GuardKeepsPlaced | src/modules/budget/services/budget.service.ts:522-546 | where every expense is counted under the row it is booked on, a step meets its guard if and only if this stays so |
| ExpenseScenarios.DisagreementIsReachable | src/modules/budget/queries/budget-committed.query.ts:90-117 | in every zone without exact ranges a run ends in an accepted submission that takes an active, agreeing row out of agreement |
| ExpenseScenarios.RejectionDisagreementIsReachable | src/modules/budget/queries/budget-committed.query.ts:119-182 | and another run ends in an accepted rejection that does so, after the row was recalculated |
| ExpenseInvariants.RunsKeepAgreement | src/modules/budget/services/budget.service.ts:502-562 | a row that agrees with the sums agrees in every later state, as long as it stays active, in zones with exact ranges and, elsewhere, while every step meets its guard |
| ExpenseInvariants.CreatedRowAgrees | src/modules/budget/services/budget.service.ts:72-108 | a new budget agrees from the start if and only if no expense is counted there yet |
| ExpenseInvariants.RecalculatedRowAgrees | src/modules/budget/services/budget.service.ts:429-470 | the two recalculations bring any row into agreement |
| ExpenseInvariants.MovingUsersLeavesLedger | src/modules/budget/services/budget.service.ts:564-607 | moving a user between departments never changes a ledger that runs produced |
| ExpenseInvariants.StepLeavesInactiveRow | src/modules/budget/queries/budget-committed.query.ts:40-88 | no action but an update or a recalculation of the row itself changes an inactive row |
| ExpenseInvariants.RunsLeaveInactiveRow | src/modules/budget/queries/budget-committed.query.ts:40-88 | in every run an inactive row keeps its amounts until then |
| ExpenseInvariants.RunsStayWithinLimit | src/modules/budget/services/budget.service.ts:369-397 | with overspend blocking on, in every zone, a row that stays active, whose limit is never lowered and which is not recalculated in disagreement keeps committed at most at the limit in every run |
| ExpenseInvariants.AgreeingRowsStayWithinLimit | src/modules/budget/services/budget.service.ts:369-397 | with exact ranges a row that starts in agreement may be recalculated at any time |
| ExpenseInvariants.StepStaysWithinLimit | src/modules/budget/services/budget.service.ts:685-720 | the budget check and the delta concern the same row, so one step cannot overcommit it |
| ApprovalProgress.RunsStayOnTrack | src/modules/approval/services/approval-routing.service.ts:83-147 | with levels and managers unchanged, decisions are an approved prefix of the required levels, the status is the position in the chain, and APPROVED comes after exactly as many approvals as levels |
| ApprovalProgress.PendingExpenseCanBeDecided | src/modules/approval/services/approval-routing.service.ts:203-306 | a pending expense on track has an active stage which all guards accept |
| ApprovalProgress.SubmitStartsChain | src/modules/approval/services/approval-routing.service.ts:98-113 | a submission puts the expense at the start of its chain, although it looks the manager up differently from a decision |
| ApprovalProgress.DecisionAdvancesChain | src/modules/approval/services/approval-routing.service.ts:228-239 | a decision moves the expense one level on, or to REJECTED |
| ApprovalProgress.ApprovalsInRunsAreComplete | src/modules/approval/services/approval.service.ts:95-143 | in every run, whatever was edited before, an approval that sets APPROVED leaves every level required at that moment with an approval by somebody other than the owner |
| ExpenseStore.Store.Create | src/modules/expense/services/expense-draft.service.ts:56-93 | commits a new draft of the owner's department or changes nothing |
| ExpenseStore.Store.Update | src/modules/expense/services/expense-draft.service.ts:95-155 | commits exactly what the lifecycle prescribes or changes nothing |
| ExpenseStore.Store.Remove | src/modules/expense/services/expense-draft.service.ts:157-182 | removes a draft with its decisions or changes nothing |
| ExpenseStore.Store.Reopen | src/modules/expense/services/expense-draft.service.ts:184-237 | deletes the decisions and reopens; skipping the ledger is right since nothing was counted |
| ExpenseStore.Store.Submit | src/modules/expense/services/expense-submit.service.ts:73-265 | the statements of a submission commit exactly the transition of the lifecycle, including ledger and events, or nothing |
| ExpenseStore.Store.Approve | src/modules/approval/services/approval.service.ts:53-189 | the same for an approval; on any error, healing included, every table is as before |
| ExpenseStore.Store.Reject | src/modules/approval/services/approval.service.ts:191-317 | the same for a rejection |
| ExpenseStore.Store.Reimburse | src/modules/expense/services/expense-reimbursement.service.ts:29-80 | the same for a reimbursement |
| ExpenseStore.Store.FindStageToDecide | src/modules/approval/services/approval.service.ts:464-511 | the guards of a decision, in order, with the stage to decide or the first error |
| ExpenseStore.Store.HealExpenseWithNoApprovalChain | src/modules/approval/services/approval.service.ts:513-546 | a pending expense without required levels is marked approved and the ledger follows, any other is left alone |
| ExpenseStore.Store.PersistDecision | src/modules/approval/services/approval.service.ts:548-583 | the insert fails exactly if the level has a decision |
| ExpenseStore.CommittedIsStep | src/modules/approval/services/approval.service.ts:61-186 | a committed or rolled back transaction is a step of the lifecycle |
| ExpenseStore.Store.CreateBudget | src/modules/budget/services/budget.service.ts:72-108 | a new active row without amounts, or the first error and no change |
| ExpenseStore.Store.UpdateBudget | src/modules/budget/services/budget.service.ts:110-126 | limit and activity of one row change, its amounts do not |
| ExpenseStore.Store.Recalculate | src/modules/budget/services/budget.service.ts:429-470 | one total of one row becomes its full sum; a year out of bounds changes nothing |
| ExpenseStore.Store.SyncUserDepartmentChange | src/modules/budget/services/budget.service.ts:564-607 | both departments of a user who moves are recalculated in exactly the years of the user's unattached expenses, or a year is out of bounds |
| ExpenseStore.Store.MoveUser | src/modules/user/services/user-department-change.service.ts:34-57 | the user moves, the ledger of both departments is recalculated and a manager who leaves is released, or nothing changes |
| ExpenseStore.Store.Handle | src/modules/approval/services/approval.service.ts:53-317 | every one of the sixteen actions is one step of the lifecycle, succeeds exactly if the step does, and keeps the invariant |
| ExpenseStore.Store.HandleAll | src/modules/approval/services/approval.service.ts:53-317 | actions handled one after the other, from the empty tables on, are a run of the lifecycle, so what holds for runs holds for the tables |
| BulkActions.BulkAnswersEachAlone | src/modules/approval/services/approval.service.ts:343-387 | in a bulk command on distinct expenses each one is answered, and ends, as if it had been the only one, in any order |
| BulkActions.ApprovalLeavesLedger | src/modules/approval/services/approval.service.ts:130-150 | an approval moves nothing on the ledger |
| BulkActions.PerformAll | src/modules/approval/services/approval.service.ts:343-387 | the loop performs every command, stops at no failure, and reports each as succeeded or failed |
| BulkActions.CommandOutcome | src/modules/approval/services/approval.service.ts:343-387 | what each command makes of an expense it accepts |
| BulkActions.ReimburseAll | src/modules/expense/services/expense-reimbursement.service.ts:82-111 | of the distinct references exactly the expenses approved beforehand succeed and end REIMBURSED, every other expense stays as it was; without the permission nothing happens |
| BudgetMetrics.ProjectionComesTrue | src/modules/budget/queries/department-budget-summary.query.ts:160-180 | the figures projected before a submission are the row's figures after it commits |
| BudgetMetrics.UtilizationIsNearest | src/database/entities/department-budget.entity.ts:85-118 | utilization in hundredths of a percent is the nearest integer to 10000 times committed over limit |
| BudgetMetrics.UtilizationIsMonotone | src/database/entities/department-budget.entity.ts:85-118 | more committed never shows less utilization |
| BudgetMetrics.RoundingsCompared | src/modules/budget/queries/department-budget-summary.query.ts:167-171 | the two roundings are to the nearest integer and differ exactly on the halves below zero |
| BudgetMetrics.DerivedColumnsMean | src/database/entities/department-budget.entity.ts:85-118 | nothing remains exactly from the limit on, over budget only beyond it, percentage to the nearest hundredth, near the limit from the threshold on |
| BudgetMetrics.NoLimitNoPercentage | src/modules/budget/queries/department-budget-summary.query.ts:160-180 | without a positive limit neither the projection nor the columns give a percentage or a warning |
| ActionableQueue.GetActionableExpenseIds | src/modules/approval/services/actionable-approval-queue.service.ts:31-98 | the list holds exactly the candidate expenses the user can act on, whatever order the rows come in |
| ActionableQueue.GroupByExpense | src/modules/approval/services/actionable-approval-queue.service.ts:46-51 | the buckets hold each expense's decisions in order |
| ActionableQueue.IsActionableForUser | src/modules/approval/services/actionable-approval-queue.service.ts:100-126 | true exactly if the user may decide, there is an active stage, and the user or a delegator may act on it |
| ActionableQueue.CandidatesKeepActionable | src/modules/approval/services/actionable-approval-queue.service.ts:70-98 | whatever the later filter would keep of the pending expenses of others is a candidate |
| ActionableQueue.RejectableExactlyWhenListed | src/modules/authorization/policies/approval-access.policy.ts:26-100 | a rejection with a comment succeeds if and only if the expense is listed and its status fits the active stage; the candidate query drops none |
| ActionableQueue.OnTrackRejectableExactlyWhenListed | src/modules/approval/services/approval.service.ts:202-244 | with an unchanged workflow, listed and rejectable are the same |
| ActionableQueue.StageIgnoresOrder | src/modules/approval/services/actionable-approval-queue.service.ts:38-61 | with one decision per level the active stage does not depend on the order of the rows |
| OutboxInvariants.RunsKeepKeysSound | src/core/outbox/services/domain-event-idempotency.service.ts:12-38 | in every run, with crashes and duplicate executions, a handler has at most one execution in progress and at most one completion under its key |
| OutboxInvariants.StepKeepsKey | src/core/outbox/services/domain-event-idempotency.service.ts:18-37 | a key in the store is with exactly one of a holder, a completion, or having been left behind; kept by every step |
| OutboxInvariants.StepKeepsShape | src/core/outbox/processors/domain-event.processor.ts:25-71 | relays, jobs and executions refer to existing rows, and a marked execution has settled and marked its row |
| OutboxInvariants.ProcessedIsPermanent | src/core/outbox/services/outbox.service.ts:115-134 | rows are only added, keep their handlers and stay processed |
| OutboxInvariants.SmallestFirstSpec | src/core/outbox/services/outbox.service.ts:52-79 | a claim takes the oldest pending rows, as many as the limit allows |
| OutboxInvariants.ClaimSize | src/core/outbox/processors/outbox-relay.processor.ts:34 | an undisturbed claim takes fifty rows, or all if there are fewer |
| OutboxModel.ClearedIsPending | src/core/outbox/services/outbox.service.ts:108-113 | clearing an unprocessed row makes exactly it pending |
| OutboxModel.DispatchedAreStamped | src/core/outbox/services/outbox.service.ts:69-77 | dispatched rows carry the instant and are pending no more |
| OutboxModel.ProcessedIsMarked | src/core/outbox/services/outbox.service.ts:115-134 | marking a row changes that and nothing else |
| OutboxModel.StuckAreReclaimed | src/core/outbox/services/outbox.service.ts:136-157 | reclaiming makes exactly the unprocessed rows pending that were dispatched more than five minutes ago |
| OutboxModel.EnqueuedIsLive | src/core/outbox/processors/outbox-relay.processor.ts:57-90 | enqueuing leaves a live job and every other one alone, and otherwise leaves a waiting job without attempts |
| OutboxInvariants.FailedAttempt | src/core/outbox/processors/domain-event.processor.ts:59-67 | each failed attempt counts, and the fifth is the last |
| OutboxDelivery.ProcessedMeansHandledOnce | src/core/outbox/services/domain-event-dispatcher.service.ts:18-47 | if jobs run in one worker at a time, every handler of a processed event completed exactly once, or never if its key was left behind |
| OutboxDelivery.CrashFreeRunsHandleOnce | src/core/outbox/services/domain-event-idempotency.service.ts:18-37 | in every run without crashes each handler of a processed event completed exactly once, across failures, retries, reclaims and re-enqueues |
| OutboxDelivery.HandledExactly | src/core/outbox/services/domain-event-idempotency.service.ts:12-38 | in every run, crashes and duplicate executions included, a handler has completed, and then once, if and only if its key is in the store, nobody holds it and it was not left behind |
| OutboxDelivery.OnlyReleaseFreesKey | src/core/outbox/services/domain-event-idempotency.service.ts:32-37 | only giving a key back after a throw takes it out of the store |
| OutboxDelivery.ProcessedWithoutThrow | src/core/outbox/services/domain-event-dispatcher.service.ts:30-47 | in every run, duplicates included, a handler of a processed event whose key was never given back has completed exactly once, unless it is still in progress or its key was left behind |
| OutboxDelivery.StepKeepsDelivery | src/core/outbox/processors/domain-event.processor.ts:30-40 | every step keeps that completed, skipped and processed are accounted for |
| OutboxDelivery.CrashLosesHandler | src/core/outbox/services/domain-event-idempotency.service.ts:25-37 | a crash inside a handler lets the event be processed without it |
| OutboxDelivery.DuplicateLosesHandler | src/core/outbox/services/domain-event-idempotency.service.ts:25-37 | so does a duplicate execution whose original then fails |
| OutboxDelivery.OneActiveHandlerIsReachable | src/core/outbox/processors/outbox-relay.processor.ts:26-90 | the state in which both happen is reached by append, claim, relay, begin and acquire |
| OutboxProgress.NoEventIsLost | src/core/outbox/services/outbox.service.ts:52-157 | from every reachable state every event has a continuation without further failures in which it is processed |
| OutboxProgress.PendingProcesses | src/core/outbox/processors/outbox-relay.processor.ts:34-46 | a pending event is claimed after the older ones, by a decreasing set of smaller pending ids |
| OutboxProgress.IdleProcesses | src/core/outbox/services/outbox.service.ts:136-157 | an event left dispatched without a live job is reclaimed after the stuck window and then processed |
| OutboxProgress.ActiveProcesses | src/core/outbox/processors/domain-event.processor.ts:50-71 | an execution in progress processes its event or fails its job, which leads on to the other cases |
| OutboxProgress.ProcessedForever | src/core/outbox/services/outbox.service.ts:115-134 | a processed event stays processed in every run |
| OutboxProgress.RunsKeepJobsOk | src/core/outbox/processors/domain-event.processor.ts:25-48 | an active job has an execution, and a completed job has marked its row |
| OutboxStore.Outbox.Append | src/core/outbox/services/outbox.service.ts:32-50 | a new row under a new id, pending |
| OutboxStore.Outbox.ClaimPendingBatch | src/core/outbox/services/outbox.service.ts:52-79 | the batch holds the oldest pending rows that nobody has locked, is one that the step system allows, and is pending no more; other rows are unchanged |
| OutboxStore.Outbox.ClearDispatched | src/core/outbox/services/outbox.service.ts:108-113 | the row is dispatched no more, other rows are unchanged |
| OutboxStore.Outbox.MarkProcessed | src/core/outbox/services/outbox.service.ts:115-134 | the row is processed, other rows are unchanged |
| OutboxStore.Outbox.ReclaimStuckDispatched | src/core/outbox/services/outbox.service.ts:136-157 | exactly the unprocessed rows dispatched before the cutoff become pending |
| OutboxStore.Outbox.EnqueueDomainEvent | src/core/outbox/processors/outbox-relay.processor.ts:57-90 | a live job is never touched; otherwise a new waiting job replaces a finished one, which a failing queue may lose |
| OutboxStore.Outbox.RelayBatch | src/core/outbox/processors/outbox-relay.processor.ts:26-51 | of the claimed batch, at most fifty, a relay that fails makes exactly the event it failed at pending again and leaves the ones behind it dispatched |
| OutboxStore.RelayedBySteps | src/core/outbox/processors/outbox-relay.processor.ts:39-46 | the relay loop is a run of the step system, wherever it fails |
| OutboxStore.RelayedSpec | src/core/outbox/processors/outbox-relay.processor.ts:57-90 | relaying never touches a live job, and without faults leaves every event of the batch with one |
| OutboxStore.Outbox.RunOnce | src/core/outbox/services/domain-event-idempotency.service.ts:12-38 | the handler is called exactly if its key was free, and a handler that throws gives its key back |
| OutboxStore.HandledBySteps | src/core/outbox/services/domain-event-idempotency.service.ts:12-38 | a handler call is a run of the step system, for every outcome of handler and key store |
| OutboxStore.HandledMeans | src/core/outbox/services/domain-event-idempotency.service.ts:18-37 | a completed handler has its key set and one completion more, a skipped one found its key taken, a thrown one leaves the keys as they were |
| OutboxStore.Outbox.Dispatch | src/core/outbox/services/domain-event-dispatcher.service.ts:11-48 | all handlers are called whatever the others do, and the dispatch throws exactly if one of them did |
| OutboxStore.DispatchedBySteps | src/core/outbox/services/domain-event-dispatcher.service.ts:30-32 | a dispatch is a run of the step system |
| OutboxStore.Outbox.Process | src/core/outbox/processors/domain-event.processor.ts:25-48 | the row is marked exactly if no handler threw |
| OutboxStore.Outbox.OnFailed | src/core/outbox/processors/domain-event.processor.ts:50-71 | after the fifth attempt an unprocessed event is pending again, before it nothing changes |
| OutboxStore.HandlerRegistry.Register | src/core/outbox/services/domain-event-handler.registry.ts:21-25 | handlers are added behind those of the same event type and no other type changes |
| OutboxStore.HandlerRegistry.Resolve | src/core/outbox/services/domain-event-handler.registry.ts:27-45 | all registered factories contribute, in order of registration, and each handler comes with the once-only key of its event and name |
| WorkerPool.SettledPool | src/modules/budget/utils/run-with-concurrency.util.ts:1-22 | in every interleaving each item is handed out once and in order, all of them if some slot ends normally, and every item not lost to a failure is in agreement |
| WorkerPool.ResumeKeepsSound | src/modules/budget/utils/run-with-concurrency.util.ts:13-20 | no item is with two slots, and a released item has both its totals recalculated; kept at every await |
| WorkerPool.PoolSizeSpec | src/modules/budget/utils/run-with-concurrency.util.ts:10-14 | as many slots as asked for, at least one and no more than items |
| WorkerPool.FailureStops | src/modules/budget/utils/run-with-concurrency.util.ts:13-20 | a failing recalculation ends its slot and changes nothing else |
| WorkerPool.TurnsUseUpWork | src/modules/budget/utils/run-with-concurrency.util.ts:13-20 | every turn of an unsettled slot uses up work, so the pool settles |
| WorkerPool.ReconciliationIsDeterministic | src/modules/budget/services/budget.service.ts:609-628 | from any amounts and under any interleaving, reconciliation without failures ends in the one table in which all active rows agree |
| WorkerPool.ReconcilingAgainChangesNothing | src/modules/budget/services/budget.service.ts:609-628 | a second run of the pool, of any size and under any interleaving, leaves the reconciled table as it found it |
| WorkerPool.ReconciliationRun.TakeNext | src/modules/budget/utils/run-with-concurrency.util.ts:15-18 | the synchronous part of a slot takes one index and advances it |
| WorkerPool.ReconciliationRun.Continue | src/modules/budget/services/budget.service.ts:616-627 | what one slot does between two awaits is the pool's step |
| ManagerHistory.ChangeKeepsSound | src/modules/department/services/department-manager.service.ts:68-91 | a manager change closes the open entry, opens one for the new manager, and keeps the history in order |
| ManagerHistory.AssignSpec | src/modules/department/services/department-mutation.service.ts:122-143 | an update that names another manager makes that one the current manager, closes the open entry and opens one for the new manager |
| ManagerHistory.ReleaseSpec | src/modules/department/services/department-manager.service.ts:93-127 | the manager who leaves is released and the open entry closed; anybody else changes nothing |
| ManagerHistory.RunsStaySound | src/modules/department/services/department-mutation.service.ts:122-143 | over every run of changes and releases the history is sound, even when an update had read an outdated manager |
| ManagerHistory.OneOpenEntry | src/modules/department/services/department-manager.service.ts:68-91 | at most one entry of a department is open, it names the current manager, and it exists exactly if there is one |
| ManagerHistory.EntriesDoNotOverlap | src/modules/department/services/department-manager.service.ts:68-91 | at no instant did a department have two managers on record |
| ManagerHistory.HistoryOnlyGrows | src/modules/department/services/department-manager.service.ts:68-91 | entries keep their place, manager and start, and closed ones their end |
| ManagerHistory.DepartmentBook.ApplyManagerChange | src/modules/department/services/department-manager.service.ts:68-91 | the two statements perform the change of the history |
| ManagerHistory.DepartmentBook.UpdateManager | src/modules/department/services/department-mutation.service.ts:104-164 | the manager part of a department update, with its conflict on pending approvals |
| ManagerHistory.DepartmentBook.ReleaseManagerIfUserLeftDepartment | src/modules/department/services/department-manager.service.ts:93-127 | the manager is released exactly if the user who left is the current one |
| CsvExport.QuotedReadsBack | src/modules/budget/utils/budget-export.util.ts:3-9 | a quoted cell reads back under the rules of section 2 of RFC 4180, whatever it holds |
| CsvExport.FieldReadsBack | src/modules/budget/utils/budget-export.util.ts:3-9 | every cell, quoted or not, reads back up to the next separator |
| CsvExport.PlainCellsStayPlain | src/modules/budget/utils/budget-export.util.ts:3-9 | a cell is quoted exactly if it holds a quote, a comma or a line break |
| CsvExport.RecordReadsBack | src/modules/budget/utils/budget-export.util.ts:48-50 | every row reads back up to the next line break |
| CsvExport.RoundTrip | src/modules/budget/utils/budget-export.util.ts:48-50 | the text reads back as the table if and only if its last row is not a single empty cell |
| CsvExport.ExportRoundTrip | src/modules/budget/utils/budget-export.util.ts:15-51 | a budget export reads back as its header and rows |

## Left out

- HTTP, DTO validation, guards, metrics, mail, storage and authentication: plumbing around the operations.
- The request idempotency interceptor: it does not provide at-most-once execution.
- Policies, title and incurred-date checks, attachments, read access: the free booleans `compliant` and `formValid` stand for them.
- Permission names beyond those the modelled guards ask for, and the roles that carry them: a user simply has a set of grants.
- Resolution of human-readable references to ids, and the clock's advance within one bulk command.
- ExpenseStore.Store.Reopen: does not say whether `submitted_at` is cleared, because that is up to the ORM; both outcomes are allowed. The other cleared timestamps are not modelled.
- Free text and metadata of decisions and comments, titles, categories, currency, reimbursement references.
- Effects of concurrency below the level of transactions: READ COMMITTED interleavings, retries on serialisation errors.
- ApprovalAccess.CanActAsDelegate: covers the two approver types of the code; creating and revoking delegations is an arbitrary edit of their list.
- Validation of the approval-level catalogue and staleness of its cache: levels may become any list with distinct ids.
- Deleted budget rows, listings, paging, dashboards, forecasts, department statistics and the read models of summaries.
- Domain.TotalUpdate: sums are unbounded integers; the width of the SQL columns is not modelled.
- BudgetPeriod.ZonedMidnightToUtc: zones with daylight saving, the fallback to UTC for an unknown zone name, and the upper end of the `Date` range are not modelled.
- BudgetPeriod.ReadClock: the formatter is a function of offset and calendar; its text and its parsing are not modelled.
- BudgetMetrics.ProjectionComesTrue: arithmetic is exact; binary floating point and the two-decimal column type are not modelled.
- Ledger agreement of a row while it is inactive, or created after submissions: deltas are not recorded there; `CreatedRowAgrees` and `RecalculatedRowAgrees` say what holds.
- OutboxStore.HandlerRegistry.Resolve: the key leaves out the event type, which the event determines; the handler functions themselves are not modelled.
- ExpenseStore.Store.Edit: the services that edit levels, departments, users and delegations are not modelled; their results arrive as given.
- ExpenseStore.Store.Create: the duplicate-reference retry and attachments are not modelled.
- OutboxStore.Outbox.Append: payload, correlation id and row idempotency key are not modelled, nor is the delayed relay job that it schedules; relays may start at any time.
- OutboxStore.Outbox.MarkProcessed: redaction of the payload is not modelled.
- OutboxStore.Outbox.Dispatch: calls the handlers one after the other; interleavings of handlers are runs of the step system in `outbox_model`, which the invariants cover.
- OutboxProgress.NoEventIsLost: says that a continuation exists, not that a fair scheduler takes it; backoff delays are not timed.
- CsvExport.ExportRoundTrip: cells are given as text; the formatting of amounts, dates and percentages is not modelled.
- WorkerPool.SettledPool: the query that lists the active budgets is its input; expenses do not change while the pool is at work.
- ManagerHistory.RunsStaySound: each change is one atomic step.
- Catalogue of departments beyond manager, activity and deletion; users beyond department and grants.
