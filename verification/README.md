# Budget control, modelled and proved

This project models two services of the budget module over a small relational
state, and proves what they promise.

* **Posting control** answers which confirmed plan positions a prospective
  posting would push over plan. The service folds the posting into a map, joins it
  with positions read too widely on purpose, groups the ledger, and compares. The
  model keeps that pipeline as methods and proves that it equals a per-position
  definition with direct sums.
* **The budget lifecycle** is a set of verbs over two tables: create, patch, line
  edits, confirm, close, cancel. It is modelled twice. `BudgetStore` runs each verb
  as one transaction, and every method states when it succeeds, which rows it
  changes, and what posting control sees of it.
  `Races` splits each verb into its reads, checks and writes, and lets the steps of
  any number of verbs interleave. `SoloRuns` proves that the second model refines
  the first, errors included.
* **The joint** says exactly how each verb changes what control reports, and what
  the gate guarantees over runs that mix verbs and postings.

## Files

| file | content |
|---|---|
| Types.dfy | tables, keys, general-ledger masters |
| Sums.dfy | sums over sequences, enumerations of sets |
| Reads.dfy | the queries, as functions and predicates over tables |
| Control.dfy | evaluation, achievement report, coverage |
| ControlLaws.dfy | posting shape, conservation, gate against report, no double counting |
| Ceiling.dfy | the spending ceiling |
| Workflow.dfy | the verbs as functions of the tables; create and confirm told by the guard matrix |
| WorkflowLaws.dfy | what each edit computes; patches; sub-cent amounts; a missing schema |
| BudgetStore.dfy | the verbs as methods that update the tables |
| AtomicRuns.dfy | invariants, freeze, held keys over runs |
| KeyUniqueness.dfy | when one key has one position |
| ControlEffects.dfy | the effect of verbs on control |
| Races.dfy | interleaved verbs; exclusivity of confirmed keys |
| Overlaps.dfy | which overlaps on one budget keep the freeze, armed budgets and fitting periods |
| RaceWitnesses.dfy | runs that show the conditions are needed |
| Lifecycle.dfy | linearizability of the compare-and-sets |
| LifecycleVerbs.dfy | linearizability of confirm, close and cancel as whole verbs |
| Solo.dfy | uninterrupted steps equal the atomic verb |
| StepsOnRows.dfy | each guard step and write of the step model, told on the rows it finds |

## How the source is read

* A query without an ORDER BY is a set; the methods fetch it in an arbitrary order.
  A query ordered in part, or with LIMIT 1 among equals, is a predicate on answers.
* Money is `real`, exact. Planned amounts are rounded to cents where they are
  stored; the guard on the amount runs before the rounding, as in the service.
* New ids are arguments. A collision is answered as the service maps the
  primary-key error.
* The database is the undecorated one: primary keys and CHECK constraints, no unique
  index on codes or keys. The declared CHECK constraints
  (migrations/20260910103102_add_declared_checks_df116007.up.sql) are taken as installed.
* The ledger row of a committed posting carries the posting's period and its
  account's orientation, as the ledger stamps it.
* Whether the accounting schema is present is one flag.

## Where the code and its documentation differ

* The flow document and the guard matrix promise one live position per control key.
  The guard asks other budgets only, so a create can repeat a key inside one budget.
  `KeyUniqueness` gives the exact conditions.
* The workflow service says that a missing accounting schema ends in
  `accounting_unwired`. The error exists for the probe's configuration error, but the
  verbs never probe: the failed query maps to the internal error. `NeverUnwired` proves
  it of every verb, `UnwiredAddLine` gives an input, and `UnwiredFailsClosed` proves the
  part of the promise that holds.
* Confirm's comment says a lost compare-and-set surfaces as 409. The statement uses
  `fetch_one`, so it is an internal error; close and cancel do answer 409.
  `LosersWriteNothing` states both and `LostConfirmIsInternal` is a run that ends so.
* The posting gate is meant as a ceiling. It measures through the posting date, so
  backdated postings can pass and still exceed the plan. `CeilingStepExact` says exactly
  when a key is safe from the next posting, other block positions on it included, and
  `SafeRunKeepsCeiling` carries the condition over whole runs.
* The amount guard runs before the rounding to cents, so a line worth zero can be stored;
  `SubCentCreateStopsConfirm` and its companions say when, and that confirm then refuses;
  `ZeroLineIsStored` stores one.
* A patch that carries enforcement stores nothing else, and a patch cannot clear a
  description. `PatchStoresRequestExactly` says when a patch stores what it asks for;
  `MixedPatchLosesName` and `ClearedDescriptionStays` are patches that do not.
* An UPDATE that matches no row because the budget is no longer draft, as for an empty
  patch of a confirmed budget, is an internal error. `PatchExactly` says when a patch
  answers it, `EmptyPatchOfConfirmed` is such a patch.
* Every verb is described as a compare-and-set that ends a race in a conflict. The line
  verbs and the enforcement patch are not: they can land after a confirm or a close that
  overtook them. A header patch also writes back dates it was not asked for, as it read
  them (`CrossedPatchRestoresDate`). `Overlaps` says which overlaps are harmless for which promise, and
  `RaceWitnesses` has a run for each that is not.

## Model

| member | source | states |
|---|---|---|
| BudgetReads.PeriodCovering | src/infrastructure/persistence/budget_read_repository.rs:180-195 | answers some live period that contains the date and for which no live period containing it has a smaller difference of end and start, and none only when no live period contains it |
| BudgetReads.BudgetLines | src/infrastructure/persistence/budget_read_repository.rs:290-304 | lists each live line of the budget once, smaller periods first and within a period smaller accounts first, ties in any order |
| BudgetReads.GroupIsDirectSum | src/infrastructure/persistence/budget_read_repository.rs:245-269 | every group of either movement query totals exactly the direct sum of the live rows on its key, however many accounts and periods were read |
| BudgetReads.NoGroupNoMovement | src/infrastructure/persistence/budget_read_repository.rs:309-333 | a key the query returns no group for has no movement |
| BudgetControl.DistinctAccounts | src/application/service/budget_control_service.rs:197-202 | the accounts of the lines, strictly ascending, none lost or added |
| BudgetControl.PendingByKey | src/application/service/budget_control_service.rs:212-222 | the in-place fold holds, on every key, the signed sum of the lines on that key; unknown accounts add nothing |
| BudgetControl.AchievedByKey | src/application/service/budget_control_service.rs:241-247 | every entry of the collected map is a fetched group's value, and every group with a period has an entry; the report collects its map in the same way |
| BudgetControl.CollectedIsDirect | src/application/service/budget_control_service.rs:234-262 | the map lookup with default zero equals the direct sum on every key of the accounts read |
| BudgetControl.Compare | src/application/service/budget_control_service.rs:249-276 | the loop reports, in position order, exactly the positions whose pending is positive and whose achieved plus pending exceeds plan, each breach field by field that of its position with the direct sums |
| BudgetControl.PendingGrows | src/application/service/budget_control_service.rs:111-120 | each line on the exact account and cost center adds debit minus credit if its account is debit-normal, credit minus debit if not, and nothing if the account is unknown |
| BudgetControl.AchievedGrows | src/infrastructure/persistence/budget_read_repository.rs:242-269 | each live ledger row on the exact account, cost center and period through the date adds its amount in the direction of its own stamp, every other row nothing |
| BudgetControl.BreachesOnRows | src/application/service/budget_control_service.rs:249-276 | the breaches of a period are one per live line of a live confirmed budget pushed over plan, with that line's account, cost center, period, budget and plan and its budget's enforcement |
| BudgetControl.EvaluationOnRows | src/application/service/budget_control_service.rs:175-278 | every answer lists exactly the lines pushed over in one shortest live period on the date, each once and showing its own row, or nothing when no period is on the date |
| BudgetControl.ShorterPeriodControls | src/infrastructure/persistence/budget_read_repository.rs:190 | when a shorter and longer periods cover the date, the lines of the shorter are the ones evaluated |
| BudgetControl.WideReadLosesNothing | src/application/service/budget_control_service.rs:227-233 | reading positions by account and cutting the rest drops no breach and adds none |
| BudgetControl.EvaluatePostingOn | src/application/service/budget_control_service.rs:175-278 | refuses when the ledger schema is absent, else lists exactly the lines pushed over in a shortest live period on the date, each breach showing its own row, whatever order the queries answer in |
| BudgetControl.EvaluatePosting | src/application/service/budget_control_service.rs:156-170 | an empty posting passes even without the ledger schema; every other answer lists exactly the lines pushed over, as the evaluation does |
| BudgetControl.EvaluationDecided | src/application/service/budget_control_service.rs:183-194 | when no period ties for narrowest, every possible answer lists the same breaches |
| BudgetControl.AchievementOn | src/application/service/budget_control_service.rs:293-355 | one row per live line, by period then account, each with its own line's budget, key and plan, the direct sum, what remains, and the quotient that times the plan gives the sum, zero for a zero plan; or the typed refusals |
| BudgetControl.CoveragePosition | src/infrastructure/persistence/budget_read_repository.rs:339-363 | answers a live line of a live budget on exactly the account, cost center and period, with its own row's fields, or proves there is none |
| ControlLaws.LineOrderIrrelevant | src/application/service/budget_control_service.rs:197-222 | permuting a posting's lines leaves the breaches identical |
| ControlLaws.SplitAndMergeIrrelevant | src/application/service/budget_control_service.rs:212-222 | replacing lines of one key by any others with the same net, anywhere in the posting, leaves the breaches identical |
| ControlLaws.ReducingLegsNeverBreach | src/application/service/budget_control_service.rs:250-263 | legs that reduce a key never add a breach on it and never breach alone |
| ControlLaws.PostThenMeasure | src/infrastructure/persistence/budget_read_repository.rs:242-269 | committing a posting moves each exact key by exactly its pending, from its date on and in its period only |
| ControlLaws.ReversalRestores | src/application/service/budget_control_service.rs:111-120 | committing the swapped posting on the same date restores every key through every date |
| ControlLaws.PostingWithReversalNeverBreaches | src/application/service/budget_control_service.rs:25-28 | a posting with its own reversal breaches nothing, on any plan and ledger |
| ControlLaws.GateAgreesWithReport | src/application/service/budget_control_service.rs:249-276 | on every row of every report of a confirmed budget, the gate breaches the line iff pending is positive and above the row's remaining amount, and shows the row's amounts |
| ControlLaws.ReportAddsUp | src/application/service/budget_control_service.rs:330-353 | achieved plus remaining is planned, every live line has exactly one row, and a positive plan is used above 1 iff remaining is negative |
| ControlLaws.GroupKeysUnique | src/infrastructure/persistence/budget_read_repository.rs:252-262 | two groups with the same key are the same group, so collecting them overwrites nothing |
| ControlLaws.NoDoubleCounting | src/infrastructure/persistence/budget_read_repository.rs:245-333 | for the control query and for the report's over many periods: over all cost centers, the absent one included, an account's groups of a period sum to its movement in it |
| SpendingCeiling.SafeOfferKeepsCeiling | docs/business-flows/budget-control.md:43-54 | a posting through the gate keeps the total on a position's key at or under the larger of its plan and the total before, whenever the key is safe at the posting date |
| SpendingCeiling.CeilingStepExact | docs/business-flows/budget-control.md:43-54 | over the gate and every balanced posting it lets through: a key keeps its ceiling iff its account cannot be posted to, or some block position on the key is used up through the date or, filled, still leaves the total with the later rows within the plan; and then no posting at all breaks it |
| SpendingCeiling.UnsafeLines | src/application/service/budget_control_service.rs:212-276 | on any key that is not safe, a balanced posting of one-sided lines that passes the gate and breaks the ceiling |
| SpendingCeiling.SafeRunKeepsCeiling | src/application/service/budget_control_service.rs:212-276 | the ceiling over runs of any length and in any date order, if each posting into the period meets a safe key, with plan and masters free to change |
| SpendingCeiling.InOrderRunIsSafe | docs/business-flows/budget-control.md:43-54 | a run in date order meets a safe key at every posting as long as the position blocks |
| SpendingCeiling.BlockCeiling | src/application/service/budget_control_service.rs:212-276 | the ceiling over runs of any length in date order, with plan and masters free to change around the position |
| SpendingCeiling.BlockCeilingAsReported | docs/business-flows/budget-control.md:50-65 | the ceiling after any number of the postings, as measured by the report through any date not before them |
| SpendingCeiling.BackdatedRunBreaksCeiling | src/infrastructure/persistence/budget_read_repository.rs:260 | a concrete run of two balanced, gated postings, the second backdated, that ends at 180 against a plan of 100 |
| BudgetWorkflow.FailedVerbWritesNothing | src/application/service/budget_workflow_service.rs:386-795 | any verb that ends in an error, at any guard or row, leaves both tables unchanged |
| BudgetWorkflow.InsertedRows | src/application/service/budget_workflow_service.rs:305-345 | a batch of inserts stores exactly one row per input, year and month minted from its period, and keeps every other row |
| BudgetWorkflow.InsertsExactly | src/application/service/budget_workflow_service.rs:305-345 | a batch of inserts succeeds iff its ids are distinct and new and every row has a live period and fits the CHECK constraints |
| BudgetWorkflow.CreateSucceedsExactly | src/application/service/budget_workflow_service.rs:386-456 | create succeeds iff dates are in order, the code is free, every line meets the master rows and has a key no other budget holds, and the database accepts header and lines, all told on the rows |
| BudgetWorkflow.ConfirmSucceedsExactly | src/application/service/budget_workflow_service.rs:661-702 | confirm succeeds iff the budget is a live draft with a live line and every live line has a positive amount, a live active detail account, a live active leaf cost center if any, a fitting live period, and a key no other budget holds |
| BudgetWorkflow.CreateAddsExactly | src/application/service/budget_workflow_service.rs:386-456 | a successful create adds one live draft header equal to the input field by field, which it returns, and one row per line in order, field by field; nothing else changes |
| BudgetWorkflow.RefusalNames | src/application/service/budget_workflow_service.rs:213-278 | which error each guard answers, with the line's own account, cost center or period, and in which order the guards decide |
| BudgetWorkflow.FirstRefusalIs | src/application/service/budget_workflow_service.rs:417-425 | of several lines the first that is refused decides the answer |
| BudgetWorkflow.NoRefusal | src/application/service/budget_workflow_service.rs:417-425 | the early-returning guard loop passes iff every line passes |
| BudgetWorkflow.StoredAmountZero | migrations/20260426220002_create_budget_line_table.up.sql:15 | a positive amount is stored as zero iff it is below half a cent, and never as negative |
| WorkflowLaws.AddLineExactly | src/application/service/budget_workflow_service.rs:548-573 | add_line succeeds iff the budget is a live draft, the line meets the master rows, no other budget has its key, its id is new and its row fits; then exactly that row is added, field by field, the amount to the nearest cent, and the live lines grow by exactly its id |
| WorkflowLaws.AddLineRefuses | src/application/service/budget_workflow_service.rs:213-345 | every error of an add_line on a draft: the guards in order, then the row's CHECKs, then its primary key |
| WorkflowLaws.BadAccountIsNamed | src/application/service/budget_workflow_service.rs:221-229 | an account that is inactive, deleted, a header or not detail answers account-missing of that account |
| WorkflowLaws.CreateRefuses | src/application/service/budget_workflow_service.rs:391-456 | every error of a create, in the order it asks |
| WorkflowLaws.ConfirmRefuses | src/application/service/budget_workflow_service.rs:670-702 | every error of a confirm; a refusal by a guard is that of one of the budget's live lines |
| WorkflowLaws.UpdateLineExactly | src/application/service/budget_workflow_service.rs:578-620 | update_line succeeds iff the amount is positive, the budget is a live draft, the line is a live line of it and the new row fits; then only amount and notes of that row change and every budget keeps its live lines |
| WorkflowLaws.DeleteLineExactly | src/application/service/budget_workflow_service.rs:623-657 | delete_line succeeds iff the budget is a live draft and the line is a live line of it; then it removes exactly that line and leaves every other budget alone |
| WorkflowLaws.PatchExactly | src/application/service/budget_workflow_service.rs:462-543 | a patch is taken iff the budget is live and in draft, or confirmed with enforcement given and name, description and both dates absent; dates in order and texts in bounds; the stored header field by field; the exact case of each error, told by the fields given |
| WorkflowLaws.EmptyPatchOfConfirmed | src/application/service/budget_workflow_service.rs:512-540 | a concrete empty patch of a confirmed budget that answers the internal error |
| WorkflowLaws.MixedPatchLosesName | src/application/service/budget_workflow_service.rs:481-505 | a concrete patch with a name and a posture that succeeds and stores the posture only |
| WorkflowLaws.ClearedDescriptionStays | src/application/service/budget_workflow_service.rs:519 | a concrete patch that asks to clear the description, succeeds and keeps it |
| WorkflowLaws.ZeroLineIsStored | src/application/service/budget_workflow_service.rs:219 | a concrete add_line of 0.004 that succeeds and stores zero |
| WorkflowLaws.TransitionExactly | src/application/service/budget_workflow_service.rs:754-795 | close and cancel succeed iff the budget is live and its status allowed; only the status moves; a refusal names the status that was read |
| WorkflowLaws.SubCentCreateStopsConfirm | src/application/service/budget_workflow_service.rs:417-453 | each line a create stores is positive iff its amount is at least half a cent; with one below, confirm refuses the budget |
| WorkflowLaws.SubCentAddStopsConfirm | src/application/service/budget_workflow_service.rs:219 | the same for add_line |
| WorkflowLaws.SubCentUpdateStopsConfirm | src/application/service/budget_workflow_service.rs:586-588 | the same for update_line |
| WorkflowLaws.NeverUnwired | src/application/service/budget_workflow_service.rs:120-139 | no verb, on any tables and masters, ever answers `accounting_unwired` |
| WorkflowLaws.UnwiredIsInternal | src/application/service/budget_workflow_service.rs:30-32 | without the accounting schema, a verb that reaches its first master read ends in the internal error |
| WorkflowLaws.UnwiredAddLine | src/application/service/budget_workflow_service.rs:30-32 | a concrete add_line, without the schema, that answers the internal error |
| WorkflowLaws.UnwiredFailsClosed | src/application/service/budget_workflow_service.rs:30-32 | without the accounting schema no add_line, no confirm and no create with lines succeeds |
| BudgetWorkflow.ConfirmDecided | src/application/service/budget_workflow_service.rs:664-724 | every possible outcome of confirm agrees on success and on the tables, whatever order the lines are asked in |
| WorkflowLaws.PatchStoresRequestExactly | src/application/service/budget_workflow_service.rs:462-543 | a successful patch stores what it asks for iff it does not mix enforcement with another change and does not clear a present description |
| BudgetStores.BudgetStore.CreateBudget | src/application/service/budget_workflow_service.rs:386-456 | check-all-then-insert-all with rollback: succeeds iff the guard matrix and the database accept header and every line; then exactly one header, equal to the input field by field and returned, and one row per line are added; an error, the first refusal in order, changes nothing; control sees no change |
| BudgetStores.BudgetStore.UpdateBudget | src/application/service/budget_workflow_service.rs:462-543 | succeeds iff live and draft, or confirmed for enforcement alone; not-draft iff out of draft with a name, description or date given; the stored header field by field, every other row as it was; control sees exactly the new enforcement on the budget's positions, or nothing |
| BudgetStores.BudgetStore.AddLine | src/application/service/budget_workflow_service.rs:548-573 | succeeds iff live draft, master rows met, key free, id new and row in bounds; exactly one row is added, field by field, and control sees no change |
| BudgetStores.BudgetStore.UpdateLine | src/application/service/budget_workflow_service.rs:578-620 | succeeds iff positive amount, live draft, live line of it and row in bounds; only amount and notes of that row change, and control sees no change |
| BudgetStores.BudgetStore.DeleteLine | src/application/service/budget_workflow_service.rs:623-657 | succeeds iff live draft and live line of it; exactly that line leaves the budget, every other row and budget stays, and control sees no change |
| BudgetStores.BudgetStore.ConfirmBudget | src/application/service/budget_workflow_service.rs:664-724 | succeeds iff every guard holds on every stored line, told on the master rows; the status alone moves; each early refusal exactly; control gains the budget's positions, at least one and none before, or nothing moves |
| BudgetStores.BudgetStore.Transition | src/application/service/budget_workflow_service.rs:754-795 | succeeds iff live with an allowed status; only that status moves; otherwise not found, or the conflict with the status it read |
| BudgetStores.BudgetStore.CloseBudget | src/application/service/budget_workflow_service.rs:727-734 | succeeds iff live and confirmed, and takes exactly the budget's positions from control |
| BudgetStores.BudgetStore.CancelBudget | src/application/service/budget_workflow_service.rs:737-749 | succeeds iff live and draft or confirmed, and takes exactly the budget's positions, if any, from control |
| AtomicRuns.VerbShape | src/application/service/budget_workflow_service.rs:386-795 | every verb, with any arguments, rewrites one header keeping its identity, rewrites or adds lines of its own draft, adds one draft, or does nothing |
| AtomicRuns.RunKeepsInvariant | src/application/service/budget_workflow_service.rs:213-345 | in every atomic run with masters changing at will: live codes distinct, no live key in two budgets, lines sound against their headers and CHECKs, dates ordered, ever-confirmed budgets with at least one line and only positive amounts |
| AtomicRuns.ReachableIsSound | src/application/service/budget_workflow_service.rs:386-795 | the same of every state reached from the empty database |
| AtomicRuns.FreezeOverRuns | src/application/service/budget_workflow_service.rs:462-657 | once out of draft, identity, dates and the full set and content of the lines never change; once closed or cancelled, nor do enforcement and status |
| AtomicRuns.ConfirmedPeriodsKeepFitting | src/application/service/budget_workflow_service.rs:680-701 | with periods unchanged, every live line of an ever-confirmed budget stays inside its header's year and dates |
| AtomicRuns.HeldKeyRefuses | src/application/service/budget_workflow_service.rs:253-278 | a create, add_line or confirm that would bring a held key to another budget fails |
| AtomicRuns.KeysStayHeld | src/application/service/budget_workflow_service.rs:754-795 | a key held by a budget out of draft, closed and cancelled included, stays held and refused through every later run |
| AtomicRuns.CoverageAgreesWithGuard | src/infrastructure/persistence/budget_read_repository.rs:337-363 | in sound states the UI pre-check finds a position iff the write guard would refuse the key to a new budget |
| AtomicRuns.CoverageAgreesAfterRuns | src/application/service/budget_control_service.rs:357-374 | the same in every state an atomic run reaches |
| KeyUniqueness.CreateKeepsUniqueExactly | src/application/service/budget_workflow_service.rs:417-425 | a successful create keeps one live position per key iff its own lines repeat no key |
| KeyUniqueness.AddLineKeepsUniqueExactly | src/application/service/budget_workflow_service.rs:562-567 | a successful add_line keeps it iff its own budget does not hold the key yet |
| KeyUniqueness.OtherVerbsKeepUnique | src/application/service/budget_workflow_service.rs:462-795 | no other verb can break it |
| KeyUniqueness.CarefulRunsKeepUnique | docs/business-flows/budget-control.md:21-23 | with careful callers the rule holds in every state of every run and a key has one position at most |
| KeyUniqueness.CreateCanRepeatAKey | src/application/service/budget_workflow_service.rs:266 | a concrete create that succeeds with one key twice |
| ControlEffects.UnconfirmedVerbInvisible | src/infrastructure/persistence/budget_read_repository.rs:232 | a verb on a budget not confirmed before nor after leaves control's view of the plan unchanged |
| ControlEffects.ConfirmAddsItsPositions | src/application/service/budget_workflow_service.rs:703-723 | confirm adds exactly the budget's live lines, none of which control saw |
| ControlEffects.CloseAndCancelRemoveItsPositions | src/application/service/budget_workflow_service.rs:726-749 | close and cancel of a confirmed budget remove exactly its positions |
| ControlEffects.ConfirmedVerbOnlyPostures | src/application/service/budget_workflow_service.rs:481-505 | the only verb that succeeds on a confirmed budget and leaves it confirmed is the enforcement patch, and it changes only enforcement |
| ControlEffects.VerbEffectOnEvaluation | src/infrastructure/persistence/budget_read_repository.rs:218-240 | the exact effect of every verb on the breaches of every posting, on every ledger, date and masters |
| ControlEffects.PositionPersists | src/application/service/budget_workflow_service.rs:462-795 | a block position stays in control under every verb short of ending or relaxing its budget |
| ControlEffects.CeilingOverSafeActs | docs/business-flows/budget-control.md:37-65 | the ceiling over runs that mix any verbs with gated postings in any date order, if each posting into the period meets a key safe under the plan of that moment |
| ControlEffects.CeilingOverVerbsAndPostings | docs/business-flows/budget-control.md:37-65 | the spending ceiling over runs that mix verbs on any budgets with gated postings in date order |
| Races.StepKeepsRaceInvariantExactly | src/application/service/budget_workflow_service.rs:680-721 | every step of every interleaving keeps the exclusivity invariant iff it is not an insert landing on a budget that stands for its key (confirmed, or confirming past its check) while another budget seals it |
| Races.RacesKeepExclusivity | src/application/service/budget_workflow_service.rs:680-721 | with every read, check and write a step of its own and any overlap: as long as each insert lands free in that sense, no two ever-confirmed budgets hold a common live key |
| Races.ClearLandsFree | src/application/service/budget_workflow_service.rs:548-573 | inserts land free whenever no add_line is in progress on a budget whose confirm has read its lines |
| Races.ConfirmRestoresExclusivity | src/application/service/budget_workflow_service.rs:695-700 | exclusivity of ever-confirmed budgets from any state with nothing in progress, if no add_line overlaps a confirm of its own budget; every other overlap is allowed |
| Races.NewlySealed | src/application/service/budget_workflow_service.rs:253-278 | a key comes to be sealed during confirm only by a check that found it free of every other budget |
| Overlaps.OverlapsFreeze | src/application/service/budget_workflow_service.rs:462-657 | between any two moments of any interleaving in which compare-and-sets win with no line verb, and closes and cancels with no enforcement patch, in progress on their budget: out of draft, identity, dates and lines stay; closed or cancelled, the whole header stays |
| Overlaps.SettledTracesKeepArmed | src/application/service/budget_workflow_service.rs:680-701 | in every interleaving with no line verb in progress on a budget whose confirm has read its lines, every ever-confirmed budget keeps at least one live line, all with positive amounts |
| Overlaps.SteadyTracesKeepFitting | src/application/service/budget_workflow_service.rs:680-701 | with periods unchanged and no header patch during a confirm of its budget either, every live line of an ever-confirmed budget stays inside its header's year and dates |
| Overlaps.SerialTracesKeepAll | src/application/service/budget_workflow_service.rs:386-795 | with no two verbs on one budget at a time, all of it from any state with nothing in progress: freeze, armed budgets, exclusivity |
| RaceWitnesses.RacingDraftsShareAKey | src/application/service/budget_workflow_service.rs:562-571 | two raced add_lines leave two drafts on one key, although both checked |
| RaceWitnesses.OverlapOnOneBudgetBreaksExclusivity | src/application/service/budget_workflow_service.rs:548-573 | an add_line overlapping its own budget's confirm breaks exclusivity, so the condition is needed |
| RaceWitnesses.LateDeleteBreaksFreeze | src/application/service/budget_workflow_service.rs:623-657 | a delete_line overtaken by its budget's confirm takes the only line of a confirmed budget, against the freeze and the rule that it has lines |
| RaceWitnesses.LatePatchBreaksFreeze | src/application/service/budget_workflow_service.rs:481-505 | an enforcement patch overtaken by a close changes a closed budget |
| RaceWitnesses.LatePatchBreaksPeriods | src/application/service/budget_workflow_service.rs:512-540 | a header patch that lands between a confirm's checks and its compare-and-set leaves a confirmed line outside the header's dates |
| RaceWitnesses.LostConfirmIsInternal | src/application/service/budget_workflow_service.rs:703-721 | two confirms of one budget after which the loser's compare-and-set answers the internal error |
| Lifecycle.LifecycleLinearizable | src/application/service/budget_workflow_service.rs:703-795 | in every interleaving of all verbs, the compare-and-sets of the winners, replayed in commit order, give every status, each allowed from exactly what it observed, one winner per observed status, at most two changes per budget |
| Lifecycle.LosersWriteNothing | src/application/service/budget_workflow_service.rs:703-791 | a lifecycle step that does not win writes nothing; a compare-and-set loses iff the status read is no longer there; close and cancel then answer the conflict with that status, confirm the internal error |
| Lifecycle.LosersLostToAWinner | src/application/service/budget_workflow_service.rs:751-791 | in every interleaving a compare-and-set is lost only to another verb that already won from the very status the loser had read |
| Lifecycle.LifecycleReplays | src/application/service/budget_workflow_service.rs:751-795 | when only lifecycle verbs run and masters change at will, the tables are exactly those of the winners' compare-and-sets one after another |
| LifecycleVerbs.LifecycleVerbsLinearizable | src/application/service/budget_workflow_service.rs:659-795 | when only lifecycle verbs run on masters that stay, the tables are exactly those of the winners run as atomic verbs in commit order, and each of them, confirm with its whole guard matrix, succeeds at its place |
| LifecycleVerbs.WinIsTheVerb | src/application/service/budget_workflow_service.rs:680-721 | where a compare-and-set wins, the atomic verb succeeds on the same tables and leaves the same |
| Lifecycle.AtomicStatusIsTheVerbs | src/application/service/budget_workflow_service.rs:659-795 | close and cancel succeed iff the status is allowed, confirm iff its guard matrix holds too; a success makes the replayed status step and a confirm refused by its guards changes nothing |
| Lifecycle.RankNeverFalls | src/application/service/budget_workflow_service.rs:17-20 | no sequence of verbs brings a budget back to an earlier status |
| SoloRuns.SoloIsAtomic | src/application/service/budget_workflow_service.rs:386-795 | a verb whose steps nothing interrupts ends in an answer of its atomic form: the same tables, or the same error |
| StepsOnRows.GuardsAsk | src/application/service/budget_workflow_service.rs:213-278 | what one guard step answers, told on the master rows and tables of that moment and the header the verb has read |
| StepsOnRows.ConfirmChecks | src/application/service/budget_workflow_service.rs:680-701 | what one guard step of a confirm answers and where it goes on, told on the header and rows it has read |
| StepsOnRows.AddChecks | src/application/service/budget_workflow_service.rs:548-573 | what one guard step of an add_line answers and where it goes on |
| StepsOnRows.PeriodIsReadAgain | src/application/service/budget_workflow_service.rs:313-320 | the period an insert mints from is that of its own moment, not of the check |
| StepsOnRows.UpdateLands | src/application/service/budget_workflow_service.rs:589-615 | update_line's write in the step model: lands on a live line of the budget whatever the budget's status has become |
| StepsOnRows.DeleteLands | src/application/service/budget_workflow_service.rs:635-654 | the same for delete_line |
| StepsOnRows.InsertLands | src/application/service/budget_workflow_service.rs:305-345 | add_line's insert in the step model: the row its period said, whatever the budget has become |
| StepsOnRows.PostureLands | src/application/service/budget_workflow_service.rs:483-501 | the enforcement write lands on any live budget and changes nothing else |
| StepsOnRows.HeaderLands | src/application/service/budget_workflow_service.rs:512-540 | the header write lands on a live draft; an absent date goes back to what the verb read, an absent name or description keeps what is stored |
| StepsOnRows.CreateLands | src/application/service/budget_workflow_service.rs:427-454 | a create commits its header as asked and its own rows, unless a primary key was taken |
| StepsOnRows.CrossedPatchRestoresDate | src/application/service/budget_workflow_service.rs:510-540 | two crossed header patches: the one that asks for no date restores the date the other had changed |

## Left out

- HTTP handlers, DTOs, routers and the tables of error codes: plumbing around the two services.
- Generic CRUD services and repositories: they rest on crates that are not part of this model and bypass the guarded verbs; runs here use the guarded verbs only.
- Tenancy scope, row-level fences, the composing service's unique indexes and the mapping of their violations: they live outside this module.
- Audit timestamps and actors, events, logging, seeders: no property depends on them; of the metadata only the soft-delete flag is kept.
- The codes inside an error message and the text of `Internal`: one error value stands for each variant.
- Overflow of decimals and 32-bit integers, and the rounding of the utilization quotient to the decimal type's precision: amounts and quotients are exact.
- The accounting module's own posting path: a committed posting is the appended ledger rows, and rejection of unknown accounts is a condition on the run.
- The scan order of tables: control reports its breaches in the order the positions were fetched, and any order of fetching is allowed.
- Snapshots inside one evaluation: the queries of an evaluation or a report all see the same tables, as the service's comments intend; the interleaved model covers the write verbs.
- In the interleaved model a write and its commit are one step; the rows a create has inserted are seen by itself alone until it commits, and a primary key taken by another verb in between is answered at the commit.
