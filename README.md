# TravelPerk Pro core, modelled in Dafny

TravelPerk Pro is a single-page corporate travel demo written in React. This project models its stateful core:

- the ManageWorkflow stepper and the OptimizeBudgets panel of the Manage and Optimize tabs;
- the approval workflow widget, with its delayed, single-flight decisions;
- the budget tracker, with its derived fields, status bands, edit box and confetti edge;
- the trip manager list;
- the booking-form price estimate;
- the drag-and-drop trip planning board;
- the testimonial carousel;
- the user-role hook.

Each component is one module. Handlers that replace component state are methods of a class whose fields are that state. Each method is specified by a pure function of the old state, and the properties the code promises are proved about those functions. Modules `Rounding`, `Text`, `Folds` and `Options` hold what the components share:

- `Math.round` of a percentage as integer arithmetic;
- `trim`, `toString` and integer `parseFloat`;
- `reduce`, `filter` and `map` over a list;
- an option type.

Where the code differs from what the components' own comments or on-screen labels suggest, the model follows the code:

- The trip manager's form accepts any cost, including zero and negative ones (TripManager.NegativeCostBreaksBound).
- In the approval widget, approving Manager and then Finance leaves Confirmation pending; it completes only when it is approved itself (ApprovalWorkflow.ManagerThenFinance).
- The initial record of the approval widget makes no step current, so its Approve and Reject buttons are never shown (ApprovalWorkflow.ClicksNeverMove).
- The role check of the approval widget exists only in what is rendered; the handlers take no role.
- A second decision while one is in flight is dropped, not queued.
- The OptimizeBudgets form checks the untrimmed title, so a title of blanks is stored empty.

## Model

| member | source | states |
|---|---|---|
| Rounding.RoundPercent | Downloads/travelperkpro-main/travelperkpro-main/src/components/features/BudgetTracker.tsx:61 | the result is the integer nearest to 100·part/whole with halves rounded up, i.e. `Math.round(part / whole * 100)` for a positive whole |
| Rounding.RoundPercentUnique | Downloads/travelperkpro-main/travelperkpro-main/src/components/features/BudgetTracker.tsx:74 | any integer within half a unit of 100·part/whole is the rounded percentage |
| Rounding.RoundPercentAtLeast | Downloads/travelperkpro-main/travelperkpro-main/src/components/features/BudgetTracker.tsx:97-101 | the rounded percentage is at least k exactly when 200·part ≥ (2k−1)·whole, which turns every percentage threshold into a condition on the amounts |
| Rounding.RoundPercentMonotone | Downloads/travelperkpro-main/travelperkpro-main/src/components/features/BudgetTracker.tsx:72-74 | more spending against the same total never lowers the rounded percentage |
| Text.Trim | Downloads/travelperkpro-main/travelperkpro-main/src/components/features/ManageOptimize.tsx:195 | `String.prototype.trim`: the result is the slice of the title left once white space is cut from both ends, so it neither starts nor ends with white space; a trimmed title stays as it is, and a title of blanks becomes empty |
| Text.DecimalString | Downloads/travelperkpro-main/travelperkpro-main/src/components/features/BudgetTracker.tsx:55 | `toString` of a whole number: a non-empty run of digits with no leading zero |
| Text.ParseNumber | Downloads/travelperkpro-main/travelperkpro-main/src/components/features/BudgetTracker.tsx:85 | `parseFloat` on integer text: a result exists only if the text holds a digit |
| Text.ParseNumberDefined | Downloads/travelperkpro-main/travelperkpro-main/src/components/features/BudgetTracker.tsx:85 | `parseFloat` gives a number exactly when a digit follows the leading white space and at most one sign, and NaN otherwise |
| Text.ParseNumberValue | Downloads/travelperkpro-main/travelperkpro-main/src/components/features/BudgetTracker.tsx:85 | white space, an optional sign, a run of digits and a rest that does not continue the run read as the run's value, negated after `-` |
| Text.ParseDecimalString | Downloads/travelperkpro-main/travelperkpro-main/src/components/features/BudgetTracker.tsx:92-95 | the text `toString` writes for a total reads back as that total, so a cancelled edit leaves text that saves as the same total |
| Folds.Without | Downloads/travelperkpro-main/travelperkpro-main/src/components/features/TripManager.tsx:104 | `filter(x => key(x) !== k)` is never longer than its input |
| Folds.WithoutMembers | Downloads/travelperkpro-main/travelperkpro-main/src/components/features/TripManager.tsx:104 | every element the filter keeps comes from the input and has another key, and every input element with another key is kept |
| Folds.WithoutNoMatch | Downloads/travelperkpro-main/travelperkpro-main/src/components/features/TripManager.tsx:104 | with no element of key k the filter returns its input unchanged |
| Folds.Only | Downloads/travelperkpro-main/travelperkpro-main/src/components/features/TripManager.tsx:114 | `filter(x => key(x) === k)`: it keeps exactly the elements with key k |
| Folds.Update | Downloads/travelperkpro-main/travelperkpro-main/src/components/features/TripManager.tsx:108-110 | `map` rewriting the elements with key k: same length, element i rewritten exactly when its key is k |
| ManageWorkflow.Step | Downloads/travelperkpro-main/travelperkpro-main/src/components/features/ManageOptimize.tsx:66-71 | Approve advances one stage and stays on Confirmation; Reject and Reset go back to the first stage; the index stays in 0..3 |
| ManageWorkflow.Run | Downloads/travelperkpro-main/travelperkpro-main/src/components/features/ManageOptimize.tsx:62-71 | from any stage, any sequence of presses keeps the index in 0..3 |
| ManageWorkflow.Percent | Downloads/travelperkpro-main/travelperkpro-main/src/components/features/ManageOptimize.tsx:63 | the bar is 0, 33, 67 or 100; 0 exactly at the first stage and 100 exactly at Confirmation |
| ManageWorkflow.PercentMonotone | Downloads/travelperkpro-main/travelperkpro-main/src/components/features/ManageOptimize.tsx:63 | a later stage never shows a shorter bar |
| ManageWorkflow.BadgesShape | Downloads/travelperkpro-main/travelperkpro-main/src/components/features/ManageOptimize.tsx:108-109 | the badges read Approved for every earlier stage, Current for exactly one stage, then Pending |
| ManageWorkflow.BadgeAt | Downloads/travelperkpro-main/travelperkpro-main/src/components/features/ManageOptimize.tsx:109 | the badge of step i: Approved before the index, Current at it, Pending after it |
| ManageWorkflow.Badges | Downloads/travelperkpro-main/travelperkpro-main/src/components/features/ManageOptimize.tsx:108-109 | one badge per workflow step; BadgesShape states the Approved run, single Current and Pending run |
| ManageWorkflow.Approvals | Downloads/travelperkpro-main/travelperkpro-main/src/components/features/ManageOptimize.tsx:66 | k presses of Approve |
| ManageWorkflow.ApprovalsReach | Downloads/travelperkpro-main/travelperkpro-main/src/components/features/ManageOptimize.tsx:62-66 | from the first stage, k approvals reach stage min(k, 3), so three reach Confirmation |
| ManageWorkflow.RunAfterRestart | Downloads/travelperkpro-main/travelperkpro-main/src/components/features/ManageOptimize.tsx:66-71 | after a Reject or Reset the stage depends only on the presses that follow it |
| ManageWorkflow.OffersDecisions | Downloads/travelperkpro-main/travelperkpro-main/src/components/features/ManageOptimize.tsx:132 | the Approve and Reject buttons are rendered only for the role "Manager" |
| ManageWorkflow.Offered | Downloads/travelperkpro-main/travelperkpro-main/src/components/features/ManageOptimize.tsx:132-165 | Reset is offered to every role, Approve and Reject only to a manager |
| ManageWorkflow.OthersOnlyReset | Downloads/travelperkpro-main/travelperkpro-main/src/components/features/ManageOptimize.tsx:132-165 | for any role but "Manager", every sequence of offered presses leaves the index at 0, or unchanged when empty |
| ManageWorkflow.Stepper.constructor | Downloads/travelperkpro-main/travelperkpro-main/src/components/features/ManageOptimize.tsx:61-62 | the stepper starts at the first stage and keeps the `role` prop |
| ManageWorkflow.Stepper.HandleApprove | Downloads/travelperkpro-main/travelperkpro-main/src/components/features/ManageOptimize.tsx:66 | reachable only for a manager, whose button it is; `stepIndex` becomes `Step(old, Approve)` and stays in range |
| ManageWorkflow.Stepper.HandleReject | Downloads/travelperkpro-main/travelperkpro-main/src/components/features/ManageOptimize.tsx:67 | reachable only for a manager, whose button it is; `stepIndex` becomes 0 |
| ManageWorkflow.Stepper.HandleReset | Downloads/travelperkpro-main/travelperkpro-main/src/components/features/ManageOptimize.tsx:68-71 | `stepIndex` becomes 0 |
| OptimizeBudgets.Remaining | Downloads/travelperkpro-main/travelperkpro-main/src/components/features/ManageOptimize.tsx:187 | remaining is never negative: budget − spent while spending is within the budget, else 0 |
| OptimizeBudgets.Spent | Downloads/travelperkpro-main/travelperkpro-main/src/components/features/ManageOptimize.tsx:186 | the sum of the trip costs; SpentAfterAdd, DeleteEffect and RetitleKeepsCosts state how each list operation changes it |
| OptimizeBudgets.UsagePercent | Downloads/travelperkpro-main/travelperkpro-main/src/components/features/ManageOptimize.tsx:188 | the integer nearest to 100·spent/max(1, budget), halves rounded up, for every budget including zero and negative ones |
| OptimizeBudgets.SuggestionsFor | Downloads/travelperkpro-main/travelperkpro-main/src/components/features/ManageOptimize.tsx:228 | the high-spend pool from 80 percent on, the low-spend pool below; HighSpendThreshold turns the cut into an exact condition on spent and budget |
| OptimizeBudgets.WithoutTrip | Downloads/travelperkpro-main/travelperkpro-main/src/components/features/ManageOptimize.tsx:207 | the delete filter by id; DeleteEffect, DeleteKeepsOrder and DeleteAbsent state what it removes and keeps |
| OptimizeBudgets.Retitled | Downloads/travelperkpro-main/travelperkpro-main/src/components/features/ManageOptimize.tsx:338 | the `map` that gives the matching id the new title; RetitleKeepsCosts states it position by position |
| OptimizeBudgets.Accepts | Downloads/travelperkpro-main/travelperkpro-main/src/components/features/ManageOptimize.tsx:192 | the add guard: a non-empty title and a cost above zero; BlankTitleStoredEmpty shows that blanks pass it |
| OptimizeBudgets.HighSpendThreshold | Downloads/travelperkpro-main/travelperkpro-main/src/components/features/ManageOptimize.tsx:228 | the high-spend suggestions show exactly when 200·spent ≥ 159·budget, that is from 79.5% of the budget because the percentage is rounded first |
| OptimizeBudgets.SpentAfterAdd | Downloads/travelperkpro-main/travelperkpro-main/src/components/features/ManageOptimize.tsx:193-201 | an added trip raises the spending by exactly its cost |
| OptimizeBudgets.DeleteEffect | Downloads/travelperkpro-main/travelperkpro-main/src/components/features/ManageOptimize.tsx:206-210 | deleting an id leaves no trip with that id, keeps every other trip, and lowers the spending by the costs of the removed trips |
| OptimizeBudgets.DeleteKeepsOrder | Downloads/travelperkpro-main/travelperkpro-main/src/components/features/ManageOptimize.tsx:207 | deleting distributes over any split of the list, so the remaining trips keep their order |
| OptimizeBudgets.DeleteAbsent | Downloads/travelperkpro-main/travelperkpro-main/src/components/features/ManageOptimize.tsx:207 | deleting an id no trip has leaves the list unchanged |
| OptimizeBudgets.RetitleKeepsCosts | Downloads/travelperkpro-main/travelperkpro-main/src/components/features/ManageOptimize.tsx:336-341 | a title edit keeps the length, ids, costs and dates, retitles exactly the trips with that id, and keeps the spending |
| OptimizeBudgets.BlankTitleStoredEmpty | Downloads/travelperkpro-main/travelperkpro-main/src/components/features/ManageOptimize.tsx:192-195 | the form check runs on the untrimmed title, so a title of blanks passes and is stored empty |
| OptimizeBudgets.Panel.constructor | Downloads/travelperkpro-main/travelperkpro-main/src/components/features/ManageOptimize.tsx:180-184 | the budget starts at 150000 with the single seed trip of cost 7000 |
| OptimizeBudgets.Panel.AddTrip | Downloads/travelperkpro-main/travelperkpro-main/src/components/features/ManageOptimize.tsx:190-204 | with a title and a cost above zero, the trip (title trimmed) is appended; otherwise nothing changes; the budget never changes |
| OptimizeBudgets.Panel.DeleteTrip | Downloads/travelperkpro-main/travelperkpro-main/src/components/features/ManageOptimize.tsx:206-210 | the list becomes the filtered list and the budget is kept |
| OptimizeBudgets.Panel.EditTitle | Downloads/travelperkpro-main/travelperkpro-main/src/components/features/ManageOptimize.tsx:334-342 | a non-empty answer retitles the trips with that id; a dismissed or empty answer changes nothing |
| OptimizeBudgets.Panel.UpdateBudget | Downloads/travelperkpro-main/travelperkpro-main/src/components/features/ManageOptimize.tsx:212-216 | a number above zero becomes the budget; NaN or a non-positive number changes nothing; the trips are kept |
| ApprovalWorkflow.IndexOf | Downloads/travelperkpro-main/travelperkpro-main/src/components/features/ApprovalWorkflow.tsx:85 | the position of a step in the table of steps |
| ApprovalWorkflow.Initial | Downloads/travelperkpro-main/travelperkpro-main/src/components/features/ApprovalWorkflow.tsx:60-69 | the initial and reset record: Request completed, the other steps pending, progress 25, and the record is consistent |
| ApprovalWorkflow.ApproveStep | Downloads/travelperkpro-main/travelperkpro-main/src/components/features/ApprovalWorkflow.tsx:81-104 | approving a step marks it approved and moves the current step to the next one with progress 25·(i+2); approving Confirmation completes it with progress 100 and keeps the current step; other steps are untouched and consistency is kept |
| ApprovalWorkflow.RejectStep | Downloads/travelperkpro-main/travelperkpro-main/src/components/features/ApprovalWorkflow.tsx:116-122 | rejecting marks only that step rejected and keeps the current step and the progress |
| ApprovalWorkflow.GetStepStatus | Downloads/travelperkpro-main/travelperkpro-main/src/components/features/ApprovalWorkflow.tsx:140-148 | completed exactly for completed or approved steps, rejected exactly for rejected steps, current exactly for the pending current step, otherwise pending |
| ApprovalWorkflow.CanApproveExactly | Downloads/travelperkpro-main/travelperkpro-main/src/components/features/ApprovalWorkflow.tsx:150-154 | only a manager can act on the manager step and only finance on the finance step; an admin can act on no step |
| ApprovalWorkflow.CanApprove | Downloads/travelperkpro-main/travelperkpro-main/src/components/features/ApprovalWorkflow.tsx:150-154 | the role gate per step; CanApproveExactly states the two admitted (step, role) pairs |
| ApprovalWorkflow.ShowActions | Downloads/travelperkpro-main/travelperkpro-main/src/components/features/ApprovalWorkflow.tsx:182-185 | the buttons show for the current step, an admitted role and no running animation; InitialOffersNoActions and AfterClicks use it |
| ApprovalWorkflow.AtMostOneCurrent | Downloads/travelperkpro-main/travelperkpro-main/src/components/features/ApprovalWorkflow.tsx:140-148 | at most one step is reported current, so at most one step offers its buttons |
| ApprovalWorkflow.InitialOffersNoActions | Downloads/travelperkpro-main/travelperkpro-main/src/components/features/ApprovalWorkflow.tsx:185 | in the initial record no step is current (Request is completed and is the current step), so no user sees Approve or Reject |
| ApprovalWorkflow.AfterClicks | Downloads/travelperkpro-main/travelperkpro-main/src/components/features/ApprovalWorkflow.tsx:265-314 | a run of button presses, where a press counts only if the buttons are shown; the record stays complete |
| ApprovalWorkflow.ClicksNeverMove | Downloads/travelperkpro-main/travelperkpro-main/src/components/features/ApprovalWorkflow.tsx:180-185 | from the initial record, no sequence of presses by any user changes the record: the workflow cannot advance through its own buttons |
| ApprovalWorkflow.ManagerThenFinance | Downloads/travelperkpro-main/travelperkpro-main/src/components/features/ApprovalWorkflow.tsx:81-104 | approving Manager then Finance gives current step Finance with 75, then Confirmed with 100, but Confirmation stays pending and shown as current until it is approved itself |
| ApprovalWorkflow.Apply | Downloads/travelperkpro-main/travelperkpro-main/src/components/features/ApprovalWorkflow.tsx:73-125 | a settled decision keeps the record complete and consistent |
| ApprovalWorkflow.Widget.constructor | Downloads/travelperkpro-main/travelperkpro-main/src/components/features/ApprovalWorkflow.tsx:60-71 | the widget starts with the initial record and no decision in flight |
| ApprovalWorkflow.Widget.HandleApprove | Downloads/travelperkpro-main/travelperkpro-main/src/components/features/ApprovalWorkflow.tsx:73-79 | starts a decision only when none is in flight, and reports whether it did; the record is unchanged until the decision settles |
| ApprovalWorkflow.Widget.HandleReject | Downloads/travelperkpro-main/travelperkpro-main/src/components/features/ApprovalWorkflow.tsx:109-114 | as for approve, with a reject decision |
| ApprovalWorkflow.Widget.Settle | Downloads/travelperkpro-main/travelperkpro-main/src/components/features/ApprovalWorkflow.tsx:81-106 | the in-flight decision is applied and the flag cleared |
| ApprovalWorkflow.Widget.ResetWorkflow | Downloads/travelperkpro-main/travelperkpro-main/src/components/features/ApprovalWorkflow.tsx:127-138 | the record returns to the initial one; the flag and a decision in flight are kept |
| BudgetTracker.Seed | Downloads/travelperkpro-main/travelperkpro-main/src/components/features/BudgetTracker.tsx:47-52 | the seed record (120000 total, 68000 spent) is consistent: remaining 52000 and 57% |
| BudgetTracker.WithTotal | Downloads/travelperkpro-main/travelperkpro-main/src/components/features/BudgetTracker.tsx:59-69 | a new total keeps the spending and recomputes remaining and percentage consistently |
| BudgetTracker.WithExpense | Downloads/travelperkpro-main/travelperkpro-main/src/components/features/BudgetTracker.tsx:71-82 | an expense adds to the spending, keeps the total and recomputes remaining and percentage consistently |
| BudgetTracker.GetBudgetStatus | Downloads/travelperkpro-main/travelperkpro-main/src/components/features/BudgetTracker.tsx:97-101 | over exactly from 90%, warning exactly from 75% below 90%, under below 75% |
| BudgetTracker.Consistent | Downloads/travelperkpro-main/travelperkpro-main/src/components/features/BudgetTracker.tsx:59-82 | the record invariant both updates re-establish: positive total, remaining = total − spent, percentage = the rounded share; WithTotal and WithExpense ensure it |
| BudgetTracker.Celebrates | Downloads/travelperkpro-main/travelperkpro-main/src/components/features/BudgetTracker.tsx:121-127 | the confetti edge: a warning status followed by under budget; ExpenseNeverCelebrates and WarningThenRaiseCelebrates are about it |
| BudgetTracker.StatusByAmounts | Downloads/travelperkpro-main/travelperkpro-main/src/components/features/BudgetTracker.tsx:97-101 | the three bands in terms of the amounts: over from 89.5% spent, warning from 74.5% |
| BudgetTracker.RaiseKeepsSpending | Downloads/travelperkpro-main/travelperkpro-main/src/components/features/BudgetTracker.tsx:258 | the +20000 button raises the total by 20000, keeps the spending and keeps the record consistent |
| BudgetTracker.AfterExpenses | Downloads/travelperkpro-main/travelperkpro-main/src/components/features/BudgetTracker.tsx:71-82 | a run of expenses keeps the total |
| BudgetTracker.SpentAfterExpenses | Downloads/travelperkpro-main/travelperkpro-main/src/components/features/BudgetTracker.tsx:71-82 | after a run of expenses the spending is the old spending plus their sum, and the record stays consistent |
| BudgetTracker.ExpenseOrderIrrelevant | Downloads/travelperkpro-main/travelperkpro-main/src/components/features/BudgetTracker.tsx:71-82 | the same expenses in any order give the same record |
| BudgetTracker.ExpenseNeverCelebrates | Downloads/travelperkpro-main/travelperkpro-main/src/components/features/BudgetTracker.tsx:121-127 | a non-negative expense never sets off the confetti |
| BudgetTracker.WarningThenRaiseCelebrates | Downloads/travelperkpro-main/travelperkpro-main/src/components/features/BudgetTracker.tsx:243-258 | from the seed, the 25000 expense reaches the warning band at 78% and the 20000 raise brings it under at 66%, which sets off the confetti |
| BudgetTracker.Tracker.constructor | Downloads/travelperkpro-main/travelperkpro-main/src/components/features/BudgetTracker.tsx:47-57 | the seed record, the edit box closed with the total as text, no confetti |
| BudgetTracker.Tracker.StatusEffect | Downloads/travelperkpro-main/travelperkpro-main/src/components/features/BudgetTracker.tsx:121-127 | raises the confetti exactly on a warning-to-under change and records the current status |
| BudgetTracker.Tracker.UpdateBudget | Downloads/travelperkpro-main/travelperkpro-main/src/components/features/BudgetTracker.tsx:59-69 | the record becomes `WithTotal`; confetti as the effect decides |
| BudgetTracker.Tracker.AddExpense | Downloads/travelperkpro-main/travelperkpro-main/src/components/features/BudgetTracker.tsx:71-82 | the record becomes `WithExpense`; confetti as the effect decides |
| BudgetTracker.Tracker.RaiseBudget | Downloads/travelperkpro-main/travelperkpro-main/src/components/features/BudgetTracker.tsx:258 | the record becomes the old one with the total raised by 20000 |
| BudgetTracker.Tracker.StartEditing | Downloads/travelperkpro-main/travelperkpro-main/src/components/features/BudgetTracker.tsx:164 | opens the edit box and changes nothing else |
| BudgetTracker.Tracker.ChangeEditValue | Downloads/travelperkpro-main/travelperkpro-main/src/components/features/BudgetTracker.tsx:182 | the edit box holds the typed text |
| BudgetTracker.Tracker.SaveBudget | Downloads/travelperkpro-main/travelperkpro-main/src/components/features/BudgetTracker.tsx:84-90 | a parsed number above zero becomes the total and closes the box; anything else changes nothing |
| BudgetTracker.Tracker.CancelEdit | Downloads/travelperkpro-main/travelperkpro-main/src/components/features/BudgetTracker.tsx:92-95 | the box text becomes the current total, which parses back to it, and the box closes |
| BudgetTracker.Tracker.ConfettiComplete | Downloads/travelperkpro-main/travelperkpro-main/src/components/features/BudgetTracker.tsx:131-134 | the confetti flag is cleared |
| TripManager.WithStatus | Downloads/travelperkpro-main/travelperkpro-main/src/components/features/TripManager.tsx:107-111 | `map` setting the status of the trips with that id |
| TripManager.NewTrip | Downloads/travelperkpro-main/travelperkpro-main/src/components/features/TripManager.tsx:88-96 | a new trip is planned, keeps the given id and cost, and takes "Business Travel" when the purpose is empty |
| TripManager.Accepts | Downloads/travelperkpro-main/travelperkpro-main/src/components/features/TripManager.tsx:86 | the form needs a destination, a cost and a date; no bound on the cost |
| TripManager.BookedAtMostTotal | Downloads/travelperkpro-main/travelperkpro-main/src/components/features/TripManager.tsx:113-114 | with no negative cost, the booked cost lies between 0 and the total |
| TripManager.TotalCost | Downloads/travelperkpro-main/travelperkpro-main/src/components/features/TripManager.tsx:113 | the sum of all costs; InitialTotals, TotalAfterAdd, DeleteEffect and StatusChangeKeepsTotal are about it |
| TripManager.BookedCost | Downloads/travelperkpro-main/travelperkpro-main/src/components/features/TripManager.tsx:114 | the sum over booked trips; BookedAtMostTotal bounds it by the total |
| TripManager.NegativeCostBreaksBound | Downloads/travelperkpro-main/travelperkpro-main/src/components/features/TripManager.tsx:86-92 | a negative cost passes the form, and then the total (6500) falls below the booked cost (14500) |
| TripManager.InitialTotals | Downloads/travelperkpro-main/travelperkpro-main/src/components/features/TripManager.tsx:29-57 | the seed list totals 26500, of which 14500 is booked |
| TripManager.TotalAfterAdd | Downloads/travelperkpro-main/travelperkpro-main/src/components/features/TripManager.tsx:98 | adding a trip raises the total by its cost |
| TripManager.DeleteEffect | Downloads/travelperkpro-main/travelperkpro-main/src/components/features/TripManager.tsx:103-105 | deleting an id leaves no trip with it, keeps every other trip and lowers the total by the removed costs |
| Folds.WithoutAppend | Downloads/travelperkpro-main/travelperkpro-main/src/components/features/TripManager.tsx:104 | the delete filter distributes over any split of the list, so the trips that stay keep their order |
| TripManager.StatusChangeKeepsTotal | Downloads/travelperkpro-main/travelperkpro-main/src/components/features/TripManager.tsx:107-111 | a status change, between any two statuses, rewrites only the status of the matching trips and keeps the total |
| TripManager.AddThenDelete | Downloads/travelperkpro-main/travelperkpro-main/src/components/features/TripManager.tsx:85-105 | adding an 8500 trip to an empty list gives 8500; deleting it leaves an empty list |
| TripManager.Manager.constructor | Downloads/travelperkpro-main/travelperkpro-main/src/components/features/TripManager.tsx:74 | the widget starts with the three seed trips |
| TripManager.Manager.AddTrip | Downloads/travelperkpro-main/travelperkpro-main/src/components/features/TripManager.tsx:85-101 | an accepted form appends `NewTrip`; otherwise the list is unchanged |
| TripManager.Manager.DeleteTrip | Downloads/travelperkpro-main/travelperkpro-main/src/components/features/TripManager.tsx:103-105 | the list becomes the filtered list |
| TripManager.Manager.UpdateTripStatus | Downloads/travelperkpro-main/travelperkpro-main/src/components/features/TripManager.tsx:107-111 | the list becomes the status-updated list |
| BookingForm.NightsBetween | Downloads/travelperkpro-main/travelperkpro-main/src/components/booking/BookingForm.tsx:30-34 | 0 without both dates or for a non-positive span; otherwise the smallest n with span ≤ n days |
| BookingForm.ChargedNights | Downloads/travelperkpro-main/travelperkpro-main/src/components/booking/BookingForm.tsx:37 | at least one night is charged, and exactly the nights between when there are any |
| BookingForm.Rate | Downloads/travelperkpro-main/travelperkpro-main/src/components/booking/BookingForm.tsx:38-47 | the per-night rates 200, 80, 150 and 70 are positive |
| BookingForm.PartySize | Downloads/travelperkpro-main/travelperkpro-main/src/components/booking/BookingForm.tsx:40-46 | a missing or zero field counts as one, any other value as itself |
| BookingForm.SchemaValid | Downloads/travelperkpro-main/travelperkpro-main/src/components/booking/BookingForm.tsx:23-28 | what the schema guarantees: both dates and a party size of at least 1 |
| BookingForm.EstimatePrice | Downloads/travelperkpro-main/travelperkpro-main/src/components/booking/BookingForm.tsx:36-48 | the four per-mode formulas: 200, 80, 150 or 70 times the party field (or 1) times the charged nights |
| BookingForm.EstimatePositive | Downloads/travelperkpro-main/travelperkpro-main/src/components/booking/BookingForm.tsx:36-48 | with no negative party size the estimate is at least the rate of the mode, so positive |
| BookingForm.SchemaValidEstimatePositive | Downloads/travelperkpro-main/travelperkpro-main/src/components/booking/BookingForm.tsx:23-48 | every form the schema accepts gets a positive estimate |
| BookingForm.NightsMonotone | Downloads/travelperkpro-main/travelperkpro-main/src/components/booking/BookingForm.tsx:30-34 | a later return date never gives fewer nights |
| BookingForm.EstimateMonotone | Downloads/travelperkpro-main/travelperkpro-main/src/components/booking/BookingForm.tsx:36-48 | a later return date never lowers the estimate |
| BookingForm.HotelExample | Downloads/travelperkpro-main/travelperkpro-main/src/components/booking/BookingForm.tsx:43-44 | two rooms over three days are estimated at 900 |
| BookingForm.MissingDatesChargeOneNight | Downloads/travelperkpro-main/travelperkpro-main/src/components/booking/BookingForm.tsx:37-40 | without dates one night is charged: two passengers fly for 400 |
| TripPlanner.FilterColumn | Downloads/travelperkpro-main/travelperkpro-main/src/components/sections/TripPlanner.tsx:51-54 | the filter of one column keeps exactly `Without(column)` and leaves in `moved` the last card with the id, or its earlier value |
| TripPlanner.Move | Downloads/travelperkpro-main/travelperkpro-main/src/components/sections/TripPlanner.tsx:47-57 | the board built column by column equals `Moved`: every column filtered, then the last matching card appended to the target |
| TripPlanner.LastMatchNone | Downloads/travelperkpro-main/travelperkpro-main/src/components/sections/TripPlanner.tsx:48-52 | with no card of that id, `moved` keeps its earlier value |
| TripPlanner.LastMatch | Downloads/travelperkpro-main/travelperkpro-main/src/components/sections/TripPlanner.tsx:50-54 | the card the filter callbacks leave in `moved`; LastMatchNone and LastMatchIsLastIndex state it is the last card with the id, or the earlier value |
| TripPlanner.Moved | Downloads/travelperkpro-main/travelperkpro-main/src/components/sections/TripPlanner.tsx:47-57 | the board after `move(id, to)`; Move is proved equal to it, and MoveClears, MoveAbsent, MoveLastCopy, MoveUnique and MovePermutes are about it |
| TripPlanner.LastIndex | Downloads/travelperkpro-main/travelperkpro-main/src/components/sections/TripPlanner.tsx:50-54 | the position of the last card with the id in visiting order, or -1: the card there has the id and no later card does |
| TripPlanner.LastMatchIsLastIndex | Downloads/travelperkpro-main/travelperkpro-main/src/components/sections/TripPlanner.tsx:48-54 | `moved` ends as the card at that last position, or keeps its earlier value when there is none |
| TripPlanner.LastMatchFound | Downloads/travelperkpro-main/travelperkpro-main/src/components/sections/TripPlanner.tsx:50-54 | with a card of that id at position k, the last position is at or after k and `moved` ends as the card there |
| TripPlanner.MoveClears | Downloads/travelperkpro-main/travelperkpro-main/src/components/sections/TripPlanner.tsx:47-57 | after a move no column but the target holds the id, and in the target only the last card can |
| TripPlanner.MoveAbsent | Downloads/travelperkpro-main/travelperkpro-main/src/components/sections/TripPlanner.tsx:50-56 | an id on no card leaves the board as it was |
| TripPlanner.MoveLastCopy | Downloads/travelperkpro-main/travelperkpro-main/src/components/sections/TripPlanner.tsx:50-56 | with copies of an id, all are removed; the target ends with the copy at the last position in ideas, scheduled, completed order; the other columns are just filtered |
| TripPlanner.MoveUnique | Downloads/travelperkpro-main/travelperkpro-main/src/components/sections/TripPlanner.tsx:51-56 | with unique ids, the moved card leaves its column, every other card keeps its column and order, and the card is appended to the target, at the end of its own column when it is dropped there |
| TripPlanner.MovePermutes | Downloads/travelperkpro-main/travelperkpro-main/src/components/sections/TripPlanner.tsx:50-56 | with unique ids, the board holds the same multiset of cards, and so the same number, after a move |
| TripPlanner.InitialUnique | Downloads/travelperkpro-main/travelperkpro-main/src/components/sections/TripPlanner.tsx:8-15 | the seed board has four cards with unique ids |
| TripPlanner.Planner.constructor | Downloads/travelperkpro-main/travelperkpro-main/src/components/sections/TripPlanner.tsx:45 | the board starts as the seed board |
| TripPlanner.Planner.Drop | Downloads/travelperkpro-main/travelperkpro-main/src/components/sections/TripPlanner.tsx:47-68 | a drop replaces the board with `Moved(board, id, to)` |
| Testimonials.Next | Downloads/travelperkpro-main/travelperkpro-main/src/components/sections/Testimonials.tsx:48 | the next index is in range: i+1, or 0 after the last |
| Testimonials.Previous | Downloads/travelperkpro-main/travelperkpro-main/src/components/sections/Testimonials.tsx:55 | the previous index is in range: i−1, or n−1 from 0 |
| Testimonials.PreviousOfNext | Downloads/travelperkpro-main/travelperkpro-main/src/components/sections/Testimonials.tsx:55-61 | previous after next returns the original index |
| Testimonials.NextOfPrevious | Downloads/travelperkpro-main/travelperkpro-main/src/components/sections/Testimonials.tsx:55-61 | next after previous returns the original index |
| Testimonials.AdvanceIsModular | Downloads/travelperkpro-main/travelperkpro-main/src/components/sections/Testimonials.tsx:47-49 | k next steps from i land on (i+k) mod n |
| Testimonials.FullRound | Downloads/travelperkpro-main/travelperkpro-main/src/components/sections/Testimonials.tsx:47-49 | n next steps come back to the start |
| Testimonials.Step | Downloads/travelperkpro-main/travelperkpro-main/src/components/sections/Testimonials.tsx:44-62 | every manual event switches autoplay off; a dot or card sets the chosen index; a tick advances only while autoplay is on and otherwise changes nothing |
| Testimonials.RunInRange | Downloads/travelperkpro-main/travelperkpro-main/src/components/sections/Testimonials.tsx:41-62 | from the initial state, any run of events keeps the index in 0..n−1 |
| Testimonials.Run | Downloads/travelperkpro-main/travelperkpro-main/src/components/sections/Testimonials.tsx:41-62 | the state after a sequence of events; RunInRange, PausedStaysPaused, AutoPlayingIffOnlyTicks and TicksAdvance are about it |
| Testimonials.PausedStaysPaused | Downloads/travelperkpro-main/travelperkpro-main/src/components/sections/Testimonials.tsx:44-62 | once paused, no event turns autoplay back on |
| Testimonials.AutoPlayingIffOnlyTicks | Downloads/travelperkpro-main/travelperkpro-main/src/components/sections/Testimonials.tsx:41-62 | autoplay is on exactly while nothing but ticks has happened |
| Testimonials.TicksAdvance | Downloads/travelperkpro-main/travelperkpro-main/src/components/sections/Testimonials.tsx:44-49 | k ticks from the start show testimonial k mod n with autoplay on |
| Testimonials.Carousel.constructor | Downloads/travelperkpro-main/travelperkpro-main/src/components/sections/Testimonials.tsx:41-42 | index 0 with autoplay on |
| Testimonials.Carousel.GoToPrevious | Downloads/travelperkpro-main/travelperkpro-main/src/components/sections/Testimonials.tsx:54-57 | the state becomes `Step(old, GoPrevious)` |
| Testimonials.Carousel.GoToNext | Downloads/travelperkpro-main/travelperkpro-main/src/components/sections/Testimonials.tsx:59-62 | the state becomes `Step(old, GoNext)` |
| Testimonials.Carousel.Select | Downloads/travelperkpro-main/travelperkpro-main/src/components/sections/Testimonials.tsx:132-135 | the state becomes `Step(old, Pick(index))` |
| Testimonials.Carousel.Tick | Downloads/travelperkpro-main/travelperkpro-main/src/components/sections/Testimonials.tsx:44-49 | the state becomes `Step(old, Tick)` |
| Testimonials.Carousel.Shown | Downloads/travelperkpro-main/travelperkpro-main/src/components/sections/Testimonials.tsx:96-113 | the shown testimonial is one of the list |
| UserRole.Rank | Downloads/travelperkpro-main/travelperkpro-main/src/hooks/useUserRole.tsx:25-30 | ranks lie in 1..4; RankOrder states their order |
| UserRole.RankOrder | Downloads/travelperkpro-main/travelperkpro-main/src/hooks/useUserRole.tsx:25-31 | employee < manager < finance < admin, so finance holds the manager permission and a manager does not hold the finance one |
| UserRole.DefaultUser | Downloads/travelperkpro-main/travelperkpro-main/src/hooks/useUserRole.tsx:13-18 | the hook starts with a manager (not finance, not admin) |
| UserRole.RankInjective | Downloads/travelperkpro-main/travelperkpro-main/src/hooks/useUserRole.tsx:25-30 | different roles have different ranks |
| UserRole.HasPermission | Downloads/travelperkpro-main/travelperkpro-main/src/hooks/useUserRole.tsx:24-32 | rank comparison in the role hierarchy; PermissionReflexive, PermissionTotal, PermissionDownwardClosed and PermissionAntisymmetric make it a total order |
| UserRole.PermissionReflexive | Downloads/travelperkpro-main/travelperkpro-main/src/hooks/useUserRole.tsx:31 | every role holds its own permission |
| UserRole.PermissionTotal | Downloads/travelperkpro-main/travelperkpro-main/src/hooks/useUserRole.tsx:31 | of any two roles, one holds the other's permission |
| UserRole.PermissionDownwardClosed | Downloads/travelperkpro-main/travelperkpro-main/src/hooks/useUserRole.tsx:24-32 | holding a permission includes every lower one |
| UserRole.AdminAndEmployeeExtremes | Downloads/travelperkpro-main/travelperkpro-main/src/hooks/useUserRole.tsx:24-32 | admin holds every permission; an employee only the employee one |
| UserRole.PermissionAntisymmetric | Downloads/travelperkpro-main/travelperkpro-main/src/hooks/useUserRole.tsx:24-32 | mutual permission means the same role |
| UserRole.FlagsExclusive | Downloads/travelperkpro-main/travelperkpro-main/src/hooks/useUserRole.tsx:38-40 | each flag holds exactly for its role, and no two hold together |
| UserRole.RoleContext.constructor | Downloads/travelperkpro-main/travelperkpro-main/src/hooks/useUserRole.tsx:13-18 | the context starts with the default user |
| UserRole.RoleContext.SwitchRole | Downloads/travelperkpro-main/travelperkpro-main/src/hooks/useUserRole.tsx:20-22 | the role is replaced; id, name and department are kept |

## Left out

- Floating point: all amounts are integers. `Math.round`, `Math.ceil` and the percentage divisions are modelled exactly on integers. Rounding error in JavaScript doubles and fractional amounts are not modelled.
- Text.ParseNumber: reads optional leading white space, a sign and a run of digits. The fraction, exponent, `Infinity` and hexadecimal forms that `parseFloat` and `Number` accept are not modelled.
- Text.Trim: treats space, tab, line feed and carriage return as white space. The other Unicode white space that JavaScript trims is not modelled.
- OptimizeBudgets.Panel.AddTrip: the cost field arrives as `Number(form.cost)`, an integer or `None` for empty text. Non-numeric text, which `Number` turns into NaN, is not modelled.
- TripManager.Manager.AddTrip: the cost arrives as `None` for an empty field and an integer otherwise. Text such as "abc" passes the `!newTrip.cost` check and stores NaN; that path is not modelled.
- BudgetTracker.Tracker.UpdateBudget: requires a positive total. Both callers guarantee it: saving checks for a number above zero, and the +20000 button raises a total that is already positive. A zero total, which would give an infinite percentage, is therefore out of reach.
- Clocks and ids: `Date.now()` ids and today's date are parameters of the methods that add trips, as is the mount-time id of the OptimizeBudgets seed trip.
- Prompts: `prompt` answers in OptimizeBudgets are parameters: `None` for a dismissed prompt, or for NaN in the budget prompt.
- OptimizeBudgets.Panel.DeleteTrip: models a delete the user confirmed; the `confirm("Delete this trip?")` dialog in front of it is left out, and a declined dialog changes nothing.
- OptimizeBudgets form state: the add form's fields and their reset after a successful add are left out; `AddTrip` takes the submitted title and cost as parameters.
- Timers: the approval widget's 1000 ms delay is split into a start method and a `Settle` method. The carousel's 4000 ms `setInterval` becomes the `Tick` event. The booking form's deferred redirect is left out.
- Render timing: the approval handlers test `isAnimating` as it was at the last render, so two presses inside one render could both start a decision. The model reads the current flag, and so it drops the second press.
- Rendering: markup, colour classes, icons, framer-motion animation, toasts and the ×80 display conversion with `toFixed` are left out. So are currency and locale formatting, the map coordinates (`lat`/`lng`), and the testimonial quotes and avatars.
- Approval widget markup: disabling the Reset button while a decision is in flight is part of the rendering. `ResetWorkflow` itself is allowed at any time, as the handler is.
- ManageWorkflow: the `role` prop is a free string; the role select that sets it is part of the parent page. The `onReset` callback holds no logic in this component and is left out.
- Parent callbacks: `onTripsChange` belongs to the parent and is left out.
- Trip manager form state: `showAddForm`, `editingTrip` and the resetting of the form fields are left out.
- OptimizeBudgets category: the category select is never stored with a trip and is left out.
- Booking form schema: the text fields (`from`, `to`, `location`, class and type, minimum length 2) are not modelled. `SchemaValid` keeps only the dates and the party size the estimate reads.
- Dates: the booking dates are instants in milliseconds, not `Date` objects.
- Drag and drop: the dragged id arrives as a parameter instead of through `dataTransfer`. A card object is always truthy, so `if (moved)` is modelled as "a card was found".
- Persistence: the role hook keeps its user only for the lifetime of the component, and the model does the same. Each component that calls the hook gets its own copy.
