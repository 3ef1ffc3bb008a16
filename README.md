# Bi-weekly budget: bill allocation model

This project models the calculations and the bill-list handlers of the
`BiWeeklyBudget` component (`src/App.js`). The component keeps a list of
bills and an available balance. It does the following:

- It gives every bill a whole number of days until it is due, clamped at 0.
- It weights each Pending bill by urgency, as `1 / (days + 1)`.
- It splits the balance over the Pending bills in proportion to those weights. Paid bills get nothing.
- It shows three dashboard totals: the amount owed, the amount allocated and what remains.
- It lists the bills by due date, and shows the first five Pending ones under "Upcoming Bills".
- Its handlers add a bill (at most 20), delete bills by id, and change one field of the bills with a given id.

Modules, one per file:

- `Bills` (`bills.dfy`): the bill record. It also holds the two pure list edits the handlers use: filter by id, and set one field on the matching ids.
- `Metrics` (`metrics.dfy`): days until due.
- `Sums` (`sums.dfy`): the `reduce` sums over reals, and the facts about them.
- `Allocation` (`allocation.dfy`): the weights, the total weight and the proportional split. It proves that the split sums to 100 % and to the balance, and that it is monotone in urgency.
- `Dashboard` (`dashboard.dfy`): the whole pipeline, and the three dashboard figures.
- `Ordering` (`ordering.dfy`): sorting by due date (a stable sort) and the "Upcoming Bills" selection.
- `Budget` (`budget.dfy`): the class `BiWeeklyBudget`. Its fields are the component's state. Its methods are the handlers that replace that state.

Modelling choices:

- Money, weights and percentages are `real`, so the totals are exact.
- Dates are whole day numbers. "Today" is a parameter.
- A status is `Pending` or `Paid`. Every calculation compares the status with the string `'Pending'` (src/App.js lines 83, 92, 111, 112 and 304). So a status string set through the table's select box is read with `StatusOf`: `"Pending"` gives Pending, and any other string gives Paid.
- The id of an added bill (`Date.now()` in the component) is a parameter.
- The alert raised when the list is full becomes the `false` result of `AddBill`.

## Model

| member | source | states |
|---|---|---|
| Bills.WithoutId | src/App.js:133-135 | The result keeps exactly the bills whose id differs from the deleted one. It is never longer than the input. |
| Bills.WithoutIdAppend | src/App.js:133-135 | Deleting distributes over concatenation, so the kept bills stay in their original relative order. |
| Bills.WithoutAbsentId | src/App.js:133-135 | Deleting an id that no bill carries changes nothing. |
| Bills.ApplyEdit | src/App.js:137-139 | `{ ...b, [field]: value }` keeps the id and every other field, and the edited field shows the new value. A status string other than "Pending" reads as Paid. |
| Bills.WithEdit | src/App.js:137-139 | Keeps the list length. Each bill with the id differs from its original only in the edited field, which now holds the value. Every other bill is unchanged. |
| Metrics.DaysUntilDue | src/App.js:73 | The result is never negative. It is the least number of days after which today reaches the due date, so 0 when the bill is due today or overdue. |
| Metrics.CalculateBillMetrics | src/App.js:71-79 | Every bill is kept, in order, with its days until due. That number is characterised as for DaysUntilDue. The metrics carry exactly the original bills. |
| Sums.SumNonNegative | src/App.js:82-87 | A sum of non-negative terms is non-negative. It is positive exactly when some term is positive. |
| Sums.TermWithinSum | src/App.js:82-87 | Each non-negative term is at most the sum. |
| Sums.SumScaled | src/App.js:94 | Scaling every weight by 100 / total scales the sum the same way. |
| Sums.SumShares | src/App.js:95 | Taking `balance * p / 100` of every percentage takes that share of their sum. |
| Sums.SumOfZeros | src/App.js:102-106 | A sum of zeros is zero. |
| Allocation.Weight | src/App.js:84 | The urgency weight lies in (0, 1]. It is 1 exactly when the bill is due today or overdue. |
| Allocation.WeightAntitone | src/App.js:93 | A bill due sooner never weighs less, and weighs strictly more when it is due strictly sooner. |
| Allocation.PendingWeight | src/App.js:83-87 | A bill's contribution to the total is non-negative, and positive exactly when the bill is Pending. |
| Allocation.TotalWeight | src/App.js:81-88 | The total weight is non-negative, and positive exactly when some bill is Pending. |
| Allocation.Allocate | src/App.js:90-108 | Every bill keeps its fields and days. A bill that is not Pending, or any bill when nothing is Pending, gets percentage 0 and amount 0. Every percentage lies in [0, 100]. |
| Allocation.PercentagesSumTo100 | src/App.js:93-94 | With a Pending bill, the Pending bills' percentages sum to exactly 100. |
| Allocation.AmountsSumToBalance | src/App.js:95 | With a Pending bill, the Pending bills' allocated amounts sum to exactly the available balance. |
| Allocation.AllocationProportional | src/App.js:93-94 | Two Pending bills' percentages stand in the ratio of their weights. With the percentages summing to 100, this fixes every share. |
| Allocation.AmountsProportional | src/App.js:93-95 | Two Pending bills' allocated amounts stand in the ratio of their weights: each gets a share of the balance in proportion to its weight. |
| Allocation.NothingPendingNothingAllocated | src/App.js:102-106 | With no Pending bill, the percentages and the amounts both sum to 0. |
| Allocation.AllocationMonotone | src/App.js:93-95 | Of two Pending bills, the one due no later never gets a smaller percentage. With a non-negative balance it never gets a smaller amount either. |
| Dashboard.BillsWithAllocation | src/App.js:71-108 | The pipeline keeps every bill in order, with its days until due. A bill that is not Pending, or any bill when none is, gets percentage 0 and amount 0. Every percentage lies in [0, 100], and every amount is `balance * percent / 100`. With a Pending bill, the percentages sum to 100 and the amounts to the balance. Two Pending bills' percentages stand in the ratio of their weights. |
| Dashboard.DashboardBalanced | src/App.js:110-115 | With a Pending bill, the total allocated is the balance and nothing remains. With none, nothing is allocated and the whole balance remains. |
| Dashboard.TotalBillsNonNegative | src/App.js:111 | The amount owed is never negative when no amount is negative. |
| Ordering.InsertPermutes | src/App.js:141-143 | Inserting a bill adds it and loses nothing. |
| Ordering.SortPermutes | src/App.js:141-143 | The sorted list is a permutation of the bills. |
| Ordering.InsertSorted | src/App.js:141-143 | Inserting into a list sorted by due date keeps it sorted. |
| Ordering.SortSorted | src/App.js:141-143 | The sorted list is ordered by due date. |
| Ordering.InsertStable | src/App.js:141-143 | Insertion puts a bill in front of the bills due the same day. |
| Ordering.SortStable | src/App.js:141-143 | The sort is stable: bills due the same day keep their relative order. |
| Ordering.PendingOnly | src/App.js:304 | The filter keeps only Pending bills of the list. |
| Ordering.PendingOnlyCount | src/App.js:304 | The filter keeps every Pending bill as often as it occurs, and drops every other bill. |
| Ordering.PendingOnlyPermutation | src/App.js:304 | Filtering two permutations of a list gives two permutations of each other. |
| Ordering.PendingOnlyAppend | src/App.js:304 | The filter keeps order: the Pending bills of a concatenation are those of its front followed by those of its back. |
| Ordering.PendingOnlySorted | src/App.js:304 | Filtering a sorted list keeps it sorted. |
| Ordering.PrefixEarliest | src/App.js:304 | In a sorted list, a bill among the first n is due no later than any bill after them. |
| Ordering.SortedPending | src/App.js:304 | The Pending bills of the sorted list are the list's Pending bills, sorted. |
| Ordering.UpcomingContents | src/App.js:304 | The panel shows min(5, number of Pending bills) bills, all of them Pending bills of the list. As a multiset it is contained in the Pending bills, so no bill is shown more often than it occurs. |
| Ordering.UpcomingEarliest | src/App.js:304 | The panel is in due-date order. Every Pending bill it leaves out is due no earlier than every bill it shows. |
| Budget.BiWeeklyBudget.constructor | src/App.js:5-25 | The state starts as the loaded bills and balance. |
| Budget.BiWeeklyBudget.AddBill | src/App.js:117-131 | At 20 or more bills it refuses and changes nothing. Otherwise it appends exactly one bill: the fresh id, due today, "New Bill", "Other", amount 0, Pending. The existing bills and the balance are kept, and a list of at most 20 stays at most 20. |
| Budget.BiWeeklyBudget.DeleteBill | src/App.js:133-135 | The new list is the old one without the bills of that id, in the same order. The balance is kept. |
| Budget.BiWeeklyBudget.UpdateBill | src/App.js:137-139 | The new list has the same length. Only the matching bills change, and only in the edited field. The balance is kept. |
| Budget.BiWeeklyBudget.SetAvailableBalance | src/App.js:231 | The balance takes the entered value; the bills are kept. |
| Budget.BiWeeklyBudget.DashboardFigures | src/App.js:110-115 | The dashboard figures of the current state are the dashboard statistics of its bills and balance. The amount owed is the sum of the Pending amounts. With a Pending bill the whole balance is allocated and nothing remains; with none nothing is allocated and the whole balance remains. |
| Budget.BiWeeklyBudget.UpcomingBills | src/App.js:304 | The panel for the current state shows min(5, number of Pending bills) bills, all of them Pending bills of the list. No bill appears more often than it occurs among the Pending bills. They are in due-date order, and no Pending bill left out is due earlier than one shown. |

## Left out

- Persistence: the `localStorage` loads and the `useEffect` saves (src/App.js:5-67) are I/O. The constructor takes the loaded state as parameters.
- Rendering: the JSX, the tabs, the dark mode and the `toFixed` formatting are presentation. The alert is likewise presentation; `AddBill` reports it as a `false` result.
- Dates: `Date` parsing, `toISOString`, time zones and malformed date strings are not modelled. Dates are day numbers, so the `Math.ceil` of a whole-day difference is that difference.
- Floating point: JavaScript numbers round, so over them the percentages and amounts only approximately reach 100 and the balance. The model proves the exact real-number statements.
- Budget.BiWeeklyBudget.UpdateBill: models the five fields the bill table edits (due date, name, category, amount, status). It does not model an edit of the `id` field, or an amount that is not a number (`Number` of a non-numeric string).
- Budget.BiWeeklyBudget.AddBill: the id is a parameter, and the model does not require it to be fresh. `Date.now()` is a clock.
- `nextPayDate`: stored and shown, but never used in a calculation.
- Credit-card totals, payoff projections, category totals and overdue classification are not part of `src/App.js`.
