# Hospital diet-management console: record management and order workflow

This project models the record-management core of a hospital diet-management admin
console, a single-page application whose pages each keep one persisted array of records:

- the **diet-order page** (`dietOrders`): doctors create orders, and a dietitian moves each
  one through `pending -> approved -> in-cafeteria -> completed`, with a gate deciding
  which action buttons an order's row offers;
- the **diet-package page** (`dietPlans`), whose form fields `breakfast` and `evening` map
  onto the plan's nested `breakfast.morning` and `breakfast.afternoon`, and whose
  `totalRate` mirrors `rate`;
- the **food-item page** (`foodItems`), whose numeric fields are coerced with
  `Number(x) || 0` and whose form toggles weekdays in and out of a list;
- the **dashboard**, which counts approved orders, sums the revenue and shows the first five
  orders, or two fixed rows when there are none.

Every page has the same shape. There is a pure filter: a case-insensitive text search, a
category select and an inclusive date range. There are create, update and delete handlers
that replace the whole array. There is also a form scratchpad with edit-open and reset.

Structure:

- `collections.dfy` (`Collections`): `filter`, the `map(x => sel ? f(x) : x)` rewrite,
  subsequences and unique keys, with their lemmas.
- `text.dfy` (`Text`): ASCII `toLowerCase`, `includes`, decimal digit strings, and
  `new Date("YYYY-MM-DD")` as a parsed calendar day with calendar order, with its inverse
  `toISOString().split('T')[0]`.
- `numbers.dfy` (`JsNumbers`): `Number(text)`, `toString()` and `x || 0` on finite decimals and NaN.
- `order_workflow.dfy` (`OrderWorkflow`): statuses, the action gate and the status filter.
- `orders.dfy`, `diet_plans.dfy`, `food_items.dfy`: one module per page. Each holds the
  records, the form, the filter, the per-record rewrites as functions with lemmas, and a
  class whose fields are the page's state and whose methods are its handlers.
- `dashboard.dfy` (`Dashboard`): the dashboard aggregates.

Values the program takes from the environment are parameters: the fresh id (`Date.now()`),
today's ISO date and the displayed request date (`new Date()`), and the stored array that
`useLocalStorage` returns (`None` when nothing is stored, in which case the page's seed
records are used).

Behaviours of the code worth knowing, which the model follows:

- The order page's status filter lower-cases both sides, so the option `In-Cafeteria`
  selects status `in-cafeteria`. The diet-package and food-item pages compare the type
  exactly.
- An order update keeps id, status, rate, request date and created date, and overwrites
  `customizations` from the form.
- Customize stores whatever text the scratchpad holds. Only the field's `required`
  attribute asks for text.

## Model

| member | source | states |
|---|---|---|
| `Orders.FilterOrders` | src/pages/Orders.tsx:87-104 | the shown orders are a subsequence of the stored ones (stored order, nothing invented); an order is shown iff it is stored and matches search, status filter and date range, and then as many times as it is stored |
| `Orders.UnfilteredShowsRange` | src/pages/Orders.tsx:89-100 | with an empty search and status 'All', an order is shown iff it is stored and created inside the date range |
| `Orders.ReversedRangeShowsNothing` | src/pages/Orders.tsx:97-100 | a range whose from-date is after its to-date shows no order |
| `OrderWorkflow.FilterOptionSelects` | src/pages/Orders.tsx:95 | each status option (Pending, Approved, In-Cafeteria, Completed) selects exactly the orders in that status, despite the capitalisation |
| `Orders.NewOrder` | src/pages/Orders.tsx:117-125 | a created order has the fresh id, status pending, rate 300, empty customizations, the given request date, created date today, and the form's fields |
| `Orders.UpdateOrder` | src/pages/Orders.tsx:108-114 | update keeps length and order; on the edited id every form field is written and id, status, rate, request and created date are kept; every other order is untouched |
| `Orders.UpdateAbsentIsNoOp` | src/pages/Orders.tsx:108-114 | updating an id no order has leaves the array unchanged |
| `Orders.EditThenSubmitIsNoOp` | src/pages/Orders.tsx:166-181 | opening an order in the editor and submitting the unchanged form leaves the array unchanged |
| `Orders.SetStatus` | src/pages/Orders.tsx:195-216 | approve / send-to-cafeteria / complete set the status of the orders with that id only; no other field and no other order changes; length kept |
| `Orders.CustomizeOrder` | src/pages/Orders.tsx:136-140 | customize-submit writes the text and status approved on the orders with that id only |
| `Orders.DeleteOrder` | src/pages/Orders.tsx:183-186 | delete keeps, in order and with their multiplicity, exactly the orders with another id |
| `Orders.DeletedNeverShown` | src/pages/Orders.tsx:183-186 | after a delete no filter shows an order with the deleted id |
| `Orders.RewritesKeepIdsUnique` | src/pages/Orders.tsx:108-114 | update, status changes, customizing and delete keep unique ids unique |
| `Orders.Press` | src/pages/Orders.tsx:250-317 | pressing a row's button: every status-writing button (Customize through its dialog, Approve, Send to Cafeteria, Complete) writes its status on the orders with that id; no button but Delete changes the length or another order; Edit changes nothing |
| `Orders.GatedTransitionOnOrder` | src/pages/Orders.tsx:133-147 | pressing a status-writing button the gate offers (Customize via its dialog's rewrite, the others via the status handlers) moves its order exactly one step forward and (ids unique) changes no other order |
| `Orders.UngatedApproveRegresses` | src/pages/Orders.tsx:195-201 | the gate never offers Approve on a completed order, and the approve handler applied to one would move it back |
| `Orders.ApproveSeedScenario` | src/pages/Orders.tsx:27-62 | approving Sajan's pending seed order makes the 'Approved' filter show both seed orders |
| `Orders.OrdersPage.constructor` | src/pages/Orders.tsx:27-85 | the page starts with the stored orders or the two seed orders, a blank form, nothing edited or customized, both dialogs closed |
| `Orders.OrdersPage.Submit` | src/pages/Orders.tsx:106-131 | with an order being edited, the array becomes its update; otherwise the new pending order is appended (keeping ids unique when the id is fresh); then the form is reset |
| `Orders.OrdersPage.ResetForm` | src/pages/Orders.tsx:149-164 | blank form, main dialog closed, nothing edited; orders untouched |
| `Orders.OrdersPage.Edit` | src/pages/Orders.tsx:166-181 | the form holds the order's fields, the order is being edited, the dialog is open |
| `Orders.OrdersPage.Delete` | src/pages/Orders.tsx:183-187 | the array becomes the delete of that id |
| `Orders.OrdersPage.Customize` | src/pages/Orders.tsx:189-193 | the order is being customized, the form's customizations are the order's, the dialog is open |
| `Orders.OrdersPage.CustomizeSubmit` | src/pages/Orders.tsx:133-147 | with an order being customized: its text and approval are stored, the dialog closes, the text is cleared; with none, nothing changes |
| `Orders.OrdersPage.Approve` | src/pages/Orders.tsx:195-201 | the array becomes the status change to approved |
| `Orders.OrdersPage.SendToCafeteria` | src/pages/Orders.tsx:203-209 | the array becomes the status change to in-cafeteria |
| `Orders.OrdersPage.Complete` | src/pages/Orders.tsx:211-218 | the array becomes the status change to completed |
| `OrderWorkflow.ActionsFor` | src/pages/Orders.tsx:250-317 | Customize and Approve iff pending, Send to Cafeteria iff approved, Complete iff in-cafeteria; Edit and Delete always, last |
| `OrderWorkflow.GatedStepAdvances` | src/pages/Orders.tsx:250-317 | every offered status-writing action advances the status exactly one step; only Edit and Delete write no status |
| `OrderWorkflow.CompletedIsFinal` | src/pages/Orders.tsx:250-317 | a completed order offers no status-changing action |
| `OrderWorkflow.NonFinalCanAdvance` | src/pages/Orders.tsx:250-302 | every status before completed offers a status-writing action |
| `DietPlans.FilterPlans` | src/pages/DietPlans.tsx:77-91 | the shown plans are a subsequence of the stored ones; a plan is shown iff it is stored and matches search, type and date range, and then as many times as it is stored |
| `DietPlans.PlanFilterCases` | src/pages/DietPlans.tsx:79-87 | with empty search and type 'All' exactly the plans inside the date range are shown; a type filter shows only plans of exactly that type |
| `DietPlans.NewPlan` | src/pages/DietPlans.tsx:116-129 | a created plan has the fresh id, created date today, rate and total rate both `Number(form.rate)`, and gives the form back through edit-open |
| `DietPlans.UpdatePlan` | src/pages/DietPlans.tsx:96-112 | update keeps length, ids and created dates; the edited plan gets `rate == totalRate == Number(form.rate)` and the form's fields; other plans untouched |
| `DietPlans.DeletePlan` | src/pages/DietPlans.tsx:165-169 | delete keeps, in order and with their multiplicity, exactly the plans with another id |
| `DietPlans.WritesKeepRatesMirrored` | src/pages/DietPlans.tsx:102-127 | create, update and delete keep `totalRate == rate` for every plan |
| `DietPlans.EditThenSubmitIsNoOp` | src/pages/DietPlans.tsx:151-160 | edit-open (morning to breakfast, afternoon to evening, `rate.toString()`) then an unchanged submit leaves the array unchanged |
| `DietPlans.WritesKeepIdsUnique` | src/pages/DietPlans.tsx:93-135 | create with a fresh id, update and delete keep unique ids unique |
| `DietPlans.RateScenario` | src/pages/DietPlans.tsx:120-127 | a plan created with rate text "300" stores total rate 300 |
| `DietPlans.DietPlansPage.constructor` | src/pages/DietPlans.tsx:28-75 | the page starts with the stored plans or the two seed plans, a blank form, nothing edited |
| `DietPlans.DietPlansPage.Submit` | src/pages/DietPlans.tsx:93-135 | with a plan being edited, the array becomes its update; otherwise the new plan is appended; mirrored rates stay mirrored; then the form is reset |
| `DietPlans.DietPlansPage.ResetForm` | src/pages/DietPlans.tsx:137-149 | blank form (type Regular), dialog closed, nothing edited |
| `DietPlans.DietPlansPage.Edit` | src/pages/DietPlans.tsx:151-163 | the form holds the plan's fields, the plan is being edited, the dialog is open |
| `DietPlans.DietPlansPage.Delete` | src/pages/DietPlans.tsx:165-169 | the array becomes the delete of that id |
| `FoodItems.FilterItems` | src/pages/FoodItems.tsx:79-96 | the shown items are a subsequence of the stored ones; an item is shown iff it is stored and matches search, type and date range, and then as many times as it is stored |
| `FoodItems.ItemFilterCases` | src/pages/FoodItems.tsx:81-87 | an item inside the date range is found through any one of its days, and by the empty search |
| `FoodItems.ReversedRangeShowsNothing` | src/pages/FoodItems.tsx:89-92 | a range whose from-date is after its to-date shows no item |
| `JsNumbers.CoerceBlank` | src/pages/FoodItems.tsx:102-108 | empty or blank numeric input is stored as 0 |
| `JsNumbers.CoerceUnparsable` | src/pages/FoodItems.tsx:102-108 | numeric input holding a character no numeral contains (punctuation other than a sign or a point) is NaN and is stored as 0 |
| `JsNumbers.DecimalInput` | src/pages/FoodItems.tsx:102-108 | decimal text such as "0.9", "12.99" and "-2.5" is stored with its fraction |
| `FoodItems.DecimalFormScenario` | src/pages/FoodItems.tsx:400-455 | a fat of "0.9" and a rate of "12.99", as the inputs' 0.1 and 0.01 steps produce them, are stored as 0.9 and 12.99 |
| `FoodItems.BlankFormNumbersAreZero` | src/pages/FoodItems.tsx:102-108 | submitting the blank form stores 0 in every numeric field |
| `FoodItems.NewItem` | src/pages/FoodItems.tsx:125-133 | a created item has the fresh id, the coerced numbers, the form's days, name, type and unit, and created date today |
| `FoodItems.UpdateItem` | src/pages/FoodItems.tsx:110-122 | update keeps length, ids and created dates; the edited item gets the coerced numbers and the form's fields; other items untouched |
| `FoodItems.DeleteItem` | src/pages/FoodItems.tsx:172-175 | delete keeps, in order and with their multiplicity, exactly the items with another id |
| `FoodItems.EditThenSubmitIsNoOp` | src/pages/FoodItems.tsx:156-170 | edit-open (numbers through `toString()`) then an unchanged submit leaves the array unchanged |
| `FoodItems.WritesKeepIdsUnique` | src/pages/FoodItems.tsx:98-138 | create with a fresh id, update and delete keep unique ids unique |
| `FoodItems.ToggleDay` | src/pages/FoodItems.tsx:177-184 | toggling a present day removes all its occurrences and keeps the other days in order with their multiplicity; toggling an absent day appends it at the end |
| `FoodItems.ToggleTwiceRestoresMembership` | src/pages/FoodItems.tsx:177-184 | toggling the same day twice restores which days are in the list |
| `FoodItems.ToggleTwiceRestoresList` | src/pages/FoodItems.tsx:177-184 | toggling an absent day twice restores the exact list |
| `FoodItems.RiceScenario` | src/pages/FoodItems.tsx:79-96 | from no items, creating "Rice" makes the search "ric" show exactly that item |
| `FoodItems.FoodItemsPage.constructor` | src/pages/FoodItems.tsx:28-75 | the page starts with the stored items or the two seed items, a blank form, nothing edited |
| `FoodItems.FoodItemsPage.Submit` | src/pages/FoodItems.tsx:98-138 | with an item being edited, the array becomes its update; otherwise the new item is appended; then the form is reset |
| `FoodItems.FoodItemsPage.ResetForm` | src/pages/FoodItems.tsx:140-154 | blank form (type Vegetarian, unit grams, no days), dialog closed, nothing edited |
| `FoodItems.FoodItemsPage.Edit` | src/pages/FoodItems.tsx:156-170 | the form holds the item's fields, the item is being edited, the dialog is open |
| `FoodItems.FoodItemsPage.Delete` | src/pages/FoodItems.tsx:172-175 | the array becomes the delete of that id |
| `FoodItems.FoodItemsPage.ToggleFormDay` | src/pages/FoodItems.tsx:177-184 | only the scratchpad's day list changes, to its toggle |
| `JsNumbers.NumberRoundTrip` | src/pages/DietPlans.tsx:155 | `Number(x.toString())` is `x` for every number (finite decimal or NaN) |
| `JsNumbers.CoerceRoundTrip` | src/pages/FoodItems.tsx:161-165 | `Number(n.toString()) \|\| 0` is `n` for every number other than NaN |
| `JsNumbers.ToNumber` | src/pages/FoodItems.tsx:103-107 | `Number(text)`: blank text is 0, and any text read as a number other than NaN is made only of digits, signs and points |
| `JsNumbers.NumberToString` | src/pages/FoodItems.tsx:161-165 | `toString()`: NaN is written "NaN" and only NaN; a number's text starts with '-' exactly when it is negative |
| `JsNumbers.Coerce` | src/pages/FoodItems.tsx:103-107 | `Number(text) \|\| 0`: the result is 0 exactly when `Number` gives NaN or 0, and is never NaN |
| `FoodItems.NumericFields` | src/pages/FoodItems.tsx:102-108 | the five coerced numbers are never NaN, and a field holding the text of a number reads back as that number |
| `Text.IncludesAt` | src/pages/Orders.tsx:90-93 | `includes` holds iff the needle occurs at some offset |
| `Text.EmptyIncluded` | src/pages/Orders.tsx:89-93 | the empty search term is included in every lower-cased field |
| `Text.Lower` | src/pages/Orders.tsx:90-93 | `toLowerCase()`: same length, each letter lower-cased, no upper-case letter left |
| `Text.Includes` | src/pages/Orders.tsx:90-93 | `includes`: a prefix is included, and nothing longer than the text is |
| `Text.MatchesTerm` | src/pages/Orders.tsx:90-93 | the case-insensitive search: the empty term matches every field, and a term longer than the field matches none |
| `Text.ParseIsoDate` | src/pages/Orders.tsx:97-99 | `new Date(s)` is a valid day only for a `YYYY-MM-DD` string with month 1..12 and day 1..31, and that day's ISO text is `s` itself, so the parsed day holds the string's digits |
| `Text.InDateRange` | src/pages/Orders.tsx:97-100 | a date is in range only if it, from and to are all valid days and from is not after to |
| `Text.IsoDateRoundTrip` | src/pages/Orders.tsx:78 | `new Date(d.toISOString().split('T')[0])` is the day `d` again |
| `Text.TodayInDefaultRange` | src/pages/Orders.tsx:78-80 | with both range ends at their default (today), a record created today is in range |
| `OrderWorkflow.StatusFilterPasses` | src/pages/Orders.tsx:95 | 'All' passes every order; any other option passes exactly the orders whose stored status is the option lower-cased |
| `Orders.FormOf` | src/pages/Orders.tsx:166-181 | the scratchpad filled from an order gives that order back when written over it |
| `DietPlans.FormOf` | src/pages/DietPlans.tsx:151-163 | the scratchpad filled from a plan whose total rate mirrors its rate gives that plan back when written over it |
| `FoodItems.FormOf` | src/pages/FoodItems.tsx:156-170 | the scratchpad filled from an item copies its texts and days, and each of its numbers reads back through `Number(x) \|\| 0` |
| `Orders.SeedOrders` | src/pages/Orders.tsx:27-62 | two seed orders with distinct ids, the first pending and the second approved |
| `DietPlans.SeedPlans` | src/pages/DietPlans.tsx:28-57 | two seed plans with distinct ids whose total rates mirror their rates |
| `FoodItems.SeedItems` | src/pages/FoodItems.tsx:28-55 | two seed items with distinct ids; the fractional fat and protein values (0.9, 2.6, 3.6) are kept exactly |
| `Dashboard.TotalRevenue` | src/pages/Index.tsx:29 | the revenue of no orders is 0, and of one order its rate, or 0 when it has none |
| `Dashboard.ApprovedCount` | src/pages/Index.tsx:28 | the approved count is the number of orders with status exactly approved, at most the total |
| `Dashboard.ApprovedAndOthers` | src/pages/Index.tsx:28 | approved orders plus the others make up all orders |
| `Dashboard.ApprovedCountAfterTransition` | src/pages/Index.tsx:28 | a status change of one order (ids unique) moves the approved count down when it leaves approved and up when it enters it |
| `Dashboard.RevenueAppend` | src/pages/Index.tsx:29 | revenue (the left fold of each rate, or 0 when missing) adds up over any split of the orders |
| `Dashboard.CreateAddsDefaultRate` | src/pages/Index.tsx:29 | a new doctor-initiated order adds 300 to the revenue |
| `Dashboard.RevenueKeptBySameRates` | src/pages/Index.tsx:29 | revenue depends only on the rates, whatever the statuses |
| `Dashboard.TransitionsKeepRevenue` | src/pages/Index.tsx:29 | status changes, customizing and editing leave the revenue unchanged |
| `Dashboard.RevenueNonNegative` | src/pages/Index.tsx:29 | with no negative rate the revenue is not negative |
| `Dashboard.DashboardStats` | src/pages/Index.tsx:31-36 | Total Orders is the length, Approved Orders the approved count (at most the total), revenue the total revenue, Diet Plans the fixed 89 |
| `Dashboard.RecentRows` | src/pages/Index.tsx:125-161 | with orders, the table shows the first min(5, n) orders in stored order; with none, exactly the two placeholder rows |

## Left out

- CSV export and print (`handleExcel`, `handlePrint` on every page): they need the DOM, URI encoding and downloads. Their rows quote only some fields and never escape quotes or commas, so there is no parse round trip to state.
- Toast notifications, React rendering and the dialogs' own open/close callbacks (`onOpenChange`, the Add and Cancel buttons): they are presentation; the dialog flags are modelled only as the handlers set them.
- `useLocalStorage` is not part of this model. The store is the page's collection field, and a page starts from the stored array or from its seed.
- `Date.now()` ids, `new Date()` and `toLocaleDateString`: the id, today's ISO date and the displayed request date are parameters. The model does not promise that ids are fresh; lemmas state what a fresh id preserves.
- Numbers are finite decimals or NaN, with exact arithmetic: the rounding of IEEE doubles (inputs with more than about 15 significant digits, sums such as 0.1 + 0.2) is not modelled. `toString` is modelled as plain decimal notation. JavaScript writes very large and very small magnitudes with an exponent, and writes -0 as "0".
- JsNumbers.ToNumber: exponent notation (`1e3`), hexadecimal, binary and octal prefixes, and `Infinity` are read as NaN, although JavaScript parses them. White space is trimmed only for space, tab, line feed and carriage return.
- JsNumbers.CoerceUnparsable: states NaN only for text with a punctuation character other than a sign or a point, since text made of letters may be one of the numerals above.
- Revenue is an exact sum of decimals (a `real`), not a floating-point sum.
- A stored order with no `rate` at all is represented by NaN. Both are falsy, so `rate || 0` counts either as 0.
- `toLowerCase` lower-cases ASCII letters only; no Unicode case mapping.
- `new Date(s)` is modelled for `YYYY-MM-DD` strings with month 1..12 and day 1..31. Any other string is an Invalid Date, and comparing one is false. The model does not check the number of days in each month or accept other date formats. `toISOString` is modelled for four-digit years only.
- The diet-plan form's Days Available checkboxes are uncontrolled and never saved, so they have no effect to model.
- Dashboard charts and their hard-coded data, the status colour and label helpers, and the static components (sidebar, top bar, summary cards, the demo orders table, the patients and reports pages).
