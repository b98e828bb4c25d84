# Monthly budget tracker: a Dafny model of its data core

`BudgetTracker` (`script.js`) keeps a monthly budget, a list of dated
expenses, the list of category names and a currency code. It persists
them as one JSON entry in `localStorage`, and it derives from them:

- the expenses of the current month;
- what was spent and what remains;
- the share of the budget used;
- per-category totals;
- two tiered signals: the toast raised after an expense is added, and the
  warning classes on the overview.

The two destructive operations, deleting one expense and clearing the
month, go through a confirmation modal that holds the pending action.

The model is organised as follows:

- `model.dfy` (`Model`) holds the state (`BudgetData`, `Expense`) and the
  parsed JSON object (`Patch`). It also holds the object spreads of
  `loadData` and `importData`: `Merge` and `Load`.
- `seqs.dfy` (`Seqs`) holds the order-preserving `filter` the tracker uses
  everywhere, with its facts:
  - membership;
  - multiplicity;
  - subsequence;
  - partition;
  - filter of a filter.
- `views.dfy` (`Views`) holds the read-only views as pure functions, plus
  the two tiered signals.
- `store.dfy` (`Store`) holds what `deleteExpense` and `clearAllExpenses`
  do to the list, and how the views respond.
- `category_totals.dfy` (`CategoryTotals`) holds `getCategoryTotals`:
  - the `forEach` loop, as a method over a map plus its insertion-ordered
    keys, proved equal to a left fold `Tally`;
  - the stable descending sort, as an insertion sort `SortByAmount`.
- `render.dfy` (`Render`) holds the one way redrawing the page can fail. A
  redraw formats amounts with `formatCurrency`, and the currency display
  looks the code up in the `currencies` table. Either throws for some
  selected codes, and the exception ends the method that redrew, after
  what it had already changed and saved.
- `tracker.dfy` (`Tracker`) holds the `BudgetTracker` class itself. Its
  fields are the four data fields, the stored entry (`storage`), the
  pending action and whether the modal is shown.
  - `Valid()` is the class invariant: the modal is open exactly while an
    action is pending, and reloading the page (`Load(storage)`) gives back
    the state in memory.
  - Every mutator keeps this invariant and states its whole new state.
  - When a mutator's redraw throws, most mutators report
    `Fail(RenderFailed)` or `Err(RenderFailed)`. `ImportData` reports
    `Fail(InvalidFormat)` instead, because its `catch` handles the
    exception.
  - `ConfirmDeleteExpense` does not redraw. It formats one amount, which
    throws exactly when a redraw would, so it reports the same outcome.
  - `Start` is page start-up, `new BudgetTracker()`: it loads the state and
    then draws the page, which can throw.

Amounts are mathematical reals. `parseFloat`'s result is `Number`: either
`NaN` or a number. The clock, `Date.now()` ids, form fields, the file
picker and `JSON.parse` are all parameters:

- the current month is passed as its `YYYY-MM` string;
- an expense's timestamp and id are passed in;
- an imported or stored text arrives as `ParsedJson`, which is either
  `ParseError` or a parsed object.

Where the system's documented behaviour and the code differ, the model
follows the code:

- `changeCurrency` stores whatever code the select element holds. It does
  not reject unknown codes.
- `addExpense` checks only that a category was chosen, that is, that the
  string is non-empty. It does not check that the category is one of
  `categories`.

## Model

| member | source | states |
|---|---|---|
| Model.IsValidAmount | script.js:137 | an amount is accepted exactly when it is a number and positive, the complement of the guard that refuses NaN or an amount <= 0 |
| Model.Merge | script.js:44 | each field present in the parsed object replaces the state's, the others are kept; on the saved form this is spreading one JSON object over the other |
| Model.Export | script.js:51-58 | the saved JSON object carries every one of the four fields of the state |
| Model.Load | script.js:31-49 | no stored entry, or one that does not parse, gives the defaults (budget 0, no expenses, the eight categories, USD) |
| Model.LoadParsed | script.js:44 | a parsed stored object is spread over the defaults: seen as saved JSON, each field it carries replaces the default one |
| Model.MergeEmpty | script.js:571 | spreading an object with no fields over the state changes nothing |
| Model.MergeExport | script.js:571 | importing an exported snapshot restores exactly the exported state, whatever state it is imported into |
| Model.LoadExport | script.js:44 | reloading what `saveData` wrote gives back the saved state |
| Model.MergeCombine | script.js:571 | two successive imports equal one import of the two objects spread together |
| Model.MergeIdempotent | script.js:571 | importing the same object twice is the same as importing it once |
| Model.MergeWellFormed | script.js:571 | an import whose budget is non-negative and whose expenses have positive amounts and categories keeps a well-formed state well formed |
| Views.MonthOf | script.js:196-198 | the month key is a prefix of the date, seven characters long, or the whole date when shorter |
| Views.CurrentMonthExpenses | script.js:195-200 | an expense is in the view iff it is in the list and dated in the month; each keeps its multiplicity and the view keeps list order |
| Views.SumConcat | script.js:202-204 | the total over two lists joined is the sum of their totals |
| Views.SumPositive | script.js:202-204 | positive amounts sum to a non-negative total, positive when the list is non-empty |
| Views.SumCons | script.js:202-204 | an expense in front of a list adds its amount to the list's total |
| Views.SumPermutation | script.js:202-204 | two lists holding the same expenses, each as often, have the same total, whatever their order |
| Views.TotalSpentOrderFree | script.js:202-204 | two states whose lists hold the same expenses have the same amount spent in every month |
| Views.RemainingBudget | script.js:206-208 | remaining plus spent is the budget; remaining is negative iff spending exceeds the budget |
| Views.BudgetUsedPercentage | script.js:210-213 | a zero budget gives 0%; otherwise percentage times budget is 100 times the amount spent |
| Views.WellFormedViews | script.js:202-213 | in a well-formed state the amount spent and the percentage are non-negative and at most the whole budget remains |
| Views.CheckBudgetWarnings | script.js:444-455 | "exceeded" iff remaining < 0; "close to limit" iff not exceeded and at least 90% used; "75% used" iff not exceeded and 75% to under 90%; no toast otherwise |
| Views.OverviewLevelOf | script.js:263-271 | danger classes iff at least 100% used, warning classes iff 80% to under 100%, none below 80% |
| Views.WarningBySpending | script.js:444-455 | with a positive budget each toast tier is a band of the amount spent: over the budget, 90% to 100% of it, 75% to under 90%, under 75% |
| Views.OverviewBySpending | script.js:263-271 | with a positive budget danger iff spent >= budget, warning iff 80% of budget <= spent < budget, normal iff spent < 80% of budget |
| Views.ExceededShowsDanger | script.js:263-271 | with a positive budget, whenever the "exceeded" toast fires the overview shows danger |
| Views.ZeroBudgetSignals | script.js:444-455 | with no budget set, any spending raises "exceeded" while the overview stays normal, because the percentage is pinned at 0 |
| Store.RemoveById | script.js:183-184 | exactly the entries with the id are removed, the rest keep multiplicity and order, and an absent id leaves the list as it was |
| Store.RemoveMonth | script.js:533-537 | exactly the entries dated in the month are removed, the rest keep multiplicity and order |
| Store.ClearKeepsComplement | script.js:533-537 | the cleared list and the current-month view together make up the old list; afterwards the view is empty and the spent total is 0 |
| Store.ClearedState | script.js:533-537 | after clearing a month its view is empty, the removed entries and the kept ones make up the old list, and a well-formed state stays well formed |
| Store.ClearKeepsOtherMonths | script.js:533-537 | clearing one month leaves every other month's view unchanged |
| Store.PrependTotalSpent | script.js:173 | adding an expense to the front raises a month's total by its amount iff it is dated in that month |
| Store.PrependedState | script.js:165-173 | adding an expense with a positive amount and a category raises the total of its own month by its amount and keeps a well-formed state well formed |
| Store.AddedTotal | script.js:173 | prepending expenses of the month raises its total by their sum |
| Store.RemoveByIdTotalSpent | script.js:183-184 | in a well-formed state deleting never raises the month's total, and deleting an absent id leaves it equal |
| Store.MutatorsKeepWellFormed | script.js:137-184 | adding an expense that passes both guards, deleting, clearing, setting a positive budget and changing currency all keep the state well formed |
| Store.FindById | script.js:511 | returns an expense iff one with the id exists, and then the first such in list order |
| CategoryTotals.TallyGrouped | script.js:217-221 | the grouping has one record per category of the month, no category twice, each record's amount is that category's sum, and the amounts add up to the month's total |
| CategoryTotals.FirstIndex | script.js:219-221 | the position of a category's first expense: before the end exactly when the category occurs, holding that category, with no earlier expense of it |
| CategoryTotals.TallyOrder | script.js:219-221 | the grouping lists its records in the order in which their categories first occur among the expenses, as a dictionary lists keys in the order they were first set |
| CategoryTotals.TallyCorrect | script.js:217-221 | the grouping is right in every record (as in `TallyGrouped`) and in order of first occurrence (as in `TallyOrder`) |
| CategoryTotals.SortByAmount | script.js:225 | the sort returns as many records as it was given |
| CategoryTotals.SortPermutes | script.js:225 | the sort returns a permutation of its input |
| CategoryTotals.SortSorted | script.js:225 | the sort's result is in non-increasing order of amount |
| CategoryTotals.SortStable | script.js:225 | records of equal amount keep their relative order, since `Array.prototype.sort` is stable |
| CategoryTotals.SortTotal | script.js:225 | sorting does not change the total of the amounts |
| CategoryTotals.SortDistinct | script.js:225 | sorting keeps the categories distinct |
| CategoryTotals.SortTies | script.js:225 | sorting records that are in order of first occurrence leaves the records of each amount in that order |
| CategoryTotals.CategoryTotalsCorrect | script.js:215-226 | the sorted totals are distinct, cover exactly the month's categories, hold each category's sum, add up to the month's total, are non-increasing, and records of equal amount keep the grouping's order, which is the order in which their categories first occur |
| CategoryTotals.TallyLoop | script.js:219-221 | the `forEach` over a map with insertion-ordered keys yields the entries of the fold `Tally` |
| CategoryTotals.GetCategoryTotals | script.js:215-226 | returns the sorted grouping of the month with all the properties of `CategoryTotalsCorrect`, in terms of the state: distinct categories covering the month's, each with its sum, adding up to the amount spent, largest first, ties in order of first occurrence |
| Tracker.Perform | script.js:502-507 | a pending delete removes exactly that id, a pending clear removes exactly the month's entries, no pending action changes nothing; budget, categories and currency are untouched |
| Tracker.PerformKeepsWellFormed | script.js:502-507 | confirming any pending action keeps a well-formed state well formed, never raises the month's total, and a confirmed clear leaves the month empty |
| Tracker.BudgetTracker.constructor | script.js:23 | the state is what `loadData` reads from the stored entry, no modal is open, and the invariant holds |
| Tracker.Start | script.js:23-27 | start-up loads the stored state and opens no modal; it throws exactly when the loaded currency has no entry in the table, after the state is loaded |
| Tracker.BudgetTracker.SaveData | script.js:51-58 | the stored entry becomes the serialised state, so reloading gives the state back |
| Tracker.BudgetTracker.SetBudget | script.js:133-147 | NaN or an amount <= 0 is refused with nothing changed; otherwise the budget is replaced, the rest kept, and the state saved, and the redraw after the save throws exactly when the currency cannot be formatted |
| Tracker.BudgetTracker.AddExpense | script.js:150-181 | a bad amount is refused first, then a missing category, with nothing changed; otherwise the new expense is at index 0 ahead of the old list, the state is saved, the month's total grows by its amount; the result is the warning tier of the new state, unless the redraw after the save throws, in which case no warning is checked |
| Tracker.BudgetTracker.DeleteExpense | script.js:183-188 | the list becomes the old one without the id, the state is saved and the modal is untouched; the redraw after the save throws exactly when the currency cannot be formatted |
| Tracker.BudgetTracker.ClearAllExpenses | script.js:533-541 | the month's entries go, the remainder plus the old view is the old list, the month's view is empty afterwards, and the state is saved; the redraw after the save throws exactly when the currency cannot be formatted |
| Tracker.BudgetTracker.ChangeCurrency | script.js:91-98 | the currency becomes the given code, the rest is kept and saved; the currency display after the save throws exactly when the code has no entry in the table, and otherwise the page can be drawn |
| Tracker.BudgetTracker.ExportData | script.js:552-564 | the exported snapshot, imported into any state, gives back the current state |
| Tracker.BudgetTracker.ImportData | script.js:566-580 | a file that does not parse is refused with nothing changed; a parsed object is spread over the state and saved, and when the redraw after the save throws, the same catch reports an invalid file although the import stays |
| Tracker.BudgetTracker.ShowModal | script.js:491-495 | the modal opens holding the action |
| Tracker.BudgetTracker.HideModal | script.js:497-500 | the modal closes and the pending action is dropped |
| Tracker.BudgetTracker.ExecuteConfirmAction | script.js:502-507 | the state becomes `Perform` of the pending action in the month of the answer, and it is saved iff an action was pending; the modal closes, unless the action's redraw throws, which skips `hideModal` and leaves the modal open holding the action |
| Tracker.BudgetTracker.ConfirmDeleteExpense | script.js:510-518 | an id in the list opens the modal holding its deletion, unless formatting its amount for the question throws, which leaves everything as it was; an unknown id changes nothing |
| Render.Redraw | script.js:115-130 | for a code shorter than seven characters, a redraw succeeds exactly when the code is three ASCII letters: no inherited name is that short, and every listed code is three letters |
| Render.RedrawCurrency | script.js:100-113 | for a code shorter than seven characters, the currency display succeeds exactly when the code is one of the four in the table |
| Render.EntryFormats | script.js:5-10 | a code the currency display finds can be formatted, and the four listed codes are both found and well formed |
| Render.ShortCodesNotInherited | script.js:5-10 | no code shorter than seven characters is one of the names every object inherits |
| Render.WellFormedCodeWithoutEntry | script.js:100-130 | "XYZ" can be formatted but has no table entry, so the currency display throws on it |
| Render.MalformedCodeFails | script.js:115-130 | "EURO" can neither be formatted nor found |
| Tracker.ExampleStartFails | script.js:23-27 | a stored currency "EURO" makes start-up throw after the state is loaded |
| Tracker.ExampleStuckModal | script.js:502-507 | with a currency that cannot be formatted, a confirmed "clear all" empties the month and saves, but the modal stays open holding the action |
| Tracker.BudgetTracker.ConfirmClearAll | script.js:520-531 | a month with no expenses is refused with nothing changed; otherwise the modal opens holding "clear all" |

## Left out

- Rendering is modelled only as whether a redraw throws on the selected
  currency (`Render.Redraw`, `Render.RedrawCurrency`). Not modelled: the
  DOM, toasts (beyond which warning tier is raised), the Chart.js chart and
  the `destroy` method, and the text of modal messages. Other exceptions in
  the display code, such as a missing DOM element, are not modelled either.
- The text that `formatCurrency`, `formatDate`, `getMonthName` and
  `updateCurrencyDisplay` produce is not modelled. Only whether the two
  currency functions throw is.
- `Intl.NumberFormat` is taken to accept every code of three ASCII letters,
  the well-formedness test of section 6.3.1 of ECMA-402. A runtime that
  rejected some such code would fall back to the table.
- A `selectedCurrency` that is not a string is not modelled. An imported
  file could set one, and looking it up would convert it to a string.
- Event wiring, the keyboard shortcuts, the focus helpers and the debug
  helpers at the end of the file are not modelled: they are user interface
  and call the modelled methods.
- The browser APIs are not modelled: reading and writing `localStorage`, a
  failed save (quota errors), `FileReader`, `Blob` and the download link.
  Storage is the field `storage`; a save always succeeds.
- JSON parsing is not modelled: `ParsedJson` is what `JSON.parse` would
  produce. A parsed value is modelled as an object whose four fields may be
  missing. Not modelled:
  - extra keys, which the spread would copy into the state;
  - non-object values;
  - fields of the wrong type.
- Floating point is not modelled: amounts are exact reals, so rounding in
  sums and in the percentage, and the infinity `parseFloat` can return, are
  absent.
- CategoryTotals.GetCategoryTotals, CategoryTotals.TallyLoop and
  CategoryTotals.TallyCorrect treat every category as an own key of a fresh
  dictionary. A category named after an inherited property of
  `Object.prototype` is not modelled. With "toString", the first lookup
  finds the inherited function, so the total becomes a string or NaN. With
  "__proto__", the assignment sets the prototype and the category is
  missing from the entries.
- CategoryTotals.GetCategoryTotals: the keys are in insertion order.
  JavaScript objects list integer-like keys first, in numeric order; that
  ordering is not modelled, since categories are names.
- Tracker.BudgetTracker.AddExpense: the description is taken as already
  trimmed (`trim()` is a string-library call).
- Tracker.BudgetTracker.AddExpense: the id and the timestamp are
  parameters.
- Tracker.BudgetTracker.AddExpense: the warning is computed for the month
  of the new expense's timestamp. The source reads the clock again, so a
  call at the stroke of midnight at the end of a month could differ.
- Tracker.Start: when start-up throws, the assignment of the global
  `budgetTracker` is skipped. Two entry points reach the object only
  through that global: the delete buttons in the expense list, and the
  Escape key's `hideModal`. Both then fail. The model does not capture
  this loss: its `ConfirmDeleteExpense` and `HideModal` stay callable after
  a failed start.
- Tracker.BudgetTracker.ChangeCurrency: the success toast reads the code's
  display name from the table. That lookup throws only for a code without
  an entry, and for such a code the currency display has already thrown.
  So the toast adds no outcome of its own.
- Tracker.BudgetTracker.ImportData: reading the file is asynchronous in
  the source; the model applies the parsed content in one step.
