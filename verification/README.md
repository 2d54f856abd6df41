# Expense tracker ledger, modelled in Dafny

This project models the transaction ledger of a single-page expense tracker
(`script.js`). The page keeps an array of transactions in memory and mirrors
it to local storage. Each transaction has an id, a description, a positive
amount, a type (`income` or `expense`), a category and a date. From that
array the page draws three views:

- the summary cards: total income, total expense and the balance;
- the transaction list: narrowed by a category filter and sorted with the
  latest day first;
- a doughnut chart of expenses per category.

Three events change the page:

- submitting the form, which validates the input and appends a record;
- deleting a record by id;
- changing the category filter.

The project has six modules:

- `Records` (`records.dfy`): the record type, `filter` and the amount-summing
  `reduce`.
- `Text` (`text.dfy`): `String.prototype.trim`.
- `Summary` (`summary.dfy`): the three figures of `calculateSummary`.
- `Listing` (`listing.dfy`): the filtered, stable, date-descending list of
  `renderTransactions`.
- `Chart` (`chart.dfy`): the per-category expense series of `updateChart`.
- `Tracker` (`ledger.dfy`): form validation, deletion, and the class `Ledger`.
  `Ledger` holds the page state: the ledger, the stored copy, the filter
  value, and what the three views show. Its methods are the source's
  functions and event handlers.

The aggregations are functions with lemmas. The state changes are methods of
`Ledger` that keep a class invariant, `Valid()`.

The code behaves a little differently from the plain reading "the stored copy
equals the ledger after every add and delete". Both handlers store the array
*before* `renderTransactions` runs. Under the filter "all", the list that
`renderTransactions` sorts is the ledger array itself, so it reorders the
ledger in place after it was stored. The model therefore proves three things:

- after an add or a delete, the ledger is the stored copy, sorted when the
  filter is "all";
- the stored copy always holds the ledger's records with the same totals
  (`Tracker.StoredCopy`);
- under "all" a reload would draw exactly the current ledger.

The chart is not redrawn when the filter changes. It can therefore show its
labels in the order of the unsorted ledger while the ledger itself has been
sorted. The invariant allows for both orders, and `Chart.ChartPermutation`
shows that both orders give the same labels with the same values.

## Model

| member | source | states |
|---|---|---|
| Records.Filter | script.js:56-58 | `Array.prototype.filter` on records: never longer than its input; it has no further contract of its own and is characterised by FilterCount, FilterMembers, FilterConcat, FilterKeepsAll, FilterIdempotent and FilterPermutation |
| Records.FilterCount | script.js:56-58 | `filter` keeps each accepted record as often as it occurs and drops every rejected one |
| Records.FilterMembers | script.js:56-58 | a record is in the filtered array exactly when it is in the array and the predicate accepts it |
| Records.FilterConcat | script.js:208 | filtering works piece by piece, so kept records keep their relative order |
| Records.FilterKeepsAll | script.js:208 | a filter that accepts every record returns the array unchanged |
| Records.FilterIdempotent | script.js:208 | filtering twice by one predicate equals filtering once |
| Records.FilterPermutation | script.js:31-37 | filtering reordered arrays gives reordered results |
| Records.Sum | script.js:31-37 | the `reduce((sum, t) => sum + t.amount, 0)` fold, left to right; no contract of its own, characterised by SumConcat, FilterSumAppend, SumPermutation, SumPositive and FilterSumPositive |
| Records.SumConcat | script.js:31-37 | the `reduce` sum over two pieces is the sum of the two sums |
| Records.FilterSumAppend | script.js:31-37 | appending a record adds its amount to a filtered sum exactly when the filter accepts it |
| Records.SumPermutation | script.js:31-37 | the sum does not depend on the order of the records |
| Records.SumPositive | script.js:31-37 | positive amounts sum to zero exactly for no records, otherwise to more than zero |
| Records.FilterSumPositive | script.js:31-37 | over positive amounts a filtered sum is never negative, and is zero exactly when no record is accepted |
| Text.TrimStart | script.js:173 | drops exactly the leading ECMAScript white space |
| Text.TrimEnd | script.js:173 | drops exactly the trailing ECMAScript white space |
| Text.Trim | script.js:173 | `trim` leaves a piece of the input with only white space cut from both ends; empty exactly when the input is all white space, otherwise without white space at either end |
| Summary.Summarize | script.js:30-39 | the three figures of `calculateSummary`; no contract of its own, characterised by SummarizeAppend, BalanceIsSignedSum, SummarizePermutation and SummarizeNonNegative |
| Summary.SummarizeAppend | script.js:30-39 | a new record moves income by its amount exactly when its type is "income" and expense exactly when it is "expense"; balance stays income minus expense |
| Summary.BalanceIsSignedSum | script.js:30-39 | the empty ledger has all three figures 0; the balance is the running total of signed amounts |
| Summary.SummarizePermutation | script.js:30-39 | reordering the ledger changes none of the three figures |
| Summary.SummarizeNonNegative | script.js:30-39 | with positive amounts, income and expense are never negative and each is 0 exactly when no record has its type |
| Listing.Insert | script.js:61 | one step of the date-descending sort; no contract of its own, characterised by InsertSorted and InsertStable |
| Listing.SortByDateDesc | script.js:61 | `sort((a, b) => new Date(b.date) - new Date(a.date))`, a stable sort; no contract of its own, characterised by SortCorrect, SortStable, SortKeepsSorted, SortIsStableSort and SortKeepsPositive |
| Listing.InsertSorted | script.js:61 | one insertion step keeps the list date-descending and adds exactly the one record |
| Listing.SortCorrect | script.js:61 | the sorted list is date-descending and a permutation of the input |
| Listing.InsertStable | script.js:61 | an insertion step keeps each day's records in their order |
| Listing.SortStable | script.js:61 | the sort is stable: for every day, that day's records keep their relative order |
| Listing.SortKeepsSorted | script.js:61 | sorting a list already in date-descending order leaves it unchanged |
| Listing.SortedUnique | script.js:61 | two date-descending lists that agree day by day are equal |
| Listing.SortIsStableSort | script.js:61 | any date-descending list that keeps each day's order is the sort's result |
| Listing.SortKeepsPositive | script.js:61 | sorting keeps every amount positive |
| Listing.Visible | script.js:56-58 | the list before sorting: the ledger under "all", otherwise the records of the chosen category; no contract of its own, characterised by RenderedList |
| Listing.RenderedList | script.js:56-61 | the drawn list is sorted and stable; under "all" it holds every record of the ledger, otherwise exactly the records of the filtered category, each as often as in the ledger |
| Chart.Labels | script.js:99 | `Object.keys` lists the keys in insertion order |
| Chart.Values | script.js:100 | `Object.values` lists the values in the same order |
| Chart.Lookup | script.js:95 | `acc[c] \|\| 0`; no contract of its own, characterised by Bump, TallyTotals and LookupAt |
| Chart.Bump | script.js:95 | `acc[c] = (acc[c] \|\| 0) + a` keeps an existing key in place and grows it by `a`, or appends a new key holding `a` |
| Chart.Tally | script.js:92-97 | the `reduce` that groups amounts by category; no contract of its own, characterised by TallyKeys, TallyTotals and TallyOrder |
| Chart.ExpenseData | script.js:92-97 | the grouping applied to the expense records only; no contract of its own, characterised by ExpenseCategories and ChartSeries |
| Chart.ChartFor | script.js:99-109 | what `updateChart` hands to the chart: "no data", or the labels and values; no contract of its own, characterised by ChartNoData, ChartSeries and ChartPermutation |
| Chart.TallyKeys | script.js:92-97 | the grouped object's keys are distinct and are exactly the categories present |
| Chart.TallyTotals | script.js:92-97 | each key holds the sum of the amounts of its category; an absent category reads as 0 |
| Chart.TallyOrder | script.js:92-99 | keys appear in the order in which their categories first occur |
| Chart.FirstIndex | script.js:92-99 | the first position of a category among the records |
| Chart.ExpenseCategories | script.js:92-99 | a category is a label exactly when some expense record has it |
| Chart.ChartNoData | script.js:104-109 | the chart shows "no data" exactly when the ledger has no expense record |
| Chart.ChartSeries | script.js:92-100 | otherwise: as many values as labels, labels distinct and exactly the categories among the expense records, in first-occurrence order among expense records, each value its category's expense total |
| Chart.ChartPermutation | script.js:92-109 | reordering the ledger keeps the "no data" status, the label set and every label's value |
| Tracker.Validate | script.js:173-191 | a form is refused exactly when the trimmed description is empty, the amount is NaN or not above 0, or the date is empty; otherwise the record carries the id, the trimmed description and the other fields |
| Tracker.Without | script.js:208 | `transactions.filter(t => t.id !== id)`; no contract of its own, characterised by DeleteKeepsOthers, DeleteAbsent, DeleteIdempotent and DeleteKeepsPositive |
| Tracker.DeleteKeepsOthers | script.js:208 | deleting keeps every record with another id, each as often as before, and drops every record with the id |
| Tracker.DeleteAbsent | script.js:208 | deleting leaves the ledger unchanged exactly when no record has the id |
| Tracker.DeleteIdempotent | script.js:208 | deleting the same id twice equals deleting it once |
| Tracker.AddKeepsPositive | script.js:179-193 | appending an accepted record keeps all amounts positive |
| Tracker.DeleteKeepsPositive | script.js:208 | deleting keeps all amounts positive |
| Tracker.Arranged | script.js:56-61 | the ledger after `renderTransactions`: sorted in place under "all", untouched otherwise; no contract of its own, used by RenderTransactions, Redrawn and FilterRedrawn |
| Tracker.Consistent | script.js:193-198 | the class invariant on values: the ledger is the stored copy sorted, or (under a category filter) the stored copy itself; the summary and the rows are drawn from the ledger; the chart from the stored copy in either order; no contract of its own, established by Redrawn and FilterRedrawn and read by StoredCopy |
| Tracker.Ledger.Valid | script.js:193-198 | `Consistent` over the object's fields; no contract of its own, kept by every method of `Ledger` |
| Tracker.Redrawn | script.js:195-198 | storing, then drawing summary, list and chart, leaves every view consistent with storage |
| Tracker.FilterRedrawn | script.js:216-218 | redrawing only the list under a new filter keeps every view consistent |
| Tracker.StoredCopy | script.js:26-28 | the stored copy holds the ledger's records with the same totals; under "all" the ledger is the stored copy sorted |
| Tracker.Ledger.constructor | script.js:2 | start-up: the stored array, or an empty one, is loaded and drawn under "all", which sorts it; the chart shows the sorted ledger; positive stored amounts give a positive ledger |
| Tracker.Ledger.UpdateLocalStorage | script.js:26-28 | the stored copy becomes the ledger |
| Tracker.Ledger.CalculateSummary | script.js:30-39 | the summary becomes the ledger's three figures |
| Tracker.Ledger.RenderTransactions | script.js:53-61 | the rows become the sorted visible records; under "all" the ledger itself is sorted in place, otherwise it is untouched |
| Tracker.Ledger.UpdateChart | script.js:91-109 | the chart becomes the expense series of the ledger, or "no data" |
| Tracker.Ledger.Refresh | script.js:195-198 | storage and all three views are redone, keeping the invariant; the stored copy is the ledger before sorting; the chart shows the new ledger; positive amounts stay positive |
| Tracker.Ledger.Submit | script.js:170-204 | a refused form changes nothing and reports the error; an accepted one stores the old ledger plus the record at its end, redraws (the chart shows the new ledger) and reports success; a positive ledger stays positive in storage and in memory |
| Tracker.Ledger.Delete | script.js:207-213 | stores the ledger without the id's records, redraws (the chart shows the new ledger) and reports the deletion; a positive ledger stays positive in storage and in memory |
| Tracker.Ledger.ChangeFilter | script.js:216-218 | only the list is redrawn: under "all" the ledger is sorted in place; storage, summary and chart stay as they were; a positive ledger stays positive |

## Left out

- DOM work: reading the form, building table rows, toggling classes, the
  icons, and the "No transactions found" row. The rows are kept only as the
  list of records they show.
- Chart.js: building, destroying and styling the chart. The chart is the
  pair of series it is given, or "no data".
- `Intl.NumberFormat` and `toLocaleDateString` formatting.
- `localStorage` and JSON. The stored copy is a field that `updateLocalStorage`
  overwrites. Start-up receives the stored array, or none when the key is
  absent. A malformed stored payload, which would make `JSON.parse` throw, is
  not modelled.
- Toast notifications and their timers. A handler returns the toast it would
  show, as a message and a kind.
- `Date.now()`. The new record's id is a parameter, and ids are not assumed
  to be unique.
- Floating point. Amounts are exact reals, so rounding in the sums is not
  modelled. `parseFloat` is taken as already applied, with NaN as `None`.
  Its edge cases, such as `Infinity` passing the check, are not modelled.
- Dates are whole day numbers. Two dates compare the way
  `new Date(b.date) - new Date(a.date)` compares two valid date strings. An
  invalid date, for which the comparator yields NaN, is not modelled.
- The form reset and the default date after a successful add (script.js:200-202).
- Chart.Labels: the grouping object is a plain JavaScript object, and none of
  its quirks is modelled, because categories come from a fixed list of names.
  JavaScript puts integer-like keys before all others. A category named after
  an `Object.prototype` property reads the inherited value: for `toString`,
  `acc[c] || 0` is a function and `+` joins text. An assignment to
  `__proto__` is ignored, so that category never becomes a key.
- Tracker.Ledger.constructor: `init` always draws the list under "all". The
  filter is set to "all" as well. A browser that restores a different select
  value on reload is not modelled.
