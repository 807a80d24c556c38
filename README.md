# Expense tracker: store, monthly aggregation and list view

A Dafny model of a single-page personal expense tracker. Expenses are kept in
one persisted key-value slot named `'expenses'` that holds the whole list of
records. The list is read in full and written back in full on every add. The
page shows this month's total and this month's records, most recent first,
each with a category glyph and a label.

Modules:

- `Wrappers` (`wrappers.dfy`): `Option`, used for a slot that may be absent.
- `Expenses` (`expenses.dfy`): the data model. `Expense` has an id, an amount,
  a category, a note and a date. `Timestamp` has the millisecond time value
  and the local year, 0-based month and day of that moment. `YearMonth` is
  "now" as a year and a month. `InMonth` and `DescendingByDate` are the
  predicates the contracts use.
- `Storage` (`storage.dfy`), modelling `js/storage.js`:
  - the class `ExpenseStorage`, whose field `slot: Option<seq<Expense>>`
    stands for the persisted slot;
  - its methods `GetExpenses`, `AddExpense`, `GetCurrentMonthExpenses` and
    `GetMonthTotal`;
  - the pure filter `CurrentMonth` and the left-to-right sum `Total`, with
    the lemmas about them.
- `View` (`view.dfy`), modelling `js/app.js`:
  - the `CategoryEmojis` table;
  - `RenderItems`, the per-record item construction;
  - `SortByDateDesc`, an in-place insertion sort on an array, standing for
    the in-place `sort`;
  - `DisplayExpenses`, the list-view builder;
  - `HandleFormSubmit`, the form submit.
- `Scenarios` (`view.dfy`): a client that adds one record from last month and
  one from this month, and proves what the page then shows.

Modelling choices:

- Amounts are integers in minor currency units.
- "Now" is a `YearMonth` parameter. The submit reads the clock four times:
  for the id (`Date.now()`), for the date (`new Date()`), and once each when
  the total and the list are recomputed. These are the parameters `clock`,
  `at`, `totalNow` and `listNow`.
- The reading methods (`GetExpenses`, `GetCurrentMonthExpenses`,
  `GetMonthTotal`, `DisplayExpenses`) have no `modifies` clause. Dafny
  therefore guarantees that they leave the slot as it was.
- `GetExpenses`, `GetCurrentMonthExpenses` and `GetMonthTotal` also give the
  same result when called again without an add, because their contracts
  determine the result. `DisplayExpenses` does not: its contract leaves the
  order of records with equal time values open.
- A category outside the table is shown as the text `undefined`, which is
  what the page's template prints for a missing entry.
- The code does not validate the amount or the category, so the model
  accepts any record.

## Model

| member | source | states |
|---|---|---|
| Expenses.InMonth | js/storage.js:26-28 | definition: the record's month and year both equal those of now |
| View.CategoryEmojis | js/app.js:4-11 | definition: the six category keys and their emojis |
| Storage.ExpenseStorage.Contents | js/storage.js:7 | definition: what the slot holds, the empty list when it is absent |
| Storage.Total | js/storage.js:35 | definition: the amounts summed left to right from 0, as `reduce` does |
| Storage.MonthTotal | js/storage.js:33-35 | definition: `Total` of the month filter |
| View.Glyph | js/app.js:86 | definition: the table's entry for the category, or `undefined` |
| View.Label | js/app.js:87 | definition: the note when it is non-empty, otherwise the category |
| View.ItemOf | js/app.js:76-93 | definition: the item of one record (glyph, label, day, month, amount) |
| Storage.ExpenseStorage.constructor | js/storage.js:6-7 | a fresh store's slot is absent |
| Storage.ExpenseStorage.GetExpenses | js/storage.js:5-8 | an absent slot reads as the empty list; otherwise the stored list is returned; nothing is modified |
| Storage.ExpenseStorage.AddExpense | js/storage.js:11-16 | the slot afterwards holds the old list followed by the record: one longer, last element the record, earlier elements unchanged; the record given is returned |
| Storage.ExpenseStorage.GetCurrentMonthExpenses | js/storage.js:19-30 | the result is the order-preserving month filter of the stored list; every returned record has the month and the year of `now`; nothing is modified |
| Storage.ExpenseStorage.GetMonthTotal | js/storage.js:33-36 | the result is the sum of amounts over this month's records, and 0 when there are none; nothing is modified |
| Storage.CurrentMonth | js/storage.js:25-29 | the filter's result is no longer than its input; every kept record matches both month and year (a same-month record from another year is dropped); a record is kept exactly when it is stored and in the month |
| Storage.CurrentMonthAppend | js/storage.js:25-29 | the filter distributes over concatenation, so it keeps stored order |
| Storage.CurrentMonthCount | js/storage.js:25-29 | each record occurs in the result as often as it is stored if it is in the month, and not at all otherwise: nothing dropped, duplicated or added |
| Storage.CurrentMonthOfMonthOnly | js/storage.js:25-29 | a list of records all in the month is returned unchanged |
| Storage.TotalAppend | js/storage.js:35 | the sum over a concatenation is the sum of the two sums |
| Storage.MonthTotalOfNone | js/storage.js:33-35 | with no record in the month, the filter is empty and the month total is 0 |
| Storage.MonthTotalAfterAppend | js/storage.js:11-35 | appending a record raises the month total by its amount when it is in the month and leaves it unchanged otherwise |
| View.GlyphOfEachCategory | js/app.js:4-11 | the table has exactly the six keys comida, transporte, entretenimiento, salud, hogar and otros, each with its fixed emoji; a missing key shows as `undefined` |
| View.RenderItems | js/app.js:75-94 | one item per record, in the same order; an item's text is the note when the note is non-empty and the category otherwise; its glyph is the table's entry for the category; its day, month and amount are the record's |
| View.SortByDateDesc | js/app.js:72 | the array ends up ordered by time value, most recent first, and is a permutation of its old contents |
| View.DisplayExpenses | js/app.js:61-95 | the empty state exactly when the month has no records; otherwise the items of `order`, one per month record, which is a most-recent-first permutation of the month's records (nothing dropped or duplicated); nothing is modified |
| View.HandleFormSubmit | js/app.js:23-52 | exactly one record is appended, with id `clock`, the form's amount, category and note, and date `at`; the returned total is the new month total for `totalNow`, and the returned list satisfies what `DisplayExpenses` promises for the new contents and `listNow`; the two months may differ |
| Scenarios.TwoRecordMonth | js/storage.js:19-36 | with one record from the previous month and one from this month, only this month's is in the filter and the total is its amount |
| Scenarios.OneRecordView | js/app.js:75-94 | a list of a single record whose note is empty shows one item, labelled by the record's category |
| Scenarios.PreviousMonthExcluded | js/app.js:41-45 | a client of the store and the submit: after those two adds, the total is 2000 and the list shows one item, labelled by its category |

## Left out

- `service-worker.js` is not part of this model. It only caches assets in the browser and has no logic over the records.
- Serialisation: the slot holds the list itself. `JSON.stringify` followed by `JSON.parse` is taken to be the identity. A slot that cannot be parsed, where `JSON.parse` would throw, is not modelled.
- Storage.ExpenseStorage.GetExpenses: the page treats any falsy slot text as absent, including an empty string. Only `JSON.stringify` output is ever written, so that case cannot arise and the model has no text slot.
- Floating point: `parseFloat` (and a NaN amount), floating-point summation in `reduce`, and `toFixed(2)` formatting are not modelled. Amounts are exact integers.
- Dates: the conversion from the ISO date string to a time value and to local calendar fields is done by the browser's `Date`. The model takes the time value and the fields as given in `Timestamp`. The locale short date (`toLocaleDateString`) is reduced to the day and month carried by an item.
- Clock reads (`new Date()`, `Date.now()`) are parameters.
- DOM wiring is not modelled: the load listener, `getElementById`, the markup strings, `innerHTML`, `textContent`, `preventDefault`, `form.reset()` and `scrollIntoView`. `updateMonthTotal` is represented only by the total that `HandleFormSubmit` returns.
- View.GlyphOfEachCategory: the table is a plain object, so keys such as `toString` would find inherited properties. The model treats every key outside the six as missing.
- View.SortByDateDesc: does not state that records with equal time values keep their relative order. The page's `sort` is stable, but the contract leaves the order of records with equal time values open.
- Storage.ExpenseStorage.AddExpense: always succeeds. On the page `localStorage.setItem` can throw, when the storage quota is exceeded or storage is unavailable. Nothing is then stored, and the submit stops before the total and the list are redrawn. The model has no failing storage.
- Storage.ExpenseStorage.GetExpenses: always succeeds. On the page `localStorage.getItem` throws when the browser blocks site storage. On page load that aborts the load handler before the submit listener is registered. The model has no failing storage.
- Record ids are not proved unique. The page derives them from the clock and does not check them.
