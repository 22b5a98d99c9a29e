# ExpenseTracker core in Dafny

This project models the core of ExpenseTracker, a React Native personal
expense tracker. The core has three parts.

- **The local document store** (`src/utils/storage.js`). One JSON file holds
  categories, payment methods, expenses and settings. The store offers
  `loadData`, `saveData`, `addExpense`, `getExpenses`, `addPaymentMethod`,
  `getPaymentMethods`, `exportBackup` and `importBackup`.
- **The screen logic that computes over that document.**
  - The home screen: total, balance, recent list, top three categories and the progress ring.
  - The history screen: period, category and search filters, the month grouping, the category chips.
  - The reports screen: per-category totals.
  - The add-expense form: validation, the record it submits, what a save does to the form.
  - The payment-methods form: name check, the record it submits, what an add does to the screen.
- **Two small state machines**: the theme selector (`src/utils/theme.js`) and
  the unlock flag (`src/utils/auth.js`).

Everything is pure functions over immutable datatypes.

- The file system is a `Disk`: a map of file contents, plus the paths whose
  writes throw and the paths whose reads throw.
- The wall clock is a `Clock` value: one reading per operation.
- `JSON.stringify`/`JSON.parse` form a `Codec` parameter. The store laws
  assume only that parsing what was serialized gives the document back.
- `new Date(text)` is a `DateParser` parameter that yields a local calendar
  reading, or nothing for an invalid date.
- `parseFloat` is a parameter of the add-expense form. Amounts are `real`s.

Modules, one per source concern:

| module | file | covers |
|---|---|---|
| `Common` | common.dfy | `Option`, `Array.prototype.filter`, subsequences, duplicate-freedom |
| `Strings` | strings.dfy | `String(n)`, `padStart`, `trim`, `toLowerCase`, `includes`, `split(c)[0]`, code-point order |
| `Sorting` | sorting.dfy | `Array.prototype.sort` with a comparator, as a stable insertion sort |
| `Records` | records.dfy | the document and its records, `categories.find`, sums of amounts |
| `Storage`, `StorageLaws` | storage.dfy, storage_laws.dfy | the store operations, and laws relating several of them |
| `Grouping` | grouping.dfy | the "walk the expenses, accumulate into an object keyed by X" loop the three screens share |
| `Calendar` | calendar.dfy | the `Date` arithmetic the history screen uses (weekday, `setDate` rollover, day 0 of a month) |
| `History`, `Home`, `Reports` | history.dfy, home.dfy, reports.dfy | the screens' computations |
| `AddExpenseForm`, `PaymentMethodsForm` | add_expense.dfy, payment_methods.dfy | the two forms' save actions |
| `Theme`, `Auth` | theme.dfy, auth.dfy | the theme selector and the unlock flag |

Where the code and the system's written description differ, the model
follows the code:

- `loadData` performs no migration. In particular, no "Others" category is ever added.
- An expense stores `paymentMethod` as the chosen method's *name*, not as a
  `paymentMethodId`. The form submits `amount` as a parsed number, not as a
  decimal string.
- `addExpense` and `addPaymentMethod` ignore the result of their save. They
  return the new record even when the write failed.

## Model

| member | source | states |
|---|---|---|
| Storage.DefaultData | src/utils/storage.js:6-25 | The first-run document has seven categories with ids "1".."7", the single cash method `{id: "cash", type: "cash"}`, no expenses, currency ₹ and version "1.0", and it is stamped with the clock reading |
| Storage.LoadData | src/utils/storage.js:28-45 | A missing file is created holding the default document, unless that write throws, in which case the default is still returned. An existing file is parsed. A read or parse failure gives a default document and leaves the corrupt file on disk. No other file ever changes |
| Storage.Stamped | src/utils/storage.js:50-53 | The saved document differs from the given one only in `lastUpdated`, which is the clock's ISO text |
| Storage.SaveData | src/utils/storage.js:48-60 | Reports true exactly when the data file is writable. In that case the file holds the serialized stamped document. On false the disk is unchanged |
| Storage.MintExpense | src/utils/storage.js:66-70 | The id is `exp_<ms>` unless the caller gives one, `createdAt` is the clock's ISO text, and every other field is the caller's |
| Storage.AddExpense | src/utils/storage.js:63-78 | Returns nothing exactly when the loaded document has no expense list. Otherwise it returns the minted record whatever the save reported. Only the data file can change |
| Storage.GetExpenses | src/utils/storage.js:81-89 | Yields the expense list of the document `loadData` returns, with the disk as that load leaves it: the empty list on first run, and an untouched disk when the file exists |
| Storage.MintPaymentMethod | src/utils/storage.js:95-98 | The id is `pm_<ms>` unless the caller gives one, and the other fields are the caller's |
| Storage.AddPaymentMethod | src/utils/storage.js:92-106 | Returns nothing exactly when the loaded document has no payment-method list. Otherwise it returns the minted record. Only the data file can change |
| Storage.GetPaymentMethods | src/utils/storage.js:109-117 | Yields the payment methods of the document `loadData` returns, with the disk as that load leaves it: the single cash method on first run, and an untouched disk when the file exists |
| Storage.BackupIsNotDataFile | src/utils/storage.js:123-124 | A backup path never equals the data file's path |
| Storage.ExportBackup | src/utils/storage.js:120-132 | Returns the time-stamped backup path exactly when that file is writable. The file then holds the pretty-printed loaded document, and every other file is as the load left it |
| Storage.ImportBackup | src/utils/storage.js:135-145 | Reports true exactly when the file can be read and parsed, and then saves the parsed document. On false nothing changes |
| StorageLaws.FirstRunPersistsDefault | src/utils/storage.js:28-37 | A first load writes the default document, and a later load reads back that same document |
| StorageLaws.CorruptFileReplacedOnAdd | src/utils/storage.js:39-78 | A file that does not parse loads as a default document, and the next add overwrites it with that default plus the new expense |
| StorageLaws.SaveThenLoad | src/utils/storage.js:39-60 | Saving then loading gives back the saved document, with only `lastUpdated` replaced |
| StorageLaws.AddExpenseThenLoad | src/utils/storage.js:63-78 | After an add on a store whose data file can be read and written (a fresh store included), the new record is at index 0 and every old expense has moved up one place. Categories, payment methods, settings and version are unchanged |
| StorageLaws.AddPaymentMethodThenLoad | src/utils/storage.js:92-106 | After an add on a store whose data file can be read and written (a fresh store included), the new method is last after the old ones, and every other field is unchanged |
| StorageLaws.FirstAddOnFreshStore | src/utils/storage.js:28-78 | On a fresh store, the first add returns its minted record, and a later load finds that record as the only expense |
| StorageLaws.AddExpenseThenGet | src/utils/storage.js:63-89 | After an add on a store whose data file can be read and written (present or not), `getExpenses` yields the new record ahead of the list it yielded before, and writes nothing |
| StorageLaws.AddPaymentMethodThenGet | src/utils/storage.js:92-117 | After an add on a store whose data file can be read and written (present or not), `getPaymentMethods` yields the earlier methods followed by the new one, and writes nothing |
| StorageLaws.AddAllNewestFirst | src/utils/storage.js:63-78 | A run of adds leaves the records in reverse call order, ahead of the earlier expenses |
| StorageLaws.AddAllReturnsMinted | src/utils/storage.js:63-78 | Each add of such a run returns its own minted record |
| StorageLaws.AddAllThenLoad | src/utils/storage.js:63-78 | The same run, as seen by a later `loadData` |
| StorageLaws.ExportThenImport | src/utils/storage.js:120-145 | Exporting and then importing the backup restores the document seen at export time, re-stamped by the import |
| Strings.Decimal | src/utils/storage.js:67 | `String(n)` is a digit string denoting `n`, with no leading zero |
| Strings.DecimalInjective | src/utils/storage.js:67 | Distinct clock readings mint distinct ids |
| Strings.TrimBlank | src/screens/PaymentMethodsScreen.js:35 | `trim()` gives the empty string exactly when every character is JavaScript white space |
| Strings.BeforeFirstOf | src/screens/AddExpenseScreen.js:21 | `split('T')[0]` of `day + "T" + time` is `day` when `day` has no `T` |
| Sorting.Sort | src/screens/HistoryScreen.js:44 | The result is ordered by the comparator and is a permutation of the input |
| Records.FindCategory | src/screens/ReportsScreen.js:35 | Gives nothing exactly when no category has the id. Otherwise it gives the first category that has it |
| Grouping.AddTo | src/screens/HistoryScreen.js:40-42 | An expense joins the group with its key, or starts a new group at the end when there is none, and the running total grows by its amount |
| Grouping.BucketsDescribe | src/screens/HistoryScreen.js:35-43 | After the loop, keys are distinct, each group holds exactly its key's expenses in input order, groups are non-empty, each total is its group's sum, and every keyed expense has a group |
| Grouping.BucketsTotal | src/screens/ReportsScreen.js:33-46 | The group totals add up to the sum of the keyed expenses' amounts |
| Grouping.TotalOfPermutation | src/screens/HistoryScreen.js:44 | Reordering the groups keeps their grand total |
| Calendar.DaysInMonth | src/screens/HistoryScreen.js:81 | Day 0 of a month is the last day of the month before: 28 to 31 days, and February has 29 exactly in leap years |
| Calendar.PreviousMonth | src/screens/HistoryScreen.js:80 | Month index −1 rolls back to December of the year before |
| Calendar.MonthBoundary | src/screens/HistoryScreen.js:81 | The first of a month is the day after the last day of the month before |
| Calendar.DaysBackCounts | src/screens/HistoryScreen.js:78 | `setDate(d - k)` rolls into the previous month when the day becomes non-positive, and lands exactly `k` days back |
| Calendar.SundayIsSunday | src/screens/HistoryScreen.js:78 | `setDate(getDate() - getDay())` lands on a Sunday, at most six days back |
| History.MonthKeySame | src/screens/HistoryScreen.js:38 | For four-digit years, two dates have equal keys exactly when they are in the same month |
| History.MonthKeyOrder | src/screens/HistoryScreen.js:44 | For four-digit years, comparing keys as text is comparing months in time |
| History.GroupByMonthDescending | src/screens/HistoryScreen.js:34-45 | Month keys strictly descend, so no month is listed twice |
| History.GroupByMonthExact | src/screens/HistoryScreen.js:34-45 | Each month group holds exactly that month's expenses in stored order, with their sum, and every expense's month has a group. An invalid date groups under "NaN-NaN" |
| History.GroupByMonthTotal | src/screens/HistoryScreen.js:34-45 | The month totals add up to the sum of all the expenses |
| History.PeriodsListed | src/screens/HistoryScreen.js:47 | Each of the four periods is offered once, under a label of its own |
| History.SourceBounds | src/screens/HistoryScreen.js:77-81 | The period bounds as the code builds them: the corrected bounds, except that the week start keeps the current time of day and the end of last month is midnight at the start of its last day |
| History.SourceWeekMissesEarlySunday | src/screens/HistoryScreen.js:78-84 | As written, an expense from early this Sunday is dropped from "This Week" (see Findings) |
| History.SourceLastMonthMissesLastDay | src/screens/HistoryScreen.js:81-91 | As written, an expense from after midnight on last month's last day is dropped from "Last Month" (see Findings) |
| History.ThisWeekIsFromSunday | src/screens/HistoryScreen.js:83-84 | With the corrected bounds, "This Week" keeps exactly the dates from this week's Sunday on |
| History.ThisMonthIsFromFirst | src/screens/HistoryScreen.js:85-86 | "This Month" keeps exactly the dates from the first of the current month on |
| History.LastMonthIsPreviousMonth | src/screens/HistoryScreen.js:87-91 | With the corrected bounds, "Last Month" keeps exactly the dates of the previous calendar month |
| History.PeriodStageSpec | src/screens/HistoryScreen.js:83-92 | For any bounds, the period stage keeps stored order, and keeps each expense whose date is in the period as often as it is stored and no other. An invalid date is never in a period other than "All" |
| History.CategoryStageSpec | src/screens/HistoryScreen.js:94-96 | With chips selected, the stage keeps each expense whose category id is selected, as often as it is stored, and no other. With none selected it keeps all |
| History.SearchStageSpec | src/screens/HistoryScreen.js:98-104 | A non-blank search keeps each expense whose lower-cased description or category name contains the lower-cased query, as often as it is stored, and no other |
| History.FilterExpensesSpec | src/screens/HistoryScreen.js:73-107 | For any period bounds, the list is empty without a stored list. Otherwise it is a subsequence of the stored expenses holding each expense that passes every active filter as often as it is stored, and no other |
| History.UnfilteredShowsAll | src/screens/HistoryScreen.js:73-107 | With period "All", no chips and a blank search, every stored expense is shown, in order, whatever the bounds |
| History.ScreenShowsNoMore | src/screens/HistoryScreen.js:77-92 | An expense that passes the filters with the bounds as written also passes them with the corrected bounds |
| History.ScreenListWithinCorrected | src/screens/HistoryScreen.js:73-107 | The list the screen shows never holds an expense more often than the corrected list does |
| History.ScreenListCorrectOnMonth | src/screens/HistoryScreen.js:77-86 | For "All" and "This Month" the screen's list is the corrected list |
| History.SearchUsesUntrimmedQuery | src/screens/HistoryScreen.js:98-103 | Only the decision to search trims the query. Matching uses the untrimmed text, so "food " does not match "Food" |
| History.ToggleCatFlips | src/screens/HistoryScreen.js:111-115 | Toggling flips the chip's selection and leaves every other chip alone |
| History.ToggleTwice | src/screens/HistoryScreen.js:111-115 | Toggling an unselected chip twice restores the selection exactly |
| History.ClearFilters | src/screens/HistoryScreen.js:117-120 | Clearing keeps the search text |
| History.ClearFiltersDeactivates | src/screens/HistoryScreen.js:117-122 | After clearing, the filter badge is off, and only the search can hide an expense |
| Home.CurrentBalance | src/screens/HomeScreen.js:90-91 | Balance plus spending is the fixed income of 65000 |
| Home.RecentExpenses | src/screens/HomeScreen.js:92 | The list is the first `min(5, n)` stored expenses, a prefix of the stored list, and empty without a list |
| Home.Ranked | src/screens/HomeScreen.js:104 | The category groups are ordered by non-increasing total and are a permutation of the loop's groups |
| Home.TopCategoriesExact | src/screens/HomeScreen.js:94-105 | The list holds min(3, number of category names with expenses) entries. They come largest total first, under distinct names, and each total is the sum of the amounts of the expenses whose category has that name |
| Home.TopCategoriesAllWhenFew | src/screens/HomeScreen.js:94-105 | With fewer than three entries, every category name some expense carries is listed |
| Home.TopCategoriesDominate | src/screens/HomeScreen.js:104 | No category name left off the list has a larger total than any name on it |
| Home.RingAngles | src/screens/HomeScreen.js:20-25 | Both half-disc angles lie in [0, 180] and add up to the clamped progress times 360, and the left half starts only once the right half is full |
| Home.RingProgress | src/screens/HomeScreen.js:152 | The progress is spending over income when spending is below income, and 1 otherwise; it equals 1 exactly when spending reaches income |
| Home.RingFullWhenIncomeSpent | src/screens/HomeScreen.js:20-25 | The ring is full exactly when spending reaches income, and empty when nothing has been spent |
| Home.MonthTotalsAddUp | src/screens/HomeScreen.js:89 | The history screen's month totals add up to the home screen's total |
| Home.AddExpenseOnHome | src/screens/HomeScreen.js:89-92 | After an add on a writable store (a fresh one included), the total grows by the amount, the balance drops by it, and the new record heads the recent list ahead of the previous first four |
| Reports.CategoryTotals | src/screens/ReportsScreen.js:30-49 | No entries without an expense list. The call fails (`None`) exactly when some expense must be looked up but there is no category list |
| Reports.CategoryTotalsExact | src/screens/ReportsScreen.js:30-49 | Names are distinct. Each total is the sum of its name's matched amounts. Each icon is that of the category the name's first expense finds. Every matched expense's name has an entry |
| Reports.CategoryTotalsSum | src/screens/ReportsScreen.js:33-46 | The totals add up to the amounts of the expenses whose category id finds a category |
| Reports.UnmatchedExpenseIgnored | src/screens/ReportsScreen.js:36 | An expense whose category id finds nothing leaves the report unchanged |
| Reports.TopCategoriesAreReported | src/screens/ReportsScreen.js:30-49 | Every home-screen top category is a report entry with the same total |
| Theme.GetTheme | src/utils/theme.js:48-50 | The dark table exactly for "dark", and the light table for any other name |
| Theme.SetTheme | src/utils/theme.js:54-58 | The theme changes first. A failed write rejects with no listener called. A successful write stores the name, then calls each listener once, in subscription order, with the name |
| Theme.LoadTheme | src/utils/theme.js:52-70 | A stored non-empty name is adopted unchecked. An absent or empty entry, or a failing read, keeps the current theme. The result equals `getCurrentTheme` afterwards |
| Theme.Subscribe | src/utils/theme.js:72-73 | The listener joins at the end, and the rest is unchanged |
| Theme.UnsubscribeRemovesAll | src/utils/theme.js:74-76 | Unsubscribing removes every copy of the listener, and keeps every other listener as often as before and in order |
| Theme.SubscribeThenUnsubscribe | src/utils/theme.js:72-76 | Subscribing and then unsubscribing restores the list when the listener was new. Otherwise it removes all its copies |
| Theme.SetThenLoadAfterRestart | src/utils/theme.js:45-70 | A restarted app loads the theme last set, or "dark" when that name was empty |
| Theme.SetThenGetTheme | src/utils/theme.js:48-58 | After a set, the palette is dark exactly when the name set is "dark" |
| Auth.IsBiometricAvailable | src/utils/auth.js:6-9 | Always false |
| Auth.Authenticate | src/utils/auth.js:11-16 | Always answers true and leaves the session unlocked |
| Auth.Logout | src/utils/auth.js:18-20 | Leaves the session locked |
| Auth.RunMatchesLastCall | src/utils/auth.js:4-24 | After any sequence of calls, the session is unlocked exactly when some unlock was not followed by a logout, or it started unlocked and neither occurred |
| Auth.FreshSession | src/utils/auth.js:4-24 | From a fresh start, the session is unlocked exactly when it has unlocked and not logged out since |
| AddExpenseForm.InitialForm | src/screens/AddExpenseScreen.js:16-21 | Every field is empty except the date, which is the part of the current ISO timestamp before its `T` |
| AddExpenseForm.InitialDateIsDay | src/screens/AddExpenseScreen.js:21 | For a timestamp `day + "T" + time`, the form opens on `day` |
| AddExpenseForm.ChooseCategory | src/screens/AddExpenseScreen.js:107 | A category chip records the category's id and nothing else |
| AddExpenseForm.ChoosePaymentMethod | src/screens/AddExpenseScreen.js:126 | A method chip records the method's name, not its id, and nothing else |
| AddExpenseForm.Submitted | src/screens/AddExpenseScreen.js:47-54 | The submitted record has the parsed amount, the form's texts as they stand, and no id |
| AddExpenseForm.Cleared | src/screens/AddExpenseScreen.js:62-67 | After success, the amount, category, payment method, description and location are emptied and the date is kept, so the cleared form fails the required-field check |
| AddExpenseForm.HandleSave | src/screens/AddExpenseScreen.js:41-75 | An empty amount, category, payment method or description makes no store call. Otherwise the store's add runs. Success clears the form except the date, and failure keeps the form |
| AddExpenseForm.BlankDescriptionAccepted | src/screens/AddExpenseScreen.js:42 | A description of spaces passes the check, and the location may be empty |
| AddExpenseForm.SaveStoresForm | src/screens/AddExpenseScreen.js:41-75 | A save on a store whose data file can be read and written, present or not, puts, at the head of the expenses, the record with the parsed amount, the form's texts, the minted id and the save's timestamp |
| AddExpenseForm.SavedPaymentIsName | src/screens/AddExpenseScreen.js:124-126 | Choosing a method and saving stores that method's name |
| PaymentMethodsForm.ToggleForm | src/screens/PaymentMethodsScreen.js:70 | The header button flips the form's visibility and keeps the typed name |
| PaymentMethodsForm.NewMethod | src/screens/PaymentMethodsScreen.js:40-44 | The record has the untrimmed name, the 💳 icon and type "card", and the store mints its id |
| PaymentMethodsForm.HandleAddMethod | src/screens/PaymentMethodsScreen.js:34-56 | A name that trims to nothing makes no store call. Otherwise it adds the card method through the store, and the disk is what that add leaves. Success empties and hides the form, and failure keeps the screen |
| PaymentMethodsForm.AddShowsNewMethod | src/screens/PaymentMethodsScreen.js:34-56 | When the data file can be read and written, present or not, the reloaded list is the earlier list with the new card method at the end |
| PaymentMethodsForm.PaddedNameKept | src/screens/PaymentMethodsScreen.js:35-44 | A name with surrounding spaces is accepted and stored with its spaces |

## Left out

- Rendering is not modelled: styles, icons, navigation, the text of the alerts, `fmtAmount`/`toFixed` formatting and the `toLocaleDateString` labels. The month groups therefore carry no label.
- The file system and the preference store are abstract maps, and the operations are sequential. Promise interleaving, such as the un-awaited list reload after adding a payment method, is not modelled.
- `JSON.parse` is the codec parameter, and a document whose top level is not an object is not modelled. With such a document the screens would read `null`.
- Records.Document: only documents whose present fields have the expected JSON types are modelled. Text that parses as JSON but has, say, `"expenses": "x"` or an expense without `amount` has no `Document`, so the codec must send it to `None`. `importBackup` would return true and save such a backup, where `Storage.ImportBackup` reports false.
- The screens' own `loadData` calls on mount and on focus are not modelled. Each screen function takes the loaded document as an argument.
- Date parsing is the `DateParser` parameter. The time zone is a fixed offset, so daylight-saving transitions are not modelled.
- `parseFloat` is the `parseAmount` parameter, and amounts are exact reals. `NaN` and the rounding of floating-point sums are not modelled.
- Home.TopCategories: the order among categories with equal totals is not stated. The sort is stable, so they stay in first-appearance order.
- Grouping.BucketsDescribe: groups are in first-appearance order. `Object.values` would list integer-like keys (a category named "2024", say) first, in numeric order. That affects the order of the reports list and of equal totals on the home screen. The history screen sorts by key afterwards, so its order is unaffected.
- Grouping.BucketsDescribe: the screens accumulate into a plain `{}`. A category named after an `Object.prototype` property (`toString`, `constructor`, `__proto__`) finds an inherited value there, never becomes an own property, and is missing from `Object.values`. The model reports such a category like any other, on the home and reports screens alike.
- History.MonthKeyOrder: `localeCompare` is modelled as code-point order. The agreement with calendar order is proved for four-digit years only.
- Strings.ToLower folds ASCII letters only.
- Theme: listeners are numbers that stand for the callbacks' identities. The callbacks' own effects, such as re-reading the palette, are not modelled.
- Auth: the `Alert` import is unused, and there is no PIN.
- The settings screen, the navigator and the app shell are not part of this model.

## Findings

| source | as written | input that shows it | evidently intended | confidence | as-written member | corrected member |
|---|---|---|---|---|---|---|
| src/screens/HistoryScreen.js:78 | `startOfWeek` copies `now` and moves its day back to Sunday, which keeps the current time of day | At 14:00 on Wednesday 2024-01-17, an expense dated "2024-01-14" (read as 05:30 local at UTC+05:30) is left out of "This Week" | The week starts at Sunday 00:00 | medium, not executed | History.SourceWeekMissesEarlySunday | History.ThisWeekIsFromSunday |
| src/screens/HistoryScreen.js:81 | `endOfLastMonth` is `new Date(y, m, 0)`, which is midnight at the start of last month's last day, and the filter keeps `d <= endOfLastMonth` | On 2024-02-10, an expense dated "2024-01-31" (read as 05:30 local at UTC+05:30) is left out of "Last Month" | Last month runs to the end of its last day | medium, not executed | History.SourceLastMonthMissesLastDay | History.LastMonthIsPreviousMonth |

`History.SourceBounds` builds the bounds as the code writes them, and
`History.IntendedBounds` builds the corrected bounds.
`History.FilterExpenses` takes the bounds as a parameter, and its
properties hold for any bounds. `History.ScreenList` is the list with the
bounds as written, and `History.CorrectedList` is the list with the
corrected bounds.
