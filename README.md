# Student budget tracker — a Dafny model

This project models a single-page budget tracker written in React. `Layout` owns five pieces of state and hands them to every page:

- the transactions;
- the categories;
- the budget limits per category;
- the currency symbol;
- the language.

Each is kept in the browser's `localStorage` under its own key.

The pages that read and change that state are modelled:

- **Dashboard:** the income, expense and balance totals, the budget rows and the five newest records.
- **Budget:** per-category spend, the percentage bar and the over-budget flag, and editing a limit.
- **Transactions:** the type, search, category and date filters, then a newest-first sort.
- **Calendar:** records grouped by day, with totals and a net badge.
- **Reports:** the expense pie and six monthly bars.
- **Transaction detail:** find, edit and delete.
- **Add transaction:** the sign rule, the default category and the category lists.
- **Goals, Subscriptions and Category manager:** each keeps its own list and its own storage rules.
- **Profile:** the total spent, the avatar initials and the password-change checks.

**Modelling conventions.**

- *Storage.* `localStorage` is a `Storage` object holding a map from keys to values as `JSON.parse` returns them (the `Stored` datatype). Text that does not parse is its own value.
- *Classes.*
  - State that the source updates in place is a class whose methods update its fields and the storage together: `Store.Store`, `Goals.GoalsPage`, `Subscriptions.SubscriptionsPage`, `ManageCategories.CategoriesPage` and `Profile.ProfilePage`.
  - Each method's contract states the new state and the new storage.
  - Where reloading matters, it also states that reloading gives back what the page holds.
- *Pure logic.* Derived values (totals, filters, groupings, the pie, the bars, percentages) are functions. Lemmas tie each to its meaning.
- *Loops.* Two source loops are methods with loop invariants, proved equal to their specification functions:
  - the calendar's `forEach` grouping;
  - the reports page's six-month loop.
- *Numbers.*
  - Amounts are reals.
  - JavaScript truthiness is written out where the code relies on it: a typed `"0"` is truthy; a stored `0`, `null`, `NaN` and `''` are not.
  - Division by zero in the goals page gives an infinity or `NaN`, modelled by the `JsNumber` datatype.
- *Parameters.* The clock, the locale, ids made from `Date.now()`, and the current language's translation table are parameters. Whether a demo session is active is read from storage, under `sb-demo-session`.
- *Date comparisons.* For well-formed `YYYY-MM-DD` strings, comparing the strings is the same as comparing calendar dates. `Dates.LexLeIsChronological` proves this. The model therefore compares date strings where the source compares `Date` objects.

**Browser form checks and truthiness.**

- *Subscriptions.* The browser checks the subscriptions form before it calls the handler: the `required` fields, and the billing day's `min`, `max` and default step. `Subscriptions.BrowserSubmits` models these checks, because they are part of the page's markup. The browser checks the number the text denotes, but the handler saves `parseInt` of the text. A billing day typed without an exponent is therefore saved as a whole number from 1 to 31. Text with an exponent is not: `1e1` is saved as 1, `100e-1` as 100, and `.5e1` as `NaN`, which makes the next load discard the stored list.
- *Profile.* All three password fields are `required`, and the button is disabled while a change is in flight. `Profile.Submits` models both, so an empty field or a pending change makes a press do nothing.
- *Goals.* A goal target typed as `0` is non-empty text, and so it is truthy. Saving such a goal goes ahead. Only an empty target, or a target loaded from a stored `0`, makes the save a no-op.

## Model

| member | source | states |
|---|---|---|
| Store.Storage.SetItem | src/components/Layout.jsx:25 | storing a value replaces exactly that key |
| Store.SanitizeMembers | src/components/Layout.jsx:116 | a record survives sanitising exactly when it is present as an object with a non-zero id |
| Store.SanitizeKeepsOrder | src/components/Layout.jsx:116 | the sanitised list is a subsequence of the input (order kept, nothing added) |
| Store.SanitizeIsFilter | src/components/Layout.jsx:97 | sanitising is exactly the filter: every kept element stays, as often as it occurs, in order |
| Store.SanitizeSetsIds | src/components/Layout.jsx:116 | every surviving record has a non-zero id |
| Store.SanitizeIdempotent | src/components/Layout.jsx:97 | sanitising an already sanitised list gives it back |
| Store.AsRaw | src/components/Layout.jsx:119 | records written as array elements are exactly those objects, in order |
| Store.LoadCurrency | src/components/Layout.jsx:11 | the stored symbol, or `$` when none is stored or it is empty |
| Store.LoadLanguage | src/components/Layout.jsx:12-15 | the stored language when it names a translation table, `en` otherwise |
| Store.LoadCategories | src/components/Layout.jsx:44-61 | the stored list, the ten defaults when nothing is stored, none when the stored value is not a category list |
| Store.LoadLimits | src/components/Layout.jsx:69-82 | the stored limits, the defaults when nothing is stored, none when unreadable |
| Store.LoadTransactions | src/components/Layout.jsx:90-104 | from a stored array, exactly its object elements with a truthy id, each as often as it occurs, in order; nothing stored, unparseable text or a non-array gives the demonstration list; every loaded record has an id |
| Store.TranslateFallback | src/components/Layout.jsx:17-20 | a key with no entry shows as itself; the text is empty only for the empty key without text |
| Store.Store.constructor | src/components/Layout.jsx:11-104 | the five state variables are their loaded values, so storage and memory agree |
| Store.Store.SetCurrency | src/components/Layout.jsx:23-26 | sets the currency and stores it under `currency`, the rest unchanged; a reload reads it back (or `$` for empty) |
| Store.Store.SetLanguage | src/components/Layout.jsx:29-32 | sets the language and stores it; a reload reads it back when it names a table |
| Store.Store.SetCategories | src/components/Layout.jsx:63-66 | sets and stores the categories, the rest unchanged; a reload reads them back |
| Store.Store.SetBudgetLimits | src/components/Layout.jsx:84-87 | sets and stores the limits, the rest unchanged; a reload reads them back |
| Store.Store.SetTransactions | src/components/Layout.jsx:113-120 | the sanitised list (empty for a non-array) becomes the state and is stored; a reload reads it back |
| Store.Store.AddTransaction | src/components/Layout.jsx:106-110 | the new record goes first, unsanitised, before the old list, and the list is stored |
| Ledger.TotalExpense | src/pages/Dashboard.jsx:12-14 | the expense total is the sum of absolute expense amounts, never negative |
| Ledger.Spent | src/pages/Budget.jsx:15-19 | a category's spend is non-negative |
| Ledger.TotalsAreRunningSums | src/pages/Dashboard.jsx:8-14 | the filter-then-sum totals equal one left-to-right `reduce` pass over the records |
| Ledger.TotalsAppend | src/pages/Dashboard.jsx:8-16 | income, expense, balance and per-category spend of a concatenation are the sums over the parts |
| Ledger.BalanceIsSignedTotal | src/pages/Dashboard.jsx:16 | under the sign convention the balance is the signed sum of all income and expense amounts |
| Ledger.SpentAtMostTotalExpense | src/pages/Budget.jsx:15-19 | one category's spend is between 0 and the total expense |
| Ledger.MockTotals | src/lib/mockData.js:1-12 | the demonstration data totals 900.00 income, 1029.09 expense, balance -129.09 |
| Ledger.WithoutIdKeepsOthers | src/pages/Dashboard.jsx:186-187 | exactly the records with another id remain, in their original order |
| Ledger.WithoutIdRemovesOne | src/pages/TransactionDetail.jsx:37 | with unique ids, deleting the id at position i removes that record and nothing else |
| Ledger.ExpenseCategoriesExcludeSalary | src/pages/Budget.jsx:34 | the listed categories are every category but `Salary`, in order |
| Dashboard.Row | src/pages/Dashboard.jsx:130-136 | a shown row's percentage is spent / limit · 100 below the limit, lies in [0, 100], is 100 exactly when the limit is reached, and the row is over budget exactly when spend exceeds the limit |
| Dashboard.BudgetRowsSelection | src/pages/Dashboard.jsx:130 | at most three rows, for the first categories with a positive limit, in category order |
| Dashboard.Recent | src/pages/Dashboard.jsx:18-20 | the recent list has min(5, n) records |
| Dashboard.RecentAreNewest | src/pages/Dashboard.jsx:18-20 | the recent records come from the list, and no record left out is newer than one shown |
| Dashboard.RecentTransactions | src/pages/Dashboard.jsx:18-20 | the in-place sort reorders the shared list newest first without storing it, and the first five records are shown |
| Dashboard.DeleteRecent | src/pages/Dashboard.jsx:186-187 | the records with that id go through the setter, the rest stay in order |
| Sorting.SortByDateDesc | src/pages/Transactions.jsx:65-69 | the sort is a permutation of its input |
| Sorting.SortIsSorted | src/pages/Transactions.jsx:65-69 | the sorted list is newest first |
| Sorting.SortIsStable | src/pages/Transactions.jsx:65-69 | records of the same date keep their input order |
| Dates.LexLeIsChronological | src/pages/Transactions.jsx:55-61 | for well-formed dates, string order is calendar order |
| Dates.DayKey | src/pages/CalendarPage.jsx:16 | the key is the part of the date before its first `T` |
| Dates.DayKeyIdempotent | src/pages/CalendarPage.jsx:16 | a key has no `T`, so taking the key twice is taking it once |
| Budget.LimitOf | src/pages/Budget.jsx:46 | a missing limit reads as 0 |
| Budget.Percentage | src/pages/Budget.jsx:48 | below a positive limit the bar is spent / limit · 100; it lies in [0, 100], is 0 exactly when nothing is spent, and is full exactly when a positive limit is reached or anything is spent against no limit |
| Budget.Line | src/pages/Budget.jsx:45-49 | the line's limit and spend are the category's, its bar is the capped share of that spend in that limit, and it is over budget exactly when spend exceeds the limit |
| Budget.NoLimitOverAtFirstSpend | src/pages/Budget.jsx:48-49 | with a zero limit, any spend is over budget and fills the bar |
| Budget.WithLimitChangesOneKey | src/pages/Budget.jsx:26-31 | saving sets the edited key (0 for unparseable input) and keeps every other key |
| Budget.SaveLimit | src/pages/Budget.jsx:26-31 | the new map goes through the setter and is stored |
| TransactionList.QueryMembers | src/pages/Transactions.jsx:29-64 | a record is listed exactly when it is an object element of the array and passes all four filters; a non-array lists nothing |
| TransactionList.QueryOrder | src/pages/Transactions.jsx:65-69 | the result is newest first, a permutation of the selection, stable within a date |
| TransactionList.EmptySearchMatches | src/pages/Transactions.jsx:39-49 | an empty search term matches every record |
| TransactionList.DefaultFiltersKeepAll | src/pages/Transactions.jsx:36-52 | with the initial controls every record of the array is listed, newest first |
| TransactionList.DateRangeMeaning | src/pages/Transactions.jsx:53-61 | for well-formed dates a record passes exactly when it is on or after a set start and on or before a set end, in calendar order; an empty bound imposes nothing |
| TransactionList.DateRangeInclusive | src/pages/Transactions.jsx:55-61 | a record dated exactly on a bound passes it |
| TransactionList.ObjectsMembers | src/pages/Transactions.jsx:33 | `null` and non-object elements are dropped, the records kept |
| Calendar.GroupByDate | src/pages/CalendarPage.jsx:13-28 | the loop's map is the grouping: one entry per day with records, holding that day's totals and items |
| Calendar.AddToDay | src/pages/CalendarPage.jsx:15-25 | one step adds the record to its day's entry (created empty if missing) and changes nothing else |
| Calendar.DayOfSnoc | src/pages/CalendarPage.jsx:17-25 | appending a record changes only its own day's entry, by its absolute amount under its type |
| Calendar.DayItemsPartition | src/pages/CalendarPage.jsx:20-25 | a day's items are exactly its records in list order, and its totals are those of its own items |
| Calendar.DayTotalsBounded | src/pages/CalendarPage.jsx:20-24 | a day's totals are non-negative and its expense is at most the list's |
| Calendar.ItemCountsSumToLength | src/pages/CalendarPage.jsx:15-25 | over distinct days covering the list, the item counts add up to the number of records |
| Calendar.SelectedDayIsDayOf | src/pages/CalendarPage.jsx:56-58 | the selected day shows that day's entry, the empty one for a day without records |
| Calendar.TileBadgeMeaning | src/pages/CalendarPage.jsx:36-40 | a badge appears exactly when the net is non-zero: a gain for a positive net, a loss for a negative one |
| Reports.PieDataIsShownCategories | src/pages/Reports.jsx:18-30 | one slice per non-`Salary` category with positive expense, in category order, with its label and total |
| Reports.PieValuesPositive | src/pages/Reports.jsx:21-30 | every slice is positive and is some non-`Salary` category's expense total |
| Reports.BarData | src/pages/Reports.jsx:33-55 | six bars, from five months ago to the current month, each holding its month's totals |
| Reports.MonthTotals | src/pages/Reports.jsx:40-48 | filtering the month's records by type equals filtering the list by month and type |
| Reports.MonthBucketMembers | src/pages/Reports.jsx:38-40 | a month holds exactly the records whose date starts with its key, in order |
| Reports.MonthsDisjoint | src/pages/Reports.jsx:40 | two different keys of the same length never share a record |
| Reports.MonthExpenseBounded | src/pages/Reports.jsx:46-48 | a month's expense is between 0 and the total expense |
| Reports.TwoMonthsExpenseBounded | src/pages/Reports.jsx:40-48 | two different months together spend no more than the list |
| TransactionDetail.Find | src/pages/TransactionDetail.jsx:13 | a record is found exactly when one has the route's numeric id, and it is the first such record |
| TransactionDetail.InitialForm | src/pages/TransactionDetail.jsx:17-22 | the form starts with the absolute amount and the record's other fields |
| TransactionDetail.UpdatedAsWrittenEffect | src/pages/TransactionDetail.jsx:65-71 | as written, an update keeps id, type and title, takes the form's fields and the typed size, and keeps the sign convention of an income or expense exactly when the typed amount is not negative |
| TransactionDetail.UpdatedAsWrittenBreaksSign | src/pages/TransactionDetail.jsx:67 | as written, an expense of -5 edited with -5 is stored as +5, against the sign convention |
| TransactionDetail.Updated | src/pages/TransactionDetail.jsx:65-71 | corrected (see Findings): an update keeps id, type and title, takes the form's fields and the typed size, and always keeps the sign convention |
| TransactionDetail.UpdatedAgreesOnNonNegative | src/pages/TransactionDetail.jsx:67 | for a typed amount that is not negative, the code as written and the corrected update agree |
| TransactionDetail.UntouchedFormRoundTrip | src/pages/TransactionDetail.jsx:17-22 | saving the untouched form gives the record back |
| TransactionDetail.ReplaceById | src/pages/TransactionDetail.jsx:73 | the records with the id become the update, the rest stay in place, length unchanged |
| TransactionDetail.ReplaceByIdChangesOne | src/pages/TransactionDetail.jsx:73 | with unique ids only the matching position changes |
| TransactionDetail.Update | src/pages/TransactionDetail.jsx:65-74 | the found record is replaced, by the corrected update, through the setter; without a record nothing changes |
| TransactionDetail.Delete | src/pages/TransactionDetail.jsx:35-38 | every record with the route's id goes through the setter, the rest keep their order |
| AddTransaction.DefaultCategory | src/pages/AddTransaction.jsx:12 | expense page: `cat_food` when it exists, else `Food`; income page: `Salary` |
| AddTransaction.CategoryLists | src/pages/AddTransaction.jsx:19-26 | the expense page offers and shows every category but `Salary`; the income page offers the income categories and shows all |
| AddTransaction.NewTx | src/pages/AddTransaction.jsx:40-48 | the record has the page's type, the category as title, and the typed size, negative on the expense page |
| AddTransaction.NewTxMovesTotals | src/pages/AddTransaction.jsx:40-51 | the new record keeps the sign convention and moves the page's total by its size |
| AddTransaction.Submit | src/pages/AddTransaction.jsx:36-51 | the new record goes first in the store's list, which is stored |
| Goals.LoadGoals | src/pages/Goals.jsx:17-24 | the stored list, or the initial goals when nothing is stored or the text does not parse |
| Goals.SaveGoalEffect | src/pages/Goals.jsx:38-58 | no name or no truthy target changes nothing; an add appends one goal with nothing saved; an edit changes only name, target and colour of the goals with that id |
| Goals.WithoutGoalKeepsOthers | src/pages/Goals.jsx:60-65 | exactly the goals with another id remain, in order |
| Goals.DepositEffect | src/pages/Goals.jsx:67-86 | no amount or no active goal changes nothing; otherwise only the active goals gain the amount, and the saved total grows by it per such goal |
| Goals.GoalPercentage | src/pages/Goals.jsx:156 | a finite percentage is at most 100; for a positive target it is in [0, 100], and below the target it is exactly current / target · 100 |
| Goals.OverallBar | src/pages/Goals.jsx:148 | the overall bar is 0 when the target total is not positive; otherwise it reaches 100 exactly when the saved total reaches the target total, and is positive exactly when something is saved |
| Goals.DisabledIffReached | src/pages/Goals.jsx:156-208 | the deposit button is disabled exactly when the saved amount reaches the target (any saving for a zero target) |
| Goals.NoticeMeansNowComplete | src/pages/Goals.jsx:74-76 | the notice fires only when a deposit takes a goal from an enabled button to a disabled one |
| Goals.TotalsAppendOne | src/pages/Goals.jsx:115-116 | appending a goal adds its saved amount and target to the totals |
| Goals.InitialTotals | src/pages/Goals.jsx:5-8 | the initial goals save 9500 of 20000, an overall bar of 47.5 |
| Goals.GoalsPage.SaveGoal | src/pages/Goals.jsx:38-58 | the list becomes the saved list and is stored only when the save goes through; the stored list reloads as the page's |
| Goals.GoalsPage.DeleteGoal | src/pages/Goals.jsx:60-65 | the goal is removed and the list stored and reloadable |
| Goals.GoalsPage.AddMoney | src/pages/Goals.jsx:67-86 | the deposit is applied and stored, and the notice is raised exactly when an active goal crosses its target |
| Subscriptions.LoadSubscriptions | src/pages/Subscriptions.jsx:26-37 | a stored array whose every element is an object with a cost and a truthy billing day is used, anything else gives the initial list; the result always passes that test |
| Subscriptions.LoadAfterWrite | src/pages/Subscriptions.jsx:74 | a list that passes the test reads back as itself after it is stored |
| Subscriptions.InitialTotal | src/pages/Subscriptions.jsx:16-20 | the initial subscriptions cost 55.97 a month |
| Forms.FractionValue | src/pages/Subscriptions.jsx:250-270 | the digits after the point of a number input's text are worth less than one, and nothing exactly when they are all 0 |
| Forms.PlainParseInt | src/pages/Subscriptions.jsx:67 | on a field without an exponent, `parseInt` cuts the value toward zero when a digit precedes the point, and gives back a non-zero whole value exactly |
| Forms.ExponentTexts | src/pages/Subscriptions.jsx:67 | `1e1` is 10 but reads as 1, `100e-1` is 10 but reads as 100, and `.5e1` is 5 but reads as `NaN` |
| Subscriptions.SavedDayInRange | src/pages/Subscriptions.jsx:262-270 | a billing day the browser lets through, typed without an exponent, is saved as that whole number, from 1 to 31 |
| Subscriptions.ExponentDays | src/pages/Subscriptions.jsx:56-67 | billing days typed `1e1`, `100e-1` and `.5e1` all pass the browser's check, and are saved as 1, 100 and `NaN` |
| Subscriptions.NaNDayLosesList | src/pages/Subscriptions.jsx:26-74 | adding a subscription with the day `.5e1` stores a list that the next load rejects, so the page starts again from the initial subscriptions |
| Subscriptions.RejectedAfterWrite | src/pages/Subscriptions.jsx:30-33 | a written list with an element that fails the load test reads back as the initial subscriptions |
| Subscriptions.SaveEffect | src/pages/Subscriptions.jsx:43-78 | an unsaved form changes nothing; an add appends one subscription with the `parseInt` day (from 1 to 31 without an exponent), category defaulting to `other`, raising the monthly total by its cost; an edit changes only the matching ids; the load test stays passing unless the saved day is `NaN` |
| Subscriptions.EditRoundTrip | src/pages/Subscriptions.jsx:80-89 | opening a subscription for editing and saving it untouched gives the list back |
| Subscriptions.DeleteEffect | src/pages/Subscriptions.jsx:91-96 | exactly the subscriptions with another id remain, in order; the total drops by the removed costs |
| Subscriptions.DaysLeftMeaning | src/pages/Subscriptions.jsx:147-148 | days left are in [0, 30] and land on the billing day this month or 30 days on |
| Subscriptions.CategoryShown | src/pages/Subscriptions.jsx:149 | a known category shows as itself, an unknown one as `other` |
| Subscriptions.SubscriptionsPage.SaveSubscription | src/pages/Subscriptions.jsx:43-78 | the saved list is stored only when the save goes through; it reloads as the page's list when every subscription passes the load test, and as the initial subscriptions otherwise |
| Subscriptions.SubscriptionsPage.DeleteSubscription | src/pages/Subscriptions.jsx:91-96 | the list without the id is stored and reloads as the page's list |
| ManageCategories.AddAsWrittenEffect | src/pages/ManageCategories.jsx:62-82 | as written: a blank name is ignored; an input whose untrimmed text equals, ignoring case, a name or translation is rejected with the message; anything else is appended with the trimmed name; on already trimmed input it agrees with the corrected add |
| ManageCategories.AddAsWrittenLetsDuplicateIn | src/pages/ManageCategories.jsx:67-74 | as written, with the food category shown as "Food", typing " Food" is accepted and "Food" is shown twice |
| ManageCategories.AddEffect | src/pages/ManageCategories.jsx:62-82 | corrected (see Findings): a blank name is ignored, a duplicate (ignoring case, name or translation) is rejected with the message, anything else is appended as a custom category with the trimmed name |
| ManageCategories.AddKeepsLabelsDistinct | src/pages/ManageCategories.jsx:67-79 | corrected (see Findings): an accepted add keeps every shown name distinct, ignoring case |
| ManageCategories.PickedNameIsRejected | src/pages/ManageCategories.jsx:150-152 | clicking a category and adding its shown name is rejected |
| ManageCategories.DeleteEffect | src/pages/ManageCategories.jsx:84-88 | exactly the categories with another id remain, in order; deleting a custom one keeps every system one |
| ManageCategories.RecolorEffect | src/pages/ManageCategories.jsx:90-92 | only the colour of the matching categories changes |
| ManageCategories.CategoriesPage.AddCategory | src/pages/ManageCategories.jsx:62-82 | with the corrected add: ignored: nothing changes; rejected: the error is shown and the input kept; added: the list is stored and the input and error cleared |
| ManageCategories.CategoriesPage.DeleteCategory | src/pages/ManageCategories.jsx:84-88 | the filtered list goes through the setter |
| ManageCategories.CategoriesPage.UpdateColor | src/pages/ManageCategories.jsx:90-92 | the recoloured list goes through the setter |
| ManageCategories.CategoriesPage.Pick | src/pages/ManageCategories.jsx:150-153 | clicking a category copies its shown name and colour into the form |
| Profile.TotalSpent | src/pages/Profile.jsx:17-19 | the total spent is never negative, and is 0 without a list |
| Profile.TotalSpentAdds | src/pages/Profile.jsx:17-19 | a record adds its size only when it is an expense; totals of two lists add |
| Profile.Initials | src/pages/Profile.jsx:27-29 | the first two characters upper-cased, or `U` without an e-mail |
| Profile.InitialsShape | src/pages/Profile.jsx:27-29 | one or two characters, already upper case |
| Profile.PasswordChangeMeaning | src/pages/Profile.jsx:41-65 | a mismatch is reported first, then a short password; the change goes ahead exactly for matching passwords of at least 6 characters, without the provider in a demo session; the handler never reads the current password |
| Profile.SubmittedMeaning | src/pages/Profile.jsx:160-204 | a press does nothing while a field is empty or a change is in flight; a too-short password has 1 to 5 characters; the current password must be filled in, but its content plays no part; a request needs all fields filled and a matching password of at least 6 characters |
| Profile.MessageFor | src/pages/Profile.jsx:45-61 | the errors and the demo success carry a non-empty message of the right type |
| Profile.ProfilePage.ChangePassword | src/pages/Profile.jsx:41-76 | a press the browser does not submit changes nothing; failed checks leave the form; the demo success clears it; otherwise the new password is sent to the provider |

## Left out

- Rendering, icons, CSS classes, charts and chart label placement, modals, navigation, `window.confirm` and `alert`, and `setTimeout` delays. The demo password success is modelled as its state after the timer.
- `JSON.stringify`/`JSON.parse` are not modelled. Stored values are kept as parsed values, and unparseable text is a value of its own.
- Floating point, `toFixed`, `toLocaleString` and the rounding in the reports page. Amounts are exact reals.
- `Date` parsing, time zones and the computation of month keys and labels. "Today", the six month keys and labels, and `Date.now()` ids are parameters.
- Sign-in, sign-out and the auth provider's password update, route gating, and the login and register pages. The provider's answer to a password change is not modelled; the model stops at the request.
- Store.Store.constructor: the source's initialiser throws only on stored categories or limits text that does not parse. It accepts a parseable value of another shape, which then fails where the pages use it. The constructor requires a stored category list or limit map, or nothing, so neither the throw nor the later failure is modelled.
- ManageCategories.CategoriesPage.AddCategory: applies the corrected duplicate test on the trimmed name (`ManageCategories.Add`). The source tests the untrimmed input, so " Food" beside "Food" is accepted there; `ManageCategories.AddAsWrittenEffect` states that behaviour.
- TransactionDetail.Update: applies the corrected sign rule (`TransactionDetail.Updated`). The source negates the typed amount of an expense, so -5 is stored as +5 there; `TransactionDetail.UpdatedAsWrittenEffect` states that behaviour.
- Goals.GoalsPage: the source cannot render a stored goals value of another shape. The constructor requires a loadable value.
- Subscriptions.EditFormOf: a stored cost that is not a number loads as an empty field. The source loads the raw value.
- Subscriptions.BrowserSubmits: the cost field's step of 0.01 is not checked.
- Subscriptions.Subscription: a stored billing day is a whole number, with 0 standing for every falsy value, `NaN` from `parseInt` included. Stored strings and fractions are not modelled.
- Forms.ParsedInt: a loaded number is read as its plain decimal form. JavaScript writes numbers from 1e21 up, and below 1e-6, with an exponent; only billing days are read this way.
- Forms.NumText: the datatype also holds texts with no digit at all, which the browser never keeps.
- Profile.PasswordChange: the length check counts characters, where JavaScript counts UTF-16 code units.
- Text.Lower and Text.Upper map only ASCII letters, where JavaScript maps all of Unicode.
- Text.IsSpace: only the ASCII white space, the no-break space and the byte-order mark are trimmed.
- Transactions whose amount is `NaN` or not a number are not modelled. Every amount is a real.

## Findings

| source | as written | input that shows it | evidently intended | confidence | as-written member | corrected member |
|---|---|---|---|---|---|---|
| src/pages/TransactionDetail.jsx:67 | an expense stores the negated typed amount, so a negative typed amount becomes a positive expense | an expense of -5 edited with amount input -5 is stored as +5 | the size of the input with the record's sign, as the add page does with `Math.abs` | not executed; the amount input has no lower bound | TransactionDetail.UpdatedAsWrittenBreaksSign | TransactionDetail.Updated |
| src/pages/ManageCategories.jsx:67 | the duplicate test compares the untrimmed input, but the trimmed input is stored | with the food category shown as "Food", typing " Food" adds a second "Food" | compare the trimmed name that will be stored | not executed | ManageCategories.AddAsWrittenLetsDuplicateIn | ManageCategories.Add |
