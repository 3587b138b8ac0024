# Expenses — verified model of the aggregation layer

This project is a Dafny model of how the Expenses iOS app derives figures from
a user's expense records, with proofs about it. It covers:

- **Repository.** The repository keeps a live list of the latest expenses, the
  current month's total and a per-month stats ledger. Each store listener push
  replaces the list. Stats totals are coerced from whatever the store holds and
  sorted by month id. Deletes are guarded on a present document id.
- **Widget snapshot.** On save, the app builds the current month's total, per-day
  buckets, a cumulative curve cut at today, and the upper-cased month name. It
  stores the record under "widgetData" and asks the widget to reload.
- **New-expense form.** The amount text is cleaned on every edit. The Save button
  has a gate, and the form builds the expense it sends.
- **Views.** The month, history, donut and list views derive these from the data:
  - the type filter;
  - per-day sums and their average;
  - per-category totals, largest first;
  - day groups and year groups, latest first;
  - the day sheet;
  - local removal after a delete;
  - the calendar grid offset;
  - the title fallbacks;
  - the slice gap rule;
  - the palettes;
  - the month-over-month badge rule.
- **Small parsers.** The whole/fraction split of a formatted total, and the channel
  decoding of `Color(hex:)`.

How the model stands in for the platform:

- Amounts are exact `real`s.
- A date is the tuple the user's calendar yields: year, month, day of month, and
  seconds since midnight.
- Everything the platform supplies is a parameter: "now", days in the month, the
  weekday of the month's first day, the number formatter's output, and date
  parsing and rendering.
- A listener push is a method call that takes the delivered documents.
- Remote writes (`addDocument`, `delete`) are appended to request logs on the
  repository object, in the order issued.
- Swift's `sorted`/`sort` is a stable insertion sort under the same comparator.
  The proofs use only two of its properties: the result is sorted, and it is a
  permutation of the input.
- `Dictionary(grouping:)` has no key order. The model takes its keys in order of
  first occurrence; every view sorts the result anyway.

Modules follow the source files:

| module | source |
|---|---|
| `ExpenseModel` | Expense.swift |
| `Ledger` | shared totals |
| `Repository` | ExpenseRepository.swift |
| `WidgetSnapshot` | WidgetDataManager+Save.swift and WidgetData.swift |
| `AddExpense` | AddExpenseView.swift |
| `MonthDetail` | MonthDetailView.swift |
| `History` | HistoryView.swift |
| `Donut` | DonutChartView.swift |
| `ExpenseList` | ExpenseListView.swift |
| `Formatting` | the formatted-total split shared by ExpenseListView.swift and CreditCardView.swift |
| `CardColor` | `Color(hex:)` |
| `Grouping` | day and category breakdowns shared by several views |
| `NumberParsing` | `Double(String)` |

The generic modules `Seqs`, `Sorting`, `Text` and `Wrappers` provide sequence,
sorting and string helpers.

## Model

| member | source | states |
|---|---|---|
| ExpenseModel.EncodedKeys | Expenses/Models/Expense.swift:12-18 | an expense is stored under exactly the keys "note", "amount", "date", "category"; the title goes under "note", and neither "title" nor "id" is written |
| ExpenseModel.DecodeEncode | Expenses/Models/Expense.swift:5-18 | reading back a stored expense gives the same expense, with the document's id as its id |
| ExpenseModel.Decode | Expenses/Models/Expense.swift:6 | a decoded expense always carries the document id as its optional id |
| ExpenseModel.IconMapping | Expenses/Models/Expense.swift:21-31 | the default symbol is given exactly to categories outside the six known ones ("Misc" included); the six known symbols are pairwise distinct |
| ExpenseModel.ColorMapping | Expenses/Models/Expense.swift:33-43 | every string has a colour; gray exactly for strings outside the six known categories; the six colours are distinct |
| ExpenseModel.Example | Expenses/Models/Expense.swift:44 | the example has id "1", amount 450 and category "Food", hence the fork-and-knife symbol and orange |
| ExpenseModel.StartOfDay | Expenses/Views/ExpenseListView.swift:60-62 | the start of a day is midnight of that same day |
| ExpenseModel.StartOfDayIdentifiesDay | Expenses/Views/ExpenseListView.swift:60-62 | two dates have the same start of day exactly when they fall on the same day |
| Ledger.CurrentMonth | Expenses/Repositories/ExpenseRepository.swift:51-54 | an expense is selected exactly when it is in the list and its month and year are now's |
| Ledger.MonthTotalSplit | Expenses/Repositories/ExpenseRepository.swift:48-57 | the whole total is the current month's total plus the total of all other expenses |
| Ledger.MonthTotalAllInMonth | Expenses/Repositories/ExpenseRepository.swift:48-57 | when every expense is in the current month, the month total is the whole total |
| Ledger.MonthTotalIgnoresOtherMonths | Expenses/Repositories/ExpenseRepository.swift:48-57 | appending expenses from other months leaves the month total unchanged |
| Ledger.TotalNonNegative | Expenses/Repositories/ExpenseRepository.swift:56 | with no negative amount the total is not negative |
| Ledger.TotalConcat | Expenses/Repositories/ExpenseRepository.swift:56 | the total of two lists joined is the sum of their totals |
| Ledger.DayTotalNonNegative | Expenses/Managers/WidgetDataManager+Save.swift:27-32 | with no negative amount, each day's sum is not negative |
| Repository.DecodeAll | Expenses/Repositories/ExpenseRepository.swift:39-41 | decoding never yields more expenses than there are documents |
| Repository.DecodeAllConcat | Expenses/Repositories/ExpenseRepository.swift:39-41 | decoding works document by document: decoding two feeds joined gives the two results joined, so feed order is kept |
| Repository.DecodeAllMembers | Expenses/Repositories/ExpenseRepository.swift:39-41 | an expense is in the decoded list exactly when some document decodes to it; undecodable documents are dropped |
| Repository.StoredDocuments | Expenses/Repositories/ExpenseRepository.swift:97 | the stored form of a list holds one document per expense, each with its id and encoded data |
| Repository.DecodeStored | Expenses/Repositories/ExpenseRepository.swift:39-41 | a push of stored expenses decodes to exactly those expenses, in feed order, each with its document id |
| Repository.PushReplaces | Expenses/Repositories/ExpenseRepository.swift:39-44 | after a push the list is exactly the decoded documents; the earlier state plays no part (no merge) |
| Repository.PushIdempotent | Expenses/Repositories/ExpenseRepository.swift:39-44 | applying the same push twice leaves the same list and total as applying it once |
| Repository.ListenerErrorKeepsState | Expenses/Repositories/ExpenseRepository.swift:34-37 | a listener error leaves the list, its total and the stats ledger unchanged |
| Repository.TotalStaysCurrent | Expenses/Repositories/ExpenseRepository.swift:44 | after any event, the stored current-month total is still the current-month total of the stored list |
| Repository.CoerceTotalCases | Expenses/Repositories/ExpenseRepository.swift:76-84 | a double total is kept, an integer converted, numeric text parsed; unparsable text, a missing field or any other value give 0 |
| Repository.StatsOf | Expenses/Repositories/ExpenseRepository.swift:74-88 | one stats entry per document, in feed order, with the document id and the coerced total |
| Repository.StatIdDescIsTotalPreorder | Expenses/Repositories/ExpenseRepository.swift:91 | the id-descending comparator (a missing id read as "") is total and transitive, so the sort is well defined |
| Repository.SortedStatsFacts | Expenses/Repositories/ExpenseRepository.swift:74-91 | after a stats push the ledger has one entry per document, is a rearrangement of the coerced entries, and is ordered by id, descending |
| Repository.DeleteIds | Expenses/Repositories/ExpenseRepository.swift:109-110 | a run of deletes sends at most one request per expense |
| Repository.DeleteIdsOfIdentified | Expenses/Repositories/ExpenseRepository.swift:103-110 | when every expense has an id, each sends exactly one delete, for its own id, in order |
| Repository.ExpenseRepository.constructor | Expenses/Repositories/ExpenseRepository.swift:11-25 | a new repository has the user id, empty lists, a zero total and no requests |
| Repository.ExpenseRepository.OnExpensesEvent | Expenses/Repositories/ExpenseRepository.swift:31-45 | the list and total become those of the listener event (unchanged on error, replaced and recomputed on a push); the stats and request logs are untouched |
| Repository.ExpenseRepository.CalculateCurrentMonthTotal | Expenses/Repositories/ExpenseRepository.swift:48-57 | the stored total becomes the sum of the amounts of the expenses in now's month and year |
| Repository.ExpenseRepository.OnStatsEvent | Expenses/Repositories/ExpenseRepository.swift:63-92 | the ledger is unchanged on error, and on a push becomes the coerced entries sorted by id, descending |
| Repository.ExpenseRepository.AddExpense | Expenses/Repositories/ExpenseRepository.swift:95-101 | exactly one add request, for the given expense; the local list is not touched |
| Repository.ExpenseRepository.Delete | Expenses/Repositories/ExpenseRepository.swift:109-116 | an expense without an id sends nothing; one with an id sends one delete, for that id |
| Repository.ExpenseRepository.DeleteExpense | Expenses/Repositories/ExpenseRepository.swift:103-107 | one delete per offset, for the expense at that offset, in offset order |
| WidgetSnapshot.Buckets | Expenses/Managers/WidgetDataManager+Save.swift:22-32 | one bucket per day of the month; bucket i holds the amount spent on day i+1 |
| WidgetSnapshot.RunningSums | Expenses/Managers/WidgetDataManager+Save.swift:35-44 | one running total per point |
| WidgetSnapshot.RunningSumsEntries | Expenses/Managers/WidgetDataManager+Save.swift:41-44 | running total i is the sum of points 0..i |
| WidgetSnapshot.RunningSumsMonotone | Expenses/Managers/WidgetDataManager+Save.swift:41-44 | with no negative point the running totals never decrease |
| WidgetSnapshot.WithinDaysStep | Expenses/Managers/WidgetDataManager+Save.swift:27-32 | allowing one more day adds exactly that day's amount |
| WidgetSnapshot.BucketsSum | Expenses/Managers/WidgetDataManager+Save.swift:27-32 | the buckets add up to the amount of the expenses whose day lies in 1..days; others are dropped |
| WidgetSnapshot.WithinDaysNone | Expenses/Managers/WidgetDataManager+Save.swift:29 | no expense falls in an empty day range |
| WidgetSnapshot.WithinDaysAll | Expenses/Managers/WidgetDataManager+Save.swift:27-32 | when every day lies in 1..days, the buckets hold the whole total |
| WidgetSnapshot.SnapshotCurve | Expenses/Managers/WidgetDataManager+Save.swift:14-52 | the curve has min(today, days) points; point i is what the current month spent on days 1..i+1; the total is the current month's; lastUpdated is now |
| WidgetSnapshot.SnapshotCurveMonotone | Expenses/Managers/WidgetDataManager+Save.swift:35-44 | with no negative amount the curve never decreases |
| WidgetSnapshot.SnapshotCurveEndsAtTotal | Expenses/Managers/WidgetDataManager+Save.swift:19-44 | when no current-month expense is dated after today, the curve's last point is the month's total |
| WidgetSnapshot.Uppercased | Expenses/Managers/WidgetDataManager+Save.swift:49 | upper-casing keeps the length |
| WidgetSnapshot.UppercasedFacts | Expenses/Managers/WidgetDataManager+Save.swift:49 | the month name has no lower-case letter left, upper-casing twice is the same as once, and other characters are kept |
| WidgetSnapshot.SnapshotExample | Expenses/Managers/WidgetDataManager+Save.swift:27-49 | one 450 expense on 5 March, saved on 5 March, gives the curve [0, 0, 0, 0, 450], the total 450 and the name "MARCH" |
| WidgetSnapshot.BuildSnapshot | Expenses/Managers/WidgetDataManager+Save.swift:14-52 | the bucket-filling loop and the cumulative loop build exactly the snapshot the lemmas above describe |
| WidgetSnapshot.WidgetDataManager.constructor | Expenses/Managers/WidgetDataManager+Save.swift:9 | a manager over the app group's defaults, with no reload requested yet |
| WidgetSnapshot.WidgetDataManager.Save | Expenses/Managers/WidgetDataManager+Save.swift:7-58 | when the record encodes, it is stored under "widgetData" (if the app group opens) and one reload is requested; otherwise nothing changes |
| AddExpense.KeepAmountChars | Expenses/Views/AddExpenseView.swift:51-54 | the kept text holds only digits and `.`, and holds every such character of the input |
| AddExpense.KeepAmountCharsCount | Expenses/Views/AddExpenseView.swift:51 | each digit and `.` is kept as often as it occurs in the input, and no other character is kept |
| AddExpense.KeepAmountCharsConcat | Expenses/Views/AddExpenseView.swift:51 | filtering a concatenation gives the filtered parts, concatenated in the same order |
| AddExpense.KeepAmountCharsOne | Expenses/Views/AddExpenseView.swift:51 | one character gives itself when it is a digit or `.`, and nothing otherwise; with the concatenation rule this fixes the result, in the input's order |
| AddExpense.TruncateAtSecondDot | Expenses/Views/AddExpenseView.swift:57-60 | the cut text is a prefix of the text |
| AddExpense.TruncateKeepsSingleDot | Expenses/Views/AddExpenseView.swift:57-60 | text with at most one `.` is not cut |
| AddExpense.TruncateFacts | Expenses/Views/AddExpenseView.swift:57-60 | the result has at most one `.`; when something is cut, the cut is immediately before the second `.` |
| AddExpense.NormalizeFacts | Expenses/Views/AddExpenseView.swift:49-60 | after an edit the field holds only digits and at most one `.`; text already in that form is kept; a second pass changes nothing |
| AddExpense.KeepAmountCharsOfAlphabet | Expenses/Views/AddExpenseView.swift:51-54 | text made only of digits and `.` passes the character filter unchanged |
| AddExpense.TitleFor | Expenses/Views/AddExpenseView.swift:148 | the title is the note when the note is non-empty, otherwise the category |
| AddExpense.ExpenseToSave | Expenses/Views/AddExpenseView.swift:145-151 | an expense is sent exactly when the amount parses to a positive number; it has no id, the parsed amount, the title rule, the chosen date and the chosen category |
| AddExpense.SaveGateMatchesGuard | Expenses/Views/AddExpenseView.swift:126-146 | on text the field can hold, Save is enabled exactly when the save guard sends an expense, that is, when the text has a digit and does not read as zero |
| AddExpense.PickerNames | Expenses/Views/AddExpenseView.swift:21-29 | the picker's names, one per listed category, in order |
| AddExpense.PickerCategoriesFacts | Expenses/Views/AddExpenseView.swift:21-29 | the picker offers the six known categories then "Misc", each once; the default "Food" is among them; "Misc" gets the default symbol and gray |
| AddExpense.AddExpenseForm.constructor | Expenses/Views/AddExpenseView.swift:8-11 | a fresh form has an empty amount and note, "Food" selected, and the opening moment as its date |
| AddExpense.AddExpenseForm.OnAmountStringChange | Expenses/Views/AddExpenseView.swift:49-60 | the field becomes the normalised text (see NormalizeFacts) |
| AddExpense.AddExpenseForm.SelectCategory | Expenses/Views/AddExpenseView.swift:81 | choosing a row selects that row's category |
| AddExpense.AddExpenseForm.SaveExpense | Expenses/Views/AddExpenseView.swift:145-158 | exactly one add request when the amount is positive, and none otherwise |
| NumberParsing.ParseAmountText | Expenses/Views/AddExpenseView.swift:126-146 | on digits-and-dot text, `Double(_:)` succeeds exactly when there is at most one `.` and at least one digit, and the value is never negative |
| NumberParsing.ParseDoubleExamples | Expenses/Views/AddExpenseView.swift:146 | "450" reads as 450; "." and "" do not read as numbers |
| Grouping.GroupByDay | Expenses/Views/ExpenseListView.swift:59-67 | one group per day that has an expense, in descending day order, each holding that day's expenses |
| Grouping.GroupByDayFacts | Expenses/Views/ExpenseListView.swift:59-67 | the groups partition the list (each expense as often as in the list); each is non-empty, dated at midnight, and holds exactly its day's expenses; the days are strictly descending |
| Grouping.DateDescIsTotalPreorder | Expenses/Views/ExpenseListView.swift:66 | the latest-first date comparator is total and transitive |
| Grouping.CategorySums | Expenses/Views/MonthDetailView.swift:275-279 | one entry per listed category, holding that category's summed amount |
| Grouping.CategorySumsAddUp | Expenses/Views/MonthDetailView.swift:275-279 | the category sums add up to the amounts of the grouped expenses |
| Grouping.AmountDescIsTotalPreorder | Expenses/Views/MonthDetailView.swift:278 | the largest-first comparator is total and transitive |
| Grouping.CategoryTotalsPermutation | Expenses/Views/MonthDetailView.swift:275-279 | the sorted breakdown is a rearrangement of the per-category sums, has no duplicates and is sorted largest first |
| Grouping.CategoryTotalsEntry | Expenses/Views/MonthDetailView.swift:275-279 | each sorted entry is one of the per-category sums |
| Grouping.CategoryTotalsAmounts | Expenses/Views/MonthDetailView.swift:275-279 | every entry is its category's total, for a category that occurs in the list |
| Grouping.CategoryTotalsCover | Expenses/Views/MonthDetailView.swift:275-279 | every category in the list has an entry |
| Grouping.CategoryTotalsOrdered | Expenses/Views/MonthDetailView.swift:275-279 | categories are pairwise distinct and amounts do not increase along the breakdown |
| Grouping.CategoryTotalsSum | Expenses/Views/MonthDetailView.swift:275-279 | the entries add up to the list's total, and there are none exactly when the list is empty |
| MonthDetail.Filtered | Expenses/Views/MonthDetailView.swift:337-340 | no filter keeps the whole list; a filter keeps exactly the expenses of that type, each as often as it occurs in the list |
| MonthDetail.FilteredConcat | Expenses/Views/MonthDetailView.swift:337-340 | filtering a concatenation gives the filtered parts, concatenated in the same order |
| MonthDetail.FilteredOne | Expenses/Views/MonthDetailView.swift:339 | one expense is kept exactly when it has the chosen type; with the concatenation rule this fixes the result, in the list's original order |
| MonthDetail.FilteredSplit | Expenses/Views/MonthDetailView.swift:337-340 | one type's total plus the others' total is the whole total |
| MonthDetail.ExpensesByDay | Expenses/Views/MonthDetailView.swift:239-247 | the dictionary loop builds exactly the per-day amounts |
| MonthDetail.ByDayEntries | Expenses/Views/MonthDetailView.swift:239-247 | a day has an entry exactly when some expense falls on it, and the entry is that day's sum |
| MonthDetail.DayTotalAbsent | Expenses/Views/MonthDetailView.swift:239-247 | a day with no expense sums to 0 |
| MonthDetail.SumValuesAt | Expenses/Views/MonthDetailView.swift:251 | the sum of a dictionary's values does not depend on which key is taken first |
| MonthDetail.SumValuesUpdate | Expenses/Views/MonthDetailView.swift:244 | updating one entry changes the sum of the values by the difference |
| MonthDetail.ByDaySum | Expenses/Views/MonthDetailView.swift:239-251 | the per-day amounts add up to the list's total |
| MonthDetail.DailyAverageOfExpenses | Expenses/Views/MonthDetailView.swift:249-253 | the average is 0 for no expenses, and otherwise the total over the number of days that have an expense |
| MonthDetail.ExpensesForDayFacts | Expenses/Views/MonthDetailView.swift:205-209 | the day sheet shows each expense of that day as often as the list has it, no other expense, latest first |
| MonthDetail.MonthCategoryData | Expenses/Views/MonthDetailView.swift:275-279 | the breakdown of the filtered list adds up to the filtered total, one entry per category, largest first |
| MonthDetail.MonthGroupedExpenses | Expenses/Views/MonthDetailView.swift:315-323 | the day groups partition the filtered list, latest day first |
| MonthDetail.FirstWithId | Expenses/Views/MonthDetailView.swift:331 | the position of the first expense with that id, or the end when there is none |
| MonthDetail.RemoveFirstWithIdFacts | Expenses/Views/MonthDetailView.swift:331-333 | when some expense has the id, exactly the first such is removed and the rest keep their order; otherwise nothing changes |
| MonthDetail.RemoveAllWithIdsShrinks | Expenses/Views/MonthDetailView.swift:325-335 | local removal only drops expenses, at most one per deleted row |
| MonthDetail.FirstDayOffset | Expenses/Views/MonthDetailView.swift:231-237 | the offset is weekday − 1 (0 for Sunday, up to 6), and 0 when the month start is unknown |
| MonthDetail.DateFromID | Expenses/Views/MonthDetailView.swift:211-215 | the parsed month, or now when the id does not parse |
| MonthDetail.FormatMonthTitle | Expenses/Views/MonthDetailView.swift:259-267 | the rendered title when the id parses, otherwise the id unchanged |
| MonthDetail.MonthCategoryColorVersusRecord | Expenses/Views/MonthDetailView.swift:281-292 | the month view agrees with the record's palette on the six categories and "Other", and gives blue where the record gives gray for every other category |
| MonthDetail.MonthDetailState.constructor | Expenses/Views/MonthDetailView.swift:8-9 | a fresh view has no expenses and is loading |
| MonthDetail.MonthDetailState.OnMonthExpensesFetched | Expenses/Views/MonthDetailView.swift:196-199 | the delivered expenses are shown and loading stops |
| MonthDetail.MonthDetailState.DeleteExpenses | Expenses/Views/MonthDetailView.swift:325-335 | one repository delete per offset, for that row of the group; locally, the first expense with each row's id is removed, in turn |
| History.YearKey | Expenses/Views/HistoryView.swift:14-17 | the year key is the first (at most) four characters of the id, a missing id read as "" |
| History.YearDescIsTotalPreorder | Expenses/Views/HistoryView.swift:21 | the year comparator is total and transitive |
| History.GroupedStats | Expenses/Views/HistoryView.swift:13-22 | one group per year key, years descending, each holding that year's entries sorted by id, descending |
| History.GroupedStatsPartition | Expenses/Views/HistoryView.swift:13-17 | every stats entry lands in exactly one year group, and the group sizes add up to the ledger's size |
| History.GroupedStatsOrder | Expenses/Views/HistoryView.swift:13-22 | years strictly descending; months in each group by id, descending; each month shares its group's year prefix; every entry of that year is in the group |
| History.FormatMonth | Expenses/Views/HistoryView.swift:64-73 | "" for a missing or unparsable id, otherwise the rendered month |
| Donut.SlicesFacts | Expenses/Views/DonutChartView.swift:16-29 | the slices add up to the total; there is no slice exactly when there is no expense; one slice per category, its total, largest first |
| Donut.SliceInset | Expenses/Views/DonutChartView.swift:37 | the gap is either the configured inset or 0 |
| Donut.SliceInsetRule | Expenses/Views/DonutChartView.swift:37 | with a positive total a slice gets the inset exactly when it is more than 1% of the total |
| Donut.DonutColorMatchesRecord | Expenses/Views/DonutChartView.swift:64-75 | the donut palette agrees with the record's everywhere: the six categories their own colour, all others ("Other" included) gray |
| ExpenseList.TruncateTowardZero | Expenses/Views/ExpenseListView.swift:93 | `Int(_:)` cuts toward zero |
| ExpenseList.BadgeRule | Expenses/Views/ExpenseListView.swift:91-99 | a badge shows exactly when there is a percentage; an up arrow in red exactly for an increase, otherwise a down arrow in green; the label is the whole part of the change's size |
| ExpenseList.DeleteExpenses | Expenses/Views/ExpenseListView.swift:168-173 | one repository delete per offset, for the group's row at that offset |
| ExpenseList.DeletesOnePerOffset | Expenses/Views/ExpenseListView.swift:168-173 | rows from the store all have ids, so each offset sends exactly one delete, for that row's id |
| Formatting.FormattedTotalSplitsAtDot | Expenses/Views/ExpenseListView.swift:23-37 | text with one `.` strictly inside splits there into (whole, "." + fraction), and the parts rejoin to the text |
| Formatting.FormattedTotalWithoutDot | Expenses/Views/CreditCardView.swift:8-22 | text without `.` is the whole part, with ".00" |
| Formatting.FormattedTotalEdgeCases | Expenses/Views/ExpenseListView.swift:28-36 | "5." gives ("5.", ".00") because the split drops empty pieces; no formatter output gives ("0", ".00"); "1,234.50" gives ("1,234", ".50") |
| Formatting.FormattedTotalShape | Expenses/Views/CreditCardView.swift:14-21 | the fraction always starts with `.` and has at least two characters; the whole part is non-empty when the text is |
| CardColor.FirstKept | Expenses/Views/CreditCardView.swift:161 | the position of the first letter or digit; everything before it is neither |
| CardColor.KeptEnd | Expenses/Views/CreditCardView.swift:161 | one past the last letter or digit; everything after it is neither |
| CardColor.TrimFacts | Expenses/Views/CreditCardView.swift:161 | trimming cuts only non-alphanumeric characters, only at the two ends: the result is one slice of the text, starting and ending with a letter or digit, and interior characters are kept |
| CardColor.ScanHexValue | Expenses/Views/CreditCardView.swift:162-163 | the scanned value fits a `UInt64` |
| CardColor.ScanHexBound | Expenses/Views/CreditCardView.swift:162-163 | the scanned value has no more hex digits than the text has characters |
| CardColor.ChannelsInRange | Expenses/Views/CreditCardView.swift:165-171 | for trimmed lengths 3, 6 and 8, every channel is in 0..255 |
| CardColor.OtherLengthFallback | Expenses/Views/CreditCardView.swift:172-173 | any other length gives (a, r, g, b) = (1, 1, 1, 0) |
| CardColor.PureHexScan | Expenses/Views/CreditCardView.swift:161-163 | text of 2 to 16 hex digits is its own trim and scans to its full value |
| CardColor.ThreeDigits | Expenses/Views/CreditCardView.swift:166-167 | three hex digits: alpha 255, and each of red, green, blue is its digit times 17 |
| CardColor.SixDigits | Expenses/Views/CreditCardView.swift:168-169 | six hex digits: alpha 255, and red, green, blue are the three bytes from the left |
| CardColor.EightDigits | Expenses/Views/CreditCardView.swift:170-171 | eight hex digits: alpha, red, green, blue are the four bytes from the left (ARGB) |
| CardColor.CardGradientColors | Expenses/Views/CreditCardView.swift:30 | the card's gradient stops "1c1c1e" and "2c2c2e" are the opaque greys (0x1c, 0x1c, 0x1e) and (0x2c, 0x2c, 0x2e) |
| Sorting.SortByFacts | Expenses/Repositories/ExpenseRepository.swift:91 | the sort used for every `sorted`/`sort` yields a sorted rearrangement of its input, and keeps duplicate-freeness |

## Left out

- The Firestore store and Firebase sign-in are not modelled: listener registration and removal, the query's date order and 50-document limit, and the network calls. Each listener push is a method taking the delivered documents. `addDocument` and `delete` are appended to request logs, and their failures (only logged) are not modelled.
- SwiftUI rendering, sheets, navigation, the theme and the accent colour are not modelled. The same goes for the group titles ("Today", "Yesterday", dates) and the month calendar's date list.
- The clock, `Calendar`, `DateFormatter` and `NumberFormatter` are parameters: now, days in the month, the weekday of the month's first day, the formatted total, and date parsing and rendering. Dates are a calendar tuple, with no time zones or daylight saving.
- WidgetKit is not modelled: the timeline providers, the live activity and `WidgetDataManager.load`. Whether the JSON encoding succeeds, and whether the app group opens, are inputs to `WidgetSnapshot.WidgetDataManager.Save`.
- The monthly cache, `monthOverMonthPercentage`, `refreshStats()`, `fetchExpenses(forMonth:)` and the expense type are not modelled, because none is defined in the source:
  - the percentage is a parameter of the badge;
  - the month's fetch is the `OnMonthExpensesFetched` callback;
  - the type is a function `kind` from an expense to a type value.
- Double arithmetic is not modelled. Amounts are exact reals, `Double(String)` accepts decimal text with an optional sign and exponent (no hex, infinity or NaN), and the `/ 255` conversion of colour channels is left out.
- CardColor.Trim: letters and digits are ASCII only, while Foundation's `alphanumerics` set is Unicode.
- WidgetSnapshot.Uppercased: upper-cases ASCII letters only, not the full Unicode mapping.
- AddExpense.KeepAmountChars, Text.Prefix (and through it History.YearKey), CardColor.HexArgb and Text.Split: they filter, take and count Unicode scalars, while Swift's `filter`, `prefix(4)`, `count` and `split` work on Characters (extended grapheme clusters). For example, a digit followed by a combining accent is one Character that the amount filter drops, but the model keeps the digit.
- Text.LexLe: strings compare character by character, as sequences of Unicode scalars; Swift's `String` comparison works on extended grapheme clusters.
- Sorting.SortBy: it is stable, while Swift's sort need not be. The contracts speak only of order and permutation, so they do not depend on the order of ties.
- ExpenseList.TruncateTowardZero: the trap `Int(_:)` raises on values out of `Int` range is not modelled.
- Where the app's design and its code differ, the model follows the code:
  - `ExpenseRepository.swift` defines no month cache, no update operation and no month-over-month calculation, although the views call `fetchExpenses(forMonth:)`, `refreshStats()` and `monthOverMonthPercentage`;
  - `addExpense` only sends the request and never appends to the local list; the list changes only with the next push.
