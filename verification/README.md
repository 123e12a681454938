# Dashboard aggregation and personalization, modelled in Dafny

This project models two pieces of logic from a personal-finance dashboard
written in TypeScript and React.

- **The interactive area chart** (`chart-area-interactive.tsx`). It reads
  `dd/mm/yyyy` transaction dates (`parseDate`) and keys each day as
  `YYYY-MM-DD` (`formatDateToISO`). `processTransactionData` groups the
  transactions into one point per day, with that day's receita (income) and
  despesa (expense), sorted by day. The `filteredData` memo keeps the last
  7, 30 or 90 days of that series. The window is then folded into two pie
  slices (`pieData`) and seven weekday buckets, Dom..Sáb (`radarData`).
- **The personalization widgets** (`personalization-widgets.tsx`). They hold
  the savings goals and the spending alerts, both persisted to a store. They
  compute spending per category, progress and percentage bars capped at 100,
  and the list of categories. A settings dialog, a small state machine,
  creates goals and upserts alerts by category.

Modules:

| file | module | contents |
|---|---|---|
| `text.dfy` | `Text` | `split`, `join`, `String(n)`, `padStart(2, "0")`, digit-only `parseInt`, code-unit string order |
| `calendar.dfy` | `Calendar` | proleptic Gregorian dates `(year, month, day)`, a day number (0001-01-01 is day 0), `getDay` |
| `transactions.dfy` | `Transactions` | the transaction record, and the receita and despesa totals of a list |
| `chart_dates.dfy` | `ChartDates` | `parseDate`, `formatDateToISO`, and `new Date(key)` for `YYYY-MM-DD` keys |
| `chart_area.dfy` | `ChartArea` | `processTransactionData`, `filteredData`, `pieData`, `radarData` |
| `personalization.dfy` | `Personalization` | spending, percentages, alert upsert and toggle, categories, and the `Widgets` class holding the component state |

`processTransactionData` keeps its two phases:
- a loop filling the `groupedByDate` map (`GroupByDate`);
- listing of the entries by ascending day (`SortedEntries`).

The library sort is modelled as repeatedly taking the earliest remaining
day. `pieData` is a loop over a running `totals` value. `radarData`
updates a 7-element array in place. The component state of the widgets
is a class. Its methods change the goal and alert sequences and the dialog
fields. Two ghost fields, `savedGoals` and `savedAlerts`, stand for the
store and always equal the lists on screen.

Choices in the model:
- A date is a triple with its day number. The current date (`new Date()`)
  is a parameter `today`.
- Money is an integer. Percentages are reals.
- Number inputs are `Blank` or a number.
- The random ids of new goals and alerts are a `freshId` parameter.
- A chart point stores its day. Its `date` text is
  `Key(p) == FormatDateToISO(p.date)`. The source keys by that text and
  sorts by `new Date(key)`. For four-digit years the key is injective and
  order-preserving, and `new Date(key)` gives the day back (`KeyInjective`,
  `KeyOrder`, `ISORoundTrip`, `KeysAscend`). Grouping and sorting by day
  therefore give the same result.

## Model

| member | source | states |
|---|---|---|
| Text.Split | src/components/chart-area-interactive.tsx:74 | `split("/")` yields one more part than there are separators, and no part contains the separator |
| Text.SplitJoin | src/components/chart-area-interactive.tsx:74-75 | splitting the `/`-join of separator-free parts gives exactly those parts back |
| Text.ParseDecimal | src/components/chart-area-interactive.tsx:76-78 | `parseInt(String(n), 10)` reads back `n` |
| Text.PadDecimalIsFixed2 | src/components/chart-area-interactive.tsx:86-87 | `String(n).padStart(2, "0")` is the two-digit zero-filled rendering of any `n` below 100 |
| Text.FixedOrder | src/components/chart-area-interactive.tsx:86-88 | on zero-padded renderings of equal width, string order is numeric order |
| Calendar.Weekday | src/components/chart-area-interactive.tsx:185-186 | `getDay` of a valid date is one of 0..6 (Sunday is 0) |
| Calendar.WeekdayAnchors | src/components/chart-area-interactive.tsx:185-186 | `getDay` is 4 (Thursday) on 1970-01-01 and 1 (Monday) on 2024-01-01, so the numbering is JavaScript's |
| Calendar.NextWeekday | src/components/chart-area-interactive.tsx:185-186 | the day after any date has the next `getDay`, 6 (Saturday) wrapping to 0 (Sunday) |
| Calendar.OrdinalOrder | src/components/chart-area-interactive.tsx:116 | comparing day numbers (`getTime`) is calendar order: by year, then month, then day |
| Calendar.OrdinalInjective | src/components/chart-area-interactive.tsx:116 | two valid dates have the same day number exactly when they are the same date |
| ChartDates.MakeDate | src/components/chart-area-interactive.tsx:80 | `new Date(year, monthIndex, day)` gives the date with month `monthIndex + 1` when it exists; years 0..99 mean 1900..1999 |
| ChartDates.ParseDate | src/components/chart-area-interactive.tsx:73-82 | the result is the supplied `today` exactly when the text does not have exactly two `/`; otherwise it is a valid date, or an unmodelled JavaScript date |
| ChartDates.ParseDateSound | src/components/chart-area-interactive.tsx:74-80 | a parsed date has the first part as its day, the second as its month, and the third as its year, 0..99 read as 1900..1999 |
| ChartDates.ParseDateComplete | src/components/chart-area-interactive.tsx:74-80 | whenever the three parts name a real day, that day is the result, so `Unsupported` covers exactly the two-slash texts that name none |
| ChartDates.ParseDayMonthYear | src/components/chart-area-interactive.tsx:73-82 | the `dd/mm/yyyy` text of a date with a year of three or more digits parses to that very date |
| ChartDates.FormatDateToISO | src/components/chart-area-interactive.tsx:84-89 | the key is the year, `-`, the two-digit month, `-`, the two-digit day; for years 1000..9999 it is exactly `YYYY-MM-DD` |
| ChartDates.ParseISO | src/components/chart-area-interactive.tsx:154 | `new Date(key)` on a `YYYY-MM-DD` text yields only valid dates with years 0..9999 |
| ChartDates.ISORoundTrip | src/components/chart-area-interactive.tsx:84-89 | reading a key back with `new Date(key)` gives the date it was made from (four-digit years) |
| ChartDates.KeyInjective | src/components/chart-area-interactive.tsx:96-101 | two days share a `groupedByDate` key exactly when they are the same day (four-digit years) |
| ChartDates.KeyOrder | src/components/chart-area-interactive.tsx:110-116 | string order on keys is chronological order (four-digit years) |
| ChartArea.DayOf | src/components/chart-area-interactive.tsx:96 | every transaction a well-dated list holds is filed under a valid day |
| ChartArea.DaysOf | src/components/chart-area-interactive.tsx:95-97 | the days under which transactions are filed are all valid dates |
| ChartArea.ProcessTransactionData | src/components/chart-area-interactive.tsx:91-117 | one point per distinct day of the input, strictly ascending by day, each holding the sum of that day's receita values and of its despesa values; no input, no points |
| ChartArea.GroupByDate | src/components/chart-area-interactive.tsx:95-108 | after the `forEach`, the map's keys are exactly the input's days, and each holds that day's receita and despesa sums |
| ChartArea.SortedEntries | src/components/chart-area-interactive.tsx:110-116 | the entries come out once each, strictly ascending by day, carrying their totals unchanged |
| ChartArea.ListEarliest | src/components/chart-area-interactive.tsx:116 | moving the earliest remaining day to the end keeps the listed days ascending and before every remaining day |
| ChartArea.EarliestExists | src/components/chart-area-interactive.tsx:116 | every non-empty set of days has an earliest day |
| ChartArea.NothingOnOtherDays | src/components/chart-area-interactive.tsx:99-101 | a day with no transactions has zero receita and despesa, so a new key starts at `{ receita: 0, despesa: 0 }` |
| ChartArea.DailySeriesUnique | src/components/chart-area-interactive.tsx:91-117 | only one series meets that description, so the output is determined by the input |
| ChartArea.AscendingDetermined | src/components/chart-area-interactive.tsx:116 | two strictly ascending series over the same days list the days in the same order |
| ChartArea.DailySeriesConservesTotals | src/components/chart-area-interactive.tsx:103-107 | summed over all days, the series' receita and despesa equal the input's receita and despesa totals |
| ChartArea.ReserializeRegroups | src/components/chart-area-interactive.tsx:91-117 | writing an ascending series back as one receita and one despesa `dd/mm/yyyy` record per day, and grouping those records again, describes the same series: grouping is idempotent |
| ChartArea.RegroupIsIdentity | src/components/chart-area-interactive.tsx:91-117 | no other series can come out of grouping the re-serialized records |
| ChartArea.DayRecordsStep | src/components/chart-area-interactive.tsx:95-108 | appending one day's two records adds that day, and its receita and despesa, to the grouping and changes no other day |
| ChartArea.AmountsAtSnoc | src/components/chart-area-interactive.tsx:95-107 | one more transaction adds its value, once, at its own day and kind, and nowhere else |
| ChartArea.KeysAscend | src/components/chart-area-interactive.tsx:110-116 | the `date` keys of the output ascend in string order and read back as their days (four-digit years) |
| ChartArea.KeepFrom | src/components/chart-area-interactive.tsx:153-156 | `filter(date >= start)` keeps, in order, exactly the points on or after the start day |
| ChartArea.KeepFromCounts | src/components/chart-area-interactive.tsx:153-156 | the filter keeps every copy of a point on or after the start day and no copy of any other |
| ChartArea.FilteredData | src/components/chart-area-interactive.tsx:136-157 | an empty series gives nothing; otherwise the order-preserving subsequence of points on or after the last day minus 30 (`"30d"`), 7 (`"7d"`) or 90 (anything else) days |
| ChartArea.KeepFromTwice | src/components/chart-area-interactive.tsx:153-156 | filtering with a later start after an earlier one is filtering with the later start |
| ChartArea.WindowCounts | src/components/chart-area-interactive.tsx:136-157 | every window keeps each point inside it as many times as the series has it, and drops every point outside it |
| ChartArea.WindowsNest | src/components/chart-area-interactive.tsx:139-156 | the 7-day window is contained in the 30-day window, which is contained in the 90-day window, which is contained in the series |
| ChartArea.WindowKeepsLast | src/components/chart-area-interactive.tsx:139-156 | a non-empty series keeps its last point in every window |
| ChartArea.WindowIsSuffix | src/components/chart-area-interactive.tsx:136-157 | on an ascending series every window is a trailing run of the series |
| ChartArea.PieData | src/components/chart-area-interactive.tsx:159-177 | exactly two slices, Receita then Despesa with their fills, valued at the window's receita and despesa sums |
| ChartArea.RadarData | src/components/chart-area-interactive.tsx:179-193 | exactly seven buckets Dom..Sáb; bucket `w` holds the receita and despesa sums of the window's days falling on weekday `w` |
| ChartArea.WeekdaysCoverTotal | src/components/chart-area-interactive.tsx:159-193 | the seven radar buckets add up to the pie slice of the same kind |
| Personalization.CategorySpending | src/components/personalization-widgets.tsx:94-98 | spending in a category is non-negative and at least the magnitude of each of its despesa records |
| Personalization.CategorySpendingAppend | src/components/personalization-widgets.tsx:94-98 | spending adds up over concatenated transaction lists |
| Personalization.CategorySpendingIgnores | src/components/personalization-widgets.tsx:96 | records that are not despesa of the category contribute nothing |
| Personalization.ClampedPercent | src/components/personalization-widgets.tsx:231-234 | `min(part / whole * 100, 100)` never exceeds 100; for a positive whole it reaches 100 exactly when part ≥ whole and is otherwise the exact ratio; a zero whole gives 100 for a positive part, `NaN` for a zero part and `-Infinity` for a negative one |
| Personalization.GoalProgress | src/components/personalization-widgets.tsx:189-192 | goal progress never exceeds 100 and, for a positive target, is 100 exactly when the current amount reaches the target |
| Personalization.EvaluateAlert | src/components/personalization-widgets.tsx:230-235 | `isOverLimit` holds exactly when spending exceeds the limit; with a positive limit the percentage lies in 0..100 and is 100 when over the limit |
| Personalization.EnabledAlerts | src/components/personalization-widgets.tsx:228 | `filter(a => a.enabled)` keeps the enabled alerts in list order, each as many times as the list holds it, and nothing else |
| Personalization.AlertViews | src/components/personalization-widgets.tsx:227-236 | view `i` evaluates the `i`-th enabled alert, so the views follow list order with one view per enabled entry, and every enabled alert is shown |
| Personalization.AlertFor | src/components/personalization-widgets.tsx:129 | `find` yields the first alert of the category, and nothing exactly when no alert has that category |
| Personalization.SetLimit | src/components/personalization-widgets.tsx:132-136 | same length; each alert of the category gets the new limit and `enabled = true`; the others are untouched |
| Personalization.UpsertAlert | src/components/personalization-widgets.tsx:126-150 | an existing category keeps length, order, ids and categories, updates only that category's limit and sets it enabled; a new category appends one enabled alert; at most one alert per category is preserved; ids stay unique when the fresh id is new |
| Personalization.UpsertThenFind | src/components/personalization-widgets.tsx:126-150 | afterwards the category's alert has the new limit and is enabled, keeping its id if it existed and taking the fresh id otherwise; other categories find what they found before |
| Personalization.FindAfterSetLimit | src/components/personalization-widgets.tsx:129-136 | after the update, `find` yields the category's former alert with the new limit, enabled |
| Personalization.FindInAppended | src/components/personalization-widgets.tsx:137-148 | after appending the new alert, `find` yields it |
| Personalization.UpsertTwice | src/components/personalization-widgets.tsx:124-153 | adding an alert for the same category twice is the same as adding it once with the second limit |
| Personalization.SetLimitTwice | src/components/personalization-widgets.tsx:132-136 | updating a category's limit twice leaves only the second limit |
| Personalization.SetLimitOfNew | src/components/personalization-widgets.tsx:137-148 | updating the limit of a freshly appended alert is the same as appending it with that limit |
| Personalization.SetEnabled | src/components/personalization-widgets.tsx:155-162 | same length and order; only `enabled` changes, and only on alerts with the id; at most one alert per category is preserved |
| Personalization.ToggleBack | src/components/personalization-widgets.tsx:155-162 | toggling an id off and on again restores the list when its alerts all had that setting |
| Personalization.InsertSorted | src/components/personalization-widgets.tsx:166-171 | adding a category to a sorted, duplicate-free list keeps it sorted and duplicate-free and adds just that category |
| Personalization.Categories | src/components/personalization-widgets.tsx:165-172 | the categories are sorted in code-unit order, free of duplicates, and are exactly the default categories plus the transactions' categories |
| Personalization.SortedUnique | src/components/personalization-widgets.tsx:171 | a sorted, duplicate-free list is determined by its elements, so `categories` is the one such list |
| Personalization.Widgets.constructor | src/components/personalization-widgets.tsx:69-82 | on mount the lists are the stored ones and the dialog is closed at the first step |
| Personalization.Widgets.OpenSettings | src/components/personalization-widgets.tsx:278 | the card opens the dialog and changes nothing else |
| Personalization.Widgets.CloseSettings | src/components/personalization-widgets.tsx:84-92 | closing returns the step to "select" and clears both drafts; the lists are unchanged |
| Personalization.Widgets.ChooseGoal | src/components/personalization-widgets.tsx:307 | "select" moves to "goal" and keeps the drafts |
| Personalization.Widgets.ChooseAlert | src/components/personalization-widgets.tsx:317 | "select" moves to "alert" and keeps the drafts |
| Personalization.Widgets.Back | src/components/personalization-widgets.tsx:416 | "Voltar" returns to "select" and keeps the drafts and the lists |
| Personalization.Widgets.EditGoal | src/components/personalization-widgets.tsx:335-363 | typing in the goal form changes only the goal draft |
| Personalization.Widgets.EditAlert | src/components/personalization-widgets.tsx:375-400 | the alert form changes only the alert draft |
| Personalization.Widgets.HandleAddGoal | src/components/personalization-widgets.tsx:107-122 | with no name or no target nothing changes; otherwise exactly one goal is appended with `currentAmount` defaulting to 0, earlier goals are unchanged, the store holds the new list, and the dialog closes; ids stay unique when the new id is fresh |
| Personalization.Widgets.HandleAddAlert | src/components/personalization-widgets.tsx:124-153 | with no category or no limit nothing changes; otherwise the alerts become the upsert of the draft, the store holds the new list, the dialog closes, at most one alert per category is preserved, and ids stay unique when the new id is fresh |
| Personalization.Widgets.ToggleAlert | src/components/personalization-widgets.tsx:155-163 | the alerts become the toggle of the id, the store holds the new list, and nothing else changes |

## Left out

- Rendering is not modelled: JSX, the recharts components, icons, the card, dialog and select widgets, and the `isVisible` blur styling.
- The `useIsMobile` effect that switches the range to `"7d"` is not modelled. It is an environment effect. `FilteredData` takes the range as given.
- The chart type toggle is not modelled. It only chooses a renderer.
- The 300 ms `setTimeout` before the dialog reset is not modelled. The reset happens at once on close (`Widgets.CloseSettings`). Reopening within 300 ms, which would show the old drafts, is not modelled.
- ChartArea.ReserializeRegroups: stated for years 100 and later, the years whose `dd/mm/yyyy` text `parseDate` reads back unchanged. The fields the chart does not read (`id`, `transaction`, `category`, `effectiveValue`) are placeholders in the re-serialized records.
- Time zones and daylight saving are left out. The source reads keys as UTC (`new Date(key)`) in the sort and the filter. It reads them as local time (`key + "T00:00:00"`) in `radarData`. The model reads every key as the calendar day it names.
- ChartDates.ParseDate: a three-part text is modelled only when every part is all digits and the parts name a real date (`ParseDateSound`, `ParseDateComplete`). `new Date` overflow normalisation (31/02 becoming 03/03), `parseInt` partial parses ("12abc") and `NaN` dates give `Unsupported`. The aggregation requires no such record (`WellDated`).
- ChartDates.FormatDateToISO: the key is `YYYY-MM-DD` only for years 1000..9999. Other years print unpadded or with five or more digits, and `new Date` does not read such keys as date-only ISO. The round trip and the key order are stated for four-digit years only.
- ChartArea.ProcessTransactionData: groups and sorts by the day itself rather than by the key text. This is the same only for four-digit years (see `KeysAscend`).
- The `!data` guard of the `chartData` memo is not modelled, because the model has no undefined list. Its empty-list case is covered by the `data == [] ==> series == []` clause of `ChartArea.ProcessTransactionData`.
- ChartArea.RadarData: the `if (buckets[dayIndex])` guard always holds, because `getDay` is 0..6. The model indexes the bucket directly.
- Floating-point sums and divisions are not modelled. Money is an integer and percentages are exact reals. `Personalization.ClampedPercent` models only the zero-divisor cases of JavaScript division (`+Infinity` capped to 100, `NaN`, `-Infinity`).
- Decimal amounts typed into number inputs are not modelled. The inputs hold integers.
- `Math.random` ids are replaced by a `freshId` parameter. Ids stay unique only when that id is fresh, and the model says so as a conditional.
- `formatCurrency` (locale currency formatting) is left out.
- The persistence functions `getSavingsGoals`, `saveSavingsGoals`, `getSpendingAlerts` and `saveSpendingAlerts` are not part of this model. The store is a pair of ghost lists, written whole on every change.
- Personalization.Categories: sorted by UTF-16 code units in the source. In the model, Dafny characters are compared, which is the same order except for characters outside the Basic Multilingual Plane.
- `toggleAlert` is not wired to any control in the rendered markup. It is modelled anyway (`Widgets.ToggleAlert`).
