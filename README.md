# AI tool performance dashboard: the data pipeline

The dashboard (`src/App.js`) loads a list of usage events. Each event has a
time, an optional edit count, an optional satisfaction rating and a user
role. The dashboard charts the daily averages of the two numeric columns.
This project models the three in-memory steps behind that chart and proves
what they compute.

- **Daily aggregation** (`groupAndAggregateData`). A `reduce` builds a
  dictionary keyed by calendar day. Each entry keeps a running sum and count
  for edits and for satisfaction. A reading joins its sum only when it passes
  the guard `value && !isNaN(value)`. A missing value, the number `0`, the
  empty string and a non-numeric string are skipped. A numeric string is
  truthy even when it reads as zero, so `"0"` is counted as a reading of 0.
  A `map` then turns each entry into a row. A column's
  average in that row is `null` when its count is 0. Finally the rows are
  sorted by date.
  - Modules: `Records` (the events and the JavaScript truthiness, `isNaN` and
    `Number` semantics of the guard) and `Aggregation`.
  - The `reduce` is the method `AccumulateByDay`. It loops over the events
    and updates a `map<Day, Accumulator>` through the callback `AddRecord`
    and its field updates `AddReadings`. A list of keys records the
    dictionary's insertion order, which `Object.values` reports: each day
    once, in the order of its first event.
  - The `map` and the `sort` are the method `RowsByDate`. The `map` step is
    `ToRow`. The `sort` inserts one row at a time (`InsertByDate`).
  - The method `GroupAndAggregateData` is proved against the reference
    predicate `IsAggregateOf`. The predicate requires rows in strictly
    ascending date order, exactly one row per day of the input, and each row
    equal to that day's `DayRow`. `DayRow` gives the mean of the valid
    readings of the day, `None` standing for `null`.
- **Filter stage** (`handleFilterChange`).
  - The method `FilterRecords` copies the events. It filters by date only
    when both ends of the range are set, with strict comparisons on both
    sides. It then filters by role unless the selection is `'All'`.
  - It is proved equal to the one-pass reference `Selected`, which keeps
    exactly the records passing both predicates.
  - `Dashboard.HandleFilterChange` runs the filter and then the aggregation.
  - The range picker's value is a pair of optional ends, or `null` once the
    user clears the range (`Dashboard.PickerValue`). See "Findings" for what
    the code does with `null`.
- **Role list** (the fetch callback). `Array.from(new Set(roles))` is
  modelled as `Distinct`, which keeps Set insertion order. `'All'` is put in
  front of that list.

Modelling choices:
- Timestamps are integers: milliseconds since the epoch in the viewer's
  local time.
- The `YYYY-MM-DD` key is `DayOf(t)`, the number of whole days before `t`.
- Averages are exact reals.
- A JSON field is `Absent`, a number `Num(n)`, or a string `Text(s, v)`.
  In `Text(s, v)`, `v` is the finite value of `Number(s)`, and `None` means `NaN`.

Two behaviours of the code are kept as written:
- A JSON number `0` is falsy and so never counted, while the string `"0"`
  is counted (`Records.Contribution`, `Records.ZeroReadings`,
  `Aggregation.InvalidReadingIgnored`).
- `new Set` knows nothing of the `'All'` sentinel put in front of it. A
  role named `'All'` in the data is therefore listed again after the
  leading `'All'` (`Roles.SentinelNotDeduplicated`).

## Model

| member | source | states |
|---|---|---|
| `Records.Contribution` | src/App.js:25-34 | A reading is counted exactly when it is truthy and not NaN. A counted JSON number is the number itself and never 0. A counted string adds `Number(string)`. |
| `Records.ZeroReadings` | src/App.js:25-34 | The number 0 and the empty string are not counted. The string `"0"` is truthy and counted as 0. |
| `Records.DayOfBounds` | src/App.js:19 | The day key of an instant is the day whose 24 hours contain it. Later instants never get earlier days. |
| `Aggregation.GroupAndAggregateData` | src/App.js:16-45 | The result satisfies `IsAggregateOf(rows, data)`. Rows are in strictly ascending date order. There is one row for each day of the input and for no other day. Each row holds its day's two averages. |
| `Aggregation.AccumulateByDay` | src/App.js:17-37 | After the `reduce`, the dictionary's keys are exactly the days of the input. Each entry holds the sum and count of that day's valid readings of each column. The key list holds each key once, in the order of each day's first record (the input's days deduplicated by `Roles.Distinct`). |
| `Aggregation.AddRecord` | src/App.js:18-36 | The callback keeps the dictionary exact. After it, every day's entry is the tally of the records read so far, one more record included. The key list is unchanged when the record's day already has an entry. Otherwise it gains that day at its end. |
| `Aggregation.RowsByDate` | src/App.js:38-44 | From the finished dictionary and its key list, the `map` and the `sort` give rows that satisfy `IsAggregateOf`. |
| `Aggregation.AddReadings` | src/App.js:24-34 | The two guarded additions turn the record's day's tally before the record into the tally after it. |
| `Aggregation.TallyOfAbsentDay` | src/App.js:20-22 | A day with no record so far has zero sums and zero counts, the values a new entry starts from. |
| `Aggregation.AverageOfTally` | src/App.js:38-43 | The `map` step turns a day's final tally into that day's row: the sum divided by the count, or null when the count is 0. |
| `Aggregation.InsertByDate` | src/App.js:44 | The `sort`, one row at a time: the result is strictly ascending by date. It is a permutation of the old rows plus the new one. Its dates are the old dates plus the new one. |
| `Aggregation.AggregateCoversInput` | src/App.js:17-44 | Every output row's date is the day of some input record. Every input record's day has a row. No two rows share a date. The output is empty exactly when the input is. |
| `Aggregation.SingleDayAggregate` | src/App.js:17-44 | Records that all fall on one day aggregate to that day's row alone. |
| `Aggregation.NullExactlyWithoutReadings` | src/App.js:38-43 | A day's average of a column is null exactly when none of the day's records has a valid reading of it. Otherwise it is the sum of those readings divided by their number. |
| `Aggregation.MeasuresIndependent` | src/App.js:24-34 | A column's readings and average depend only on the records' days and their readings of that column. The other column may hold anything. |
| `Aggregation.InvalidReadingIgnored` | src/App.js:25-34 | A record whose reading of a column the guard rejects (missing, the number 0, the empty string or a non-numeric string) changes that column's readings on no day, wherever it stands in the input. |
| `Aggregation.ValuesAppend` | src/App.js:18-37 | The valid readings of a concatenation are those of the first part followed by those of the second. |
| `Aggregation.ValuesPermutation` | src/App.js:18-37 | Reordering the input gives each day the same multiset of valid readings. |
| `Aggregation.SumPermutation` | src/App.js:26 | A running sum does not depend on the order of its summands. |
| `Aggregation.DayRowPermutation` | src/App.js:18-43 | A day's row depends only on the multiset of input records. |
| `Aggregation.AscendingUnique` | src/App.js:44 | Two strictly ascending series over the same dates whose rows agree date by date are equal, so sorting leaves no choice. |
| `Aggregation.AggregationOrderIndependent` | src/App.js:16-45 | Two inputs that are permutations of each other have the same aggregation. |
| `Filters.FilterRecords` | src/App.js:68-83 | The two-stage filter returns exactly the one-pass reference `Selected`: the records passing both predicates, in input order. |
| `Filters.KeepTwice` | src/App.js:72-83 | Two filters in a row equal one filter with the conjunction of the two predicates. |
| `Filters.KeepCounts` | src/App.js:73 | A filter keeps every occurrence of an accepted element and none of a rejected one. |
| `Filters.KeepIsSubsequence` | src/App.js:73 | A filter's result is an order-preserving subsequence of its input. |
| `Filters.NoFilterIsIdentity` | src/App.js:69-83 | With either end of the date range unset and the role `'All'`, the filter returns its input unchanged. |
| `Filters.SelectedIsSubsequence` | src/App.js:69-83 | The filtered records are an order-preserving subsequence of the input. |
| `Filters.SelectedExactly` | src/App.js:72-83 | When both ends are set, every kept record lies strictly between them. When the role is not `'All'`, every kept record has exactly that role. A record passing both predicates is kept as often as it occurs, and any other record never. |
| `Roles.DistinctElements` | src/App.js:56 | The deduplicated list holds exactly the elements of its input. |
| `Roles.DistinctNoDuplicates` | src/App.js:56 | The deduplicated list holds no element twice. |
| `Roles.DistinctFirstAppearanceOrder` | src/App.js:56 | The deduplicated list is ordered by first appearance in the input. |
| `Roles.DistinctLength` | src/App.js:56 | The deduplicated list has one entry per distinct element. |
| `Roles.RoleOptionsSpec` | src/App.js:56-57 | The role list starts with `'All'`, then holds every role of the data exactly once, in first-appearance order. Its length is 1 plus the number of distinct roles. |
| `Roles.SentinelNotDeduplicated` | src/App.js:57 | `'All'` occurs twice in the role list when some record's role is `'All'`, once otherwise. |
| `Dashboard.HandleFilterChange` | src/App.js:68-88 | The recomputed chart series is the aggregation of exactly the records the current selections admit. |
| `Dashboard.HandleFilterChangeAsWritten` | src/App.js:68-98 | With the picker value stored as the code stores it, a cleared range throws a TypeError, and only a cleared range does. Any pair of ends gives the aggregation of the records those selections admit. |
| `Dashboard.HandlePickerChange` | src/App.js:68-90 | Corrected recomputation: every picker value gives a series, the aggregation of the records its selections admit. A pair of ends gives the same series as the code. |
| `Dashboard.ClearedRangeShowsFullAggregation` | src/App.js:68-90 | Corrected: clearing the range with the role `'All'` shows the full aggregation again. |
| `Dashboard.ClearedRangeKeepsRoleFilter` | src/App.js:72-83 | Corrected: after clearing the range, a record is kept exactly when it is in the data and matches the selected role, or the role is `'All'`. |
| `Dashboard.InitialViewIsFullAggregation` | src/App.js:12-13 | Under the initial selections (no date range, role `'All'`), the filtered series is the full aggregation shown when the data arrives. |
| `Dashboard.FilteredViewOrderIndependent` | src/App.js:68-87 | The filtered series depends only on the selections and the multiset of raw records. |
| `Dashboard.BothEventsExample` | src/App.js:16-45 | Example: a 4-edit event rated 5 and a 2-edit event rated "n/a" on one day give one row, with 3 edits on average and satisfaction 5. |
| `Dashboard.EngineerFilterExample` | src/App.js:81-83 | Example: selecting the role "Engineer" keeps only the engineer's event. |
| `Dashboard.EngineerAggregateExample` | src/App.js:81-86 | Example: after selecting "Engineer", the series is one row with the engineer's own readings. |
| `Dashboard.IndependentAveragesExample` | src/App.js:38-43 | Example: a day whose only rating is "n/a" has an edit average but a null satisfaction average. |

## Findings

| source | as written | input that shows it | evidently intended | confidence | as-written member | corrected member |
|---|---|---|---|---|---|---|
| src/App.js:72 | The range picker's `onChange` (line 98) stores its value in `dateRange`, which is `null` after the user clears the range. The effect (line 90) then evaluates `dateRange[0]`, which throws a TypeError inside the effect. With no error boundary, React then unmounts the whole component tree, so the dashboard goes blank. | Pick a date range, then clear it with the picker's clear button. | A cleared range means no date filter, as with the initial `[null, null]`. | medium, not executed | `Dashboard.HandleFilterChangeAsWritten` | `Dashboard.HandlePickerChange`, `Dashboard.ClearedRangeShowsFullAggregation` |

## Left out

- Fetching `/data.json`, JSON parsing and console logging are I/O. The model starts from the parsed list of records.
- React state, effects and rendering are left out: the `useState` setters, the `useEffect` wiring, the chart, the date picker and the select.
  - The recomputation on each filter change is the method `Dashboard.HandleFilterChange`.
  - The initial selections are the constant `Filters.Initial`.
- dayjs parsing, local-time formatting to `YYYY-MM-DD`, and `isAfter`/`isBefore` are left out.
  - Timestamps are integers already in local time, and the day key is `DayOf`.
  - Time zones and daylight-saving shifts are not modelled.
  - Comparing the `YYYY-MM-DD` strings through `new Date` in the sort is modelled as comparing day numbers.
- The date picker's ends are modelled as optional timestamps. Clearing the picker throws in the code (see "Findings"). The rest of the model treats a cleared range as no range.
- Every record is assumed to carry a valid `"Date and Time"`. In the code, a missing one makes `dayjs(undefined)` the current time, so the record joins today's row. An unparseable one gets the key `"Invalid Date"`, whose `new Date(...)` is NaN, so the sort comparator returns NaN and ascending order is no longer guaranteed. Neither case is modelled.
- Floating-point division and the `.toFixed(2)` rounding to a string are left out. Averages are exact reals.
- The running sums are exact reals. Floating-point addition is not associative, so in the code a day's sum can differ in its last bits when the records come in another order. The four order-independence results below hold for exact sums only.
- Aggregation.SumPermutation: holds for exact sums only, not for the code's floating-point `+=`.
- Aggregation.DayRowPermutation: holds for exact sums only, not for floating-point sums.
- Aggregation.AggregationOrderIndependent: holds for exact sums only, not for floating-point sums.
- Dashboard.FilteredViewOrderIndependent: holds for exact sums only, not for floating-point sums.
- Records.Contribution: `Number` can give `Infinity` or `-Infinity` (the string `"Infinity"`, `"1e400"`, or a JSON number too large for a double). Such a value is truthy and not NaN, so the code counts it, and the day's average becomes infinite or NaN. Reals cannot hold it, so the model's `Number(text)` is a finite value or NaN.
- Aggregation.AddReadings: an edit count given as a JSON string is added as `Number(string)`. The code's `+=` on that field would concatenate strings instead. The model assumes edit counts arrive as numbers.
- JSON values other than numbers, strings and missing/null (booleans, arrays, objects) are not modelled in the numeric columns. A record's role is modelled as a string.
- The library `sort` is modelled as insertion into an ascending list. The dates are distinct, so any correct sort gives the same result (`Aggregation.AscendingUnique`).
