/** Daily aggregation: records are grouped by calendar day and each day gets
    the mean edit count and the mean satisfaction rating of its records,
    each computed over the readings that pass the numeric guard only. */
module Aggregation {
  import opened Records
  import Roles

  /** One row of the chart's series; a None average is the source's null. */
  datatype DailyAggregate = DailyAggregate(date: Day, avgEdits: Option<real>, avgSatisfaction: Option<real>)

  /** The running totals the source keeps per day in its dictionary. */
  datatype Accumulator = Accumulator(date: Day, totalEdits: real, totalSatisfaction: real, countEdits: nat, countSatisfaction: nat)

  // ---------------------------------------------------------------------
  // Reference definitions

  /** The readings of column m, on day d, that pass the numeric guard, in input order. */
  function Values(rs: seq<Record>, d: Day, m: Measure): seq<real>
  {
    if rs == [] then []
    else
      var last := rs[|rs| - 1];
      var c := Contribution(Reading(last, m));
      Values(rs[..|rs| - 1], d, m) + (if DayOf(last.time) == d && c.Some? then [c.value] else [])
  }

  function Sum(xs: seq<real>): real
  {
    if xs == [] then 0.0 else Sum(xs[..|xs| - 1]) + xs[|xs| - 1]
  }

  /** Arithmetic mean, null for no values. */
  function Mean(xs: seq<real>): Option<real>
  {
    if |xs| == 0 then None else Some(Sum(xs) / (|xs| as real))
  }

  /** The days on which some record falls. */
  function DaysOf(rs: seq<Record>): set<Day>
  {
    set r | r in rs :: DayOf(r.time)
  }

  /** The row the dashboard should show for day d. */
  function DayRow(rs: seq<Record>, d: Day): DailyAggregate
  {
    DailyAggregate(d, Mean(Values(rs, d, Edits)), Mean(Values(rs, d, Satisfaction)))
  }

  function Dates(rows: seq<DailyAggregate>): set<Day>
  {
    set y | y in rows :: y.date
  }

  predicate StrictlyAscending(rows: seq<DailyAggregate>)
  {
    forall i, j :: 0 <= i < j < |rows| ==> rows[i].date < rows[j].date
  }

  /** rows is the daily aggregation of rs: one row per day of rs, no other
      rows, in ascending date order, each holding that day's averages. */
  predicate IsAggregateOf(rows: seq<DailyAggregate>, rs: seq<Record>)
  {
    && StrictlyAscending(rows)
    && Dates(rows) == DaysOf(rs)
    && forall y :: y in rows ==> y == DayRow(rs, y.date)
  }

  /** The accumulator the dictionary holds for day d after reading rs. */
  function Tally(rs: seq<Record>, d: Day): Accumulator
  {
    Accumulator(d, Sum(Values(rs, d, Edits)), Sum(Values(rs, d, Satisfaction)),
                |Values(rs, d, Edits)|, |Values(rs, d, Satisfaction)|)
  }

  // ---------------------------------------------------------------------
  // The operation

  /** The average of column m that a row shows. */
  function AverageOf(row: DailyAggregate, m: Measure): Option<real>
  {
    match m
    case Edits => row.avgEdits
    case Satisfaction => row.avgSatisfaction
  }

  /** The `map` step: turns one accumulator into a row. */
  function ToRow(a: Accumulator): DailyAggregate
  {
    DailyAggregate(a.date,
                   if a.countEdits > 0 then Some(a.totalEdits / (a.countEdits as real)) else None,
                   if a.countSatisfaction > 0 then Some(a.totalSatisfaction / (a.countSatisfaction as real)) else None)
  }

  /** The `sort` step, one row at a time: puts x into date-ordered rows. */
  function InsertByDate(rows: seq<DailyAggregate>, x: DailyAggregate): (r: seq<DailyAggregate>)
    requires StrictlyAscending(rows) && x.date !in Dates(rows)
    ensures StrictlyAscending(r)
    ensures multiset(r) == multiset(rows) + multiset{x}
    ensures Dates(r) == Dates(rows) + {x.date}
  {
    if rows == [] then
      assert Dates([x]) == {x.date} by { SameElementsSameDates([x], [], x); }
      [x]
    else if x.date < rows[0].date then
      InsertFront(rows, x);
      [x] + rows
    else
      assert StrictlyAscending(rows[1..]) && x.date !in Dates(rows[1..]) by {
        AscendingTail(rows);
      }
      var tail := InsertByDate(rows[1..], x);
      InsertBehind(rows, x, tail);
      [rows[0]] + tail
  }

  /** A row dated before the first row of an ascending series goes in front. */
  lemma InsertFront(rows: seq<DailyAggregate>, x: DailyAggregate)
    requires StrictlyAscending(rows) && rows != [] && x.date < rows[0].date
    ensures StrictlyAscending([x] + rows)
    ensures Dates([x] + rows) == Dates(rows) + {x.date}
  {
    AscendingTail(rows);
    PrependAscending(x, rows);
    SameElementsSameDates([x] + rows, rows, x);
  }

  /** A row dated after the first row goes into the rest of the series. */
  lemma InsertBehind(rows: seq<DailyAggregate>, x: DailyAggregate, tail: seq<DailyAggregate>)
    requires StrictlyAscending(rows) && rows != [] && rows[0].date < x.date
    requires StrictlyAscending(tail)
    requires multiset(tail) == multiset(rows[1..]) + multiset{x}
    ensures StrictlyAscending([rows[0]] + tail)
    ensures multiset([rows[0]] + tail) == multiset(rows) + multiset{x}
    ensures Dates([rows[0]] + tail) == Dates(rows) + {x.date}
  {
    assert rows == [rows[0]] + rows[1..];
    BelowAllDates(rows, x, tail);
    PrependAscending(rows[0], tail);
    SameElementsSameDates([rows[0]] + tail, rows, x);
  }

  /** A row dated before every row of an ascending series can go in front. */
  lemma PrependAscending(x: DailyAggregate, rows: seq<DailyAggregate>)
    requires StrictlyAscending(rows)
    requires forall y :: y in rows ==> x.date < y.date
    ensures StrictlyAscending([x] + rows)
  {
    forall i, j | 0 <= i < j < |[x] + rows| ensures ([x] + rows)[i].date < ([x] + rows)[j].date {
      assert ([x] + rows)[j] == rows[j - 1];
      if i > 0 { assert ([x] + rows)[i] == rows[i - 1]; }
    }
  }

  /** Dropping the first row keeps a series ascending; the first row is the earliest. */
  lemma AscendingTail(rows: seq<DailyAggregate>)
    requires StrictlyAscending(rows) && |rows| > 0
    ensures StrictlyAscending(rows[1..])
    ensures Dates(rows) == Dates(rows[1..]) + {rows[0].date}
    ensures forall y :: y in rows ==> rows[0].date <= y.date
    ensures rows[0].date !in Dates(rows[1..])
  {
    assert rows == [rows[0]] + rows[1..];
    forall y | y in rows ensures rows[0].date <= y.date {
      var k :| 0 <= k < |rows| && rows[k] == y;
    }
  }

  lemma BelowAllDates(rows: seq<DailyAggregate>, x: DailyAggregate, tail: seq<DailyAggregate>)
    requires StrictlyAscending(rows) && |rows| > 0
    requires rows[0].date < x.date
    requires multiset(tail) == multiset(rows[1..]) + multiset{x}
    ensures forall y :: y in tail ==> rows[0].date < y.date
  {
    forall y | y in tail ensures rows[0].date < y.date {
      assert y in multiset(rows[1..]) + multiset{x};
      if y != x {
        assert y in rows[1..];
        var k :| 0 <= k < |rows[1..]| && rows[1..][k] == y;
        assert rows[k + 1] == y;
      }
    }
  }

  lemma SameElementsSameDates(a: seq<DailyAggregate>, b: seq<DailyAggregate>, x: DailyAggregate)
    requires multiset(a) == multiset(b) + multiset{x}
    ensures Dates(a) == Dates(b) + {x.date}
  {
    forall y ensures y in a <==> y in b || y == x {
      assert y in a <==> y in multiset(a);
      assert y in b <==> y in multiset(b);
    }
  }

  /** groupAndAggregateData: the `reduce` into per-day accumulators, then
      one row per accumulator, ordered by date. */
  method GroupAndAggregateData(data: seq<Record>) returns (rows: seq<DailyAggregate>)
    ensures IsAggregateOf(rows, data)
  {
    var acc, keys := AccumulateByDay(data);
    rows := RowsByDate(data, acc, keys);
  }

  /** The `map` and the `sort` of groupAndAggregateData: the entries of the
      finished dictionary, taken in key order, become rows inserted by date. */
  method RowsByDate(data: seq<Record>, acc: map<Day, Accumulator>, keys: seq<Day>) returns (rows: seq<DailyAggregate>)
    requires Tallies(acc, data) && ListsKeys(keys, acc.Keys)
    ensures IsAggregateOf(rows, data)
  {
    rows := [];
    for j := 0 to |keys|
      invariant StrictlyAscending(rows)
      invariant Dates(rows) == KeySet(keys[..j])
      invariant forall y :: y in rows ==> y == DayRow(data, y.date)
    {
      assert keys[j] in keys;
      var row := ToRow(acc[keys[j]]);
      assert row.date == keys[j] && row.date !in Dates(rows) && row == DayRow(data, row.date) by {
        AverageOfTally(data, keys[j]);
        NextKeyIsNew(keys, j);
      }
      rows := InsertRow(rows, row, data);
      NextKeySet(keys, j);
    }
    assert keys[..|keys|] == keys;
  }

  /** The days a key list holds. */
  function KeySet(keys: seq<Day>): set<Day>
  {
    set k | k in keys
  }

  /** In a list without repetitions the key at j is not among those before it. */
  lemma NextKeyIsNew(keys: seq<Day>, j: nat)
    requires j < |keys| && forall p, q :: 0 <= p < q < |keys| ==> keys[p] != keys[q]
    ensures keys[j] !in KeySet(keys[..j])
  {
    forall p | 0 <= p < j ensures keys[..j][p] != keys[j] {
      assert keys[..j][p] == keys[p];
    }
  }

  lemma NextKeySet(keys: seq<Day>, j: nat)
    requires j < |keys|
    ensures KeySet(keys[..j + 1]) == KeySet(keys[..j]) + {keys[j]}
  {
    assert keys[..j + 1] == keys[..j] + [keys[j]];
  }

  /** One step of the `sort`, on rows that are each their day's row. */
  function InsertRow(rows: seq<DailyAggregate>, row: DailyAggregate, data: seq<Record>): (r: seq<DailyAggregate>)
    requires StrictlyAscending(rows) && row.date !in Dates(rows)
    requires forall y :: y in rows ==> y == DayRow(data, y.date)
    requires row == DayRow(data, row.date)
    ensures StrictlyAscending(r)
    ensures Dates(r) == Dates(rows) + {row.date}
    ensures forall y :: y in r ==> y == DayRow(data, y.date)
  {
    var r := InsertByDate(rows, row);
    assert forall y :: y in r ==> y in multiset(rows) + multiset{row};
    r
  }

  /** acc holds, for every day of rs and no other day, that day's tally. */
  ghost predicate Tallies(acc: map<Day, Accumulator>, rs: seq<Record>)
  {
    && acc.Keys == DaysOf(rs)
    && forall d :: d in acc ==> acc[d] == Tally(rs, d)
  }

  /** keys lists every day of the dictionary once, and nothing else. */
  ghost predicate ListsKeys(keys: seq<Day>, days: set<Day>)
  {
    && (forall d :: d in keys <==> d in days)
    && forall p, q :: 0 <= p < q < |keys| ==> keys[p] != keys[q]
  }

  /** The day key of each record, in input order. */
  function DayKeys(data: seq<Record>): seq<Day>
  {
    seq(|data|, i requires 0 <= i < |data| => DayOf(data[i].time))
  }

  /** keys lists each day of data once, in the order of the day's first record. */
  predicate FirstAppearanceOrder(keys: seq<Day>, data: seq<Record>)
  {
    keys == Roles.Distinct(DayKeys(data))
  }

  /** The `reduce` of groupAndAggregateData: one pass over the records
      with the callback AddRecord. keys lists the days in the dictionary's
      insertion order, the order Object.values reports them in: each day
      once, in the order of its first record. */
  method AccumulateByDay(data: seq<Record>) returns (acc: map<Day, Accumulator>, keys: seq<Day>)
    ensures acc.Keys == DaysOf(data)
    ensures forall d :: d in acc ==> acc[d] == Tally(data, d)
    ensures forall d :: d in keys <==> d in acc
    ensures forall p, q :: 0 <= p < q < |keys| ==> keys[p] != keys[q]
    ensures FirstAppearanceOrder(keys, data)
  {
    acc := map[];
    keys := [];
    assert Tallies(acc, data[..0]) by {
      assert data[..0] == [];
      assert DaysOf([]) == {};
    }
    for i := 0 to |data|
      invariant Tallies(acc, data[..i])
      invariant ListsKeys(keys, acc.Keys)
      invariant FirstAppearanceOrder(keys, data[..i])
    {
      assert data[..i + 1] == data[..i] + [data[i]];
      assert DayKeys(data[..i + 1]) == DayKeys(data[..i]) + [DayOf(data[i].time)];
      Roles.DistinctSnoc(DayKeys(data[..i]), DayOf(data[i].time));
      acc, keys := AddRecord(acc, keys, data[i], data[..i]);
    }
    assert data[..|data|] == data;
  }

  /** The reduce callback: creates the record's day entry on first sight,
      then adds each reading that passes the numeric guard to that day's
      sum and count. seen is the records the dictionary already holds. */
  method AddRecord(acc: map<Day, Accumulator>, keys: seq<Day>, item: Record, ghost seen: seq<Record>)
    returns (acc': map<Day, Accumulator>, keys': seq<Day>)
    requires Tallies(acc, seen) && ListsKeys(keys, acc.Keys)
    ensures Tallies(acc', seen + [item]) && ListsKeys(keys', acc'.Keys)
    ensures DayOf(item.time) in acc ==> keys' == keys
    ensures DayOf(item.time) !in acc ==> keys' == keys + [DayOf(item.time)]
  {
    var date := DayOf(item.time);
    acc', keys' := acc, keys;
    if date !in acc' {
      acc' := acc'[date := Accumulator(date, 0.0, 0.0, 0, 0)];
      keys' := keys' + [date];
    }
    EntryCreated(acc, keys, seen, date, acc', keys');
    var entry := AddReadings(acc'[date], item, seen);
    EntryStored(acc, seen, item, acc', entry);
    acc' := acc'[date := entry];
  }

  /** After the callback's first step the record's day has an entry, which
      holds the day's tally so far, and keys lists the dictionary's days. */
  lemma EntryCreated(acc: map<Day, Accumulator>, keys: seq<Day>, seen: seq<Record>, date: Day,
                     acc': map<Day, Accumulator>, keys': seq<Day>)
    requires Tallies(acc, seen) && ListsKeys(keys, acc.Keys)
    requires date in acc ==> acc' == acc && keys' == keys
    requires date !in acc ==> acc' == acc[date := Accumulator(date, 0.0, 0.0, 0, 0)] && keys' == keys + [date]
    ensures date in acc' && acc'[date] == Tally(seen, date)
    ensures acc'.Keys == acc.Keys + {date} && ListsKeys(keys', acc'.Keys)
  {
    if date !in acc {
      TallyOfAbsentDay(seen, date);
      ListsKeysSnoc(keys, acc.Keys, date);
    } else {
      assert acc.Keys + {date} == acc.Keys;
    }
  }

  /** Storing the record's updated day entry makes the dictionary the exact
      tally of the records read so far, this one included. */
  lemma EntryStored(acc: map<Day, Accumulator>, seen: seq<Record>, item: Record,
                    acc': map<Day, Accumulator>, entry: Accumulator)
    requires Tallies(acc, seen)
    requires var date := DayOf(item.time);
             && (date in acc ==> acc' == acc)
             && (date !in acc ==> acc' == acc[date := Accumulator(date, 0.0, 0.0, 0, 0)])
    requires entry == Tally(seen + [item], DayOf(item.time))
    ensures Tallies(acc'[DayOf(item.time) := entry], seen + [item])
    ensures acc'[DayOf(item.time) := entry].Keys == acc'.Keys
  {
    var date := DayOf(item.time);
    assert acc'[date := entry] == acc[date := entry];
    TalliesStep(acc, seen, item, entry);
  }

  /** The guarded additions of the callback: each reading that passes the
      numeric guard is added to its column's sum and counted, which turns
      the day's tally before the record into the tally after it. */
  method AddReadings(entry: Accumulator, item: Record, ghost seen: seq<Record>) returns (entry': Accumulator)
    requires entry == Tally(seen, DayOf(item.time))
    ensures entry' == Tally(seen + [item], DayOf(item.time))
  {
    entry' := entry;
    var edits := Contribution(item.edits);
    if edits.Some? {
      entry' := entry'.(totalEdits := entry'.totalEdits + edits.value, countEdits := entry'.countEdits + 1);
    }
    var rating := Contribution(item.satisfaction);
    if rating.Some? {
      entry' := entry'.(totalSatisfaction := entry'.totalSatisfaction + rating.value, countSatisfaction := entry'.countSatisfaction + 1);
    }
    EntryStep(seen, item, entry, entry');
  }

  /** Appending a day the dictionary did not hold keeps keys an exact list of its days. */
  lemma ListsKeysSnoc(keys: seq<Day>, days: set<Day>, d: Day)
    requires ListsKeys(keys, days) && d !in days
    ensures ListsKeys(keys + [d], days + {d})
  {
  }

  /** The guarded additions of one record turn its day's tally before the
      record into the tally after it. */
  lemma EntryStep(seen: seq<Record>, item: Record, start: Accumulator, entry: Accumulator)
    requires start == Tally(seen, DayOf(item.time))
    requires entry.date == start.date
    requires var c := Contribution(item.edits);
             && entry.totalEdits == (if c.Some? then start.totalEdits + c.value else start.totalEdits)
             && entry.countEdits == (if c.Some? then start.countEdits + 1 else start.countEdits)
    requires var c := Contribution(item.satisfaction);
             && entry.totalSatisfaction == (if c.Some? then start.totalSatisfaction + c.value else start.totalSatisfaction)
             && entry.countSatisfaction == (if c.Some? then start.countSatisfaction + 1 else start.countSatisfaction)
    ensures entry == Tally(seen + [item], DayOf(item.time))
  {
    ReadingStep(seen, item, Edits);
    ReadingStep(seen, item, Satisfaction);
  }

  /** Adding one record's readings to its day's accumulator keeps every tally exact. */
  lemma TalliesStep(acc: map<Day, Accumulator>, rs: seq<Record>, r: Record, entry: Accumulator)
    requires Tallies(acc, rs)
    requires entry == Tally(rs + [r], DayOf(r.time))
    ensures Tallies(acc[DayOf(r.time) := entry], rs + [r])
  {
    var acc' := acc[DayOf(r.time) := entry];
    assert acc'.Keys == DaysOf(rs + [r]) by {
      DaysOfSnoc(rs, r);
    }
    forall d | d in acc' ensures acc'[d] == Tally(rs + [r], d) {
      if d != DayOf(r.time) {
        TallyStep(rs, r, d);
      }
    }
  }

  /** Reading one more record leaves the tallies of every other day as they were. */
  lemma TallyStep(rs: seq<Record>, r: Record, d: Day)
    requires d != DayOf(r.time)
    ensures Tally(rs + [r], d) == Tally(rs, d)
  {
    ValuesSnoc(rs, r, d, Edits);
    ValuesSnoc(rs, r, d, Satisfaction);
    assert Values(rs + [r], d, Edits) == Values(rs, d, Edits);
    assert Values(rs + [r], d, Satisfaction) == Values(rs, d, Satisfaction);
  }

  /** Reading one more record adds its valid reading, if any, to its own day's sum and count. */
  lemma ReadingStep(rs: seq<Record>, r: Record, m: Measure)
    ensures var d, c := DayOf(r.time), Contribution(Reading(r, m));
            && Sum(Values(rs + [r], d, m)) == (if c.Some? then Sum(Values(rs, d, m)) + c.value else Sum(Values(rs, d, m)))
            && |Values(rs + [r], d, m)| == (if c.Some? then |Values(rs, d, m)| + 1 else |Values(rs, d, m)|)
  {
    var d, c := DayOf(r.time), Contribution(Reading(r, m));
    ValuesSnoc(rs, r, d, m);
    if c.Some? {
      SumSnoc(Values(rs, d, m), c.value);
    } else {
      assert Values(rs + [r], d, m) == Values(rs, d, m);
    }
  }

  lemma DaysOfSnoc(rs: seq<Record>, r: Record)
    ensures DaysOf(rs + [r]) == DaysOf(rs) + {DayOf(r.time)}
  {
    forall x | x in rs + [r] ensures x in rs || x == r { }
    forall x | x in rs ensures x in rs + [r] { }
  }

  lemma SumSnoc(xs: seq<real>, v: real)
    ensures Sum(xs + [v]) == Sum(xs) + v
  {
    assert (xs + [v])[..|xs|] == xs;
  }

  lemma ValuesSnoc(rs: seq<Record>, r: Record, d: Day, m: Measure)
    ensures var c := Contribution(Reading(r, m));
            Values(rs + [r], d, m) == Values(rs, d, m) + (if DayOf(r.time) == d && c.Some? then [c.value] else [])
  {
    assert (rs + [r])[..|rs|] == rs;
  }

  /** The row built from a day's final accumulator is that day's row. */
  lemma AverageOfTally(rs: seq<Record>, d: Day)
    ensures ToRow(Tally(rs, d)) == DayRow(rs, d)
  {
  }

  /** A day with no record yet has the empty tally. */
  lemma {:induction false} TallyOfAbsentDay(rs: seq<Record>, d: Day)
    requires d !in DaysOf(rs)
    ensures Tally(rs, d) == Accumulator(d, 0.0, 0.0, 0, 0)
  {
    NoValuesOnAbsentDay(rs, d, Edits);
    NoValuesOnAbsentDay(rs, d, Satisfaction);
  }

  lemma {:induction false} NoValuesOnAbsentDay(rs: seq<Record>, d: Day, m: Measure)
    requires d !in DaysOf(rs)
    ensures Values(rs, d, m) == []
  {
    if rs != [] {
      var init := rs[..|rs| - 1];
      assert DaysOf(init) <= DaysOf(rs) by {
        forall r | r in init ensures r in rs { }
      }
      assert rs[|rs| - 1] in rs;
      NoValuesOnAbsentDay(init, d, m);
    }
  }

  // ---------------------------------------------------------------------
  // Properties of the aggregation

  lemma DateOfRow(rows: seq<DailyAggregate>, k: nat)
    requires k < |rows|
    ensures rows[k].date in Dates(rows)
  {
    assert rows[k] in rows;
  }

  lemma RowOfDate(rows: seq<DailyAggregate>, d: Day)
    requires d in Dates(rows)
    ensures exists k :: 0 <= k < |rows| && rows[k].date == d
  {
    var y :| y in rows && y.date == d;
    var k :| 0 <= k < |rows| && rows[k] == y;
  }

  lemma DayOfRecord(rs: seq<Record>, r: Record)
    requires r in rs
    ensures DayOf(r.time) in DaysOf(rs)
  {
  }

  lemma RecordOfDay(rs: seq<Record>, d: Day)
    requires d in DaysOf(rs)
    ensures exists r :: r in rs && DayOf(r.time) == d
  {
  }

  /** Only the empty series has no dates, and only the empty input has no days. */
  lemma NoDatesNoRows(rows: seq<DailyAggregate>, rs: seq<Record>)
    ensures Dates(rows) == {} <==> rows == []
    ensures DaysOf(rs) == {} <==> rs == []
  {
    if rows != [] { DateOfRow(rows, 0); }
    if rs != [] { DayOfRecord(rs, rs[0]); }
  }

  /** Each output row is a day of some input record, each input record's day
      has a row, no day has two rows, and only the empty input gives the
      empty series. */
  lemma AggregateCoversInput(rows: seq<DailyAggregate>, rs: seq<Record>)
    requires IsAggregateOf(rows, rs)
    ensures forall k :: 0 <= k < |rows| ==> exists r :: r in rs && DayOf(r.time) == rows[k].date
    ensures forall r :: r in rs ==> exists k :: 0 <= k < |rows| && rows[k].date == DayOf(r.time)
    ensures forall i, j :: 0 <= i < |rows| && 0 <= j < |rows| && rows[i].date == rows[j].date ==> i == j
    ensures rows == [] <==> rs == []
  {
    forall k | 0 <= k < |rows| ensures exists r :: r in rs && DayOf(r.time) == rows[k].date {
      DateOfRow(rows, k);
      RecordOfDay(rs, rows[k].date);
    }
    forall r | r in rs ensures exists k :: 0 <= k < |rows| && rows[k].date == DayOf(r.time) {
      DayOfRecord(rs, r);
      RowOfDate(rows, DayOf(r.time));
    }
    NoDatesNoRows(rows, rs);
  }

  /** Records that all fall on one day aggregate to that day's row alone. */
  lemma SingleDayAggregate(rs: seq<Record>, d: Day)
    requires rs != [] && forall r :: r in rs ==> DayOf(r.time) == d
    ensures IsAggregateOf([DayRow(rs, d)], rs)
  {
    assert DaysOf(rs) == {d} by {
      DayOfRecord(rs, rs[0]);
    }
    assert Dates([DayRow(rs, d)]) == {d} by {
      DateOfRow([DayRow(rs, d)], 0);
    }
  }

  /** A day's average of column m is null exactly when no record of that day
      has a reading of m that passes the numeric guard; otherwise it is the
      sum of those readings divided by their number. */
  lemma {:induction false} NullExactlyWithoutReadings(rs: seq<Record>, d: Day, m: Measure)
    ensures var avg := AverageOf(DayRow(rs, d), m);
            avg.None? <==> forall i :: 0 <= i < |rs| && DayOf(rs[i].time) == d ==> Contribution(Reading(rs[i], m)).None?
    ensures var avg, vs := AverageOf(DayRow(rs, d), m), Values(rs, d, m);
            avg.Some? ==> |vs| > 0 && avg.value == Sum(vs) / (|vs| as real)
  {
    if rs != [] {
      var init := rs[..|rs| - 1];
      NullExactlyWithoutReadings(init, d, m);
      forall i | 0 <= i < |init| ensures init[i] == rs[i] { }
    }
  }

  /** The average of column m depends only on the records' days and their
      readings of m: the other column may hold anything. */
  lemma {:induction false} MeasuresIndependent(rs: seq<Record>, rs': seq<Record>, d: Day, m: Measure)
    requires |rs| == |rs'|
    requires forall i :: 0 <= i < |rs| ==> DayOf(rs[i].time) == DayOf(rs'[i].time) && Reading(rs[i], m) == Reading(rs'[i], m)
    ensures Values(rs, d, m) == Values(rs', d, m)
    ensures AverageOf(DayRow(rs, d), m) == AverageOf(DayRow(rs', d), m)
  {
    if rs != [] {
      var n := |rs| - 1;
      assert DayOf(rs[n].time) == DayOf(rs'[n].time) && Reading(rs[n], m) == Reading(rs'[n], m);
      MeasuresIndependent(rs[..n], rs'[..n], d, m);
    }
  }

  lemma {:induction false} ValuesAppend(u: seq<Record>, v: seq<Record>, d: Day, m: Measure)
    ensures Values(u + v, d, m) == Values(u, d, m) + Values(v, d, m)
  {
    if v == [] {
      assert u + v == u;
    } else {
      var init, last := v[..|v| - 1], v[|v| - 1];
      var c := Contribution(Reading(last, m));
      var tail := if DayOf(last.time) == d && c.Some? then [c.value] else [];
      calc {
        Values(u + v, d, m);
        { assert u + v == (u + init) + [last]; }
        Values((u + init) + [last], d, m);
        { ValuesSnoc(u + init, last, d, m); }
        Values(u + init, d, m) + tail;
        { ValuesAppend(u, init, d, m); }
        Values(u, d, m) + Values(init, d, m) + tail;
        { assert v == init + [last]; ValuesSnoc(init, last, d, m); }
        Values(u, d, m) + Values(v, d, m);
      }
    }
  }

  /** A record whose reading of m is missing, non-numeric or zero changes
      neither the sum nor the count of m on any day, wherever it stands. */
  lemma InvalidReadingIgnored(u: seq<Record>, r: Record, v: seq<Record>, m: Measure)
    requires Contribution(Reading(r, m)).None?
    ensures forall d :: Values(u + [r] + v, d, m) == Values(u + v, d, m)
  {
    forall d ensures Values(u + [r] + v, d, m) == Values(u + v, d, m) {
      ValuesAppend(u + [r], v, d, m);
      ValuesSnoc(u, r, d, m);
      ValuesAppend(u, v, d, m);
    }
  }

  lemma {:induction false} SumAppend(x: seq<real>, y: seq<real>)
    ensures Sum(x + y) == Sum(x) + Sum(y)
  {
    if y != [] {
      var init, last := y[..|y| - 1], y[|y| - 1];
      assert y == init + [last];
      assert x + y == (x + init) + [last];
      SumAppend(x, init);
      SumSnoc(x + init, last);
      SumSnoc(init, last);
    } else {
      assert x + y == x;
    }
  }

  /** Removing position k splits a sequence around the removed element. */
  lemma Split<T>(s: seq<T>, k: nat)
    requires k < |s|
    ensures s == s[..k] + [s[k]] + s[k + 1..]
    ensures multiset(s) == multiset(s[..k] + s[k + 1..]) + multiset{s[k]}
  {
    assert s == s[..k] + [s[k]] + s[k + 1..];
  }

  /** The readings of a sequence with one more record at the end. */
  lemma ValuesSnocMultiset(init: seq<Record>, x: Record, d: Day, m: Measure)
    ensures multiset(Values(init + [x], d, m)) == multiset(Values(init, d, m)) + multiset(Values([x], d, m))
  {
    ValuesAppend(init, [x], d, m);
  }

  /** The readings of b are those of b without position k plus those of b[k]. */
  lemma ValuesRemoveMultiset(b: seq<Record>, k: nat, d: Day, m: Measure)
    requires k < |b|
    ensures multiset(Values(b, d, m)) == multiset(Values(b[..k] + b[k + 1..], d, m)) + multiset(Values([b[k]], d, m))
  {
    var before, x, after := b[..k], b[k], b[k + 1..];
    Split(b, k);
    ValuesAppend(before + [x], after, d, m);
    ValuesAppend(before, [x], d, m);
    ValuesAppend(before, after, d, m);
  }

  /** Removing one occurrence of x from both sides keeps two permutations permutations. */
  lemma RemoveLastOccurrence<T>(a: seq<T>, b: seq<T>, k: nat)
    requires multiset(a) == multiset(b) && |a| > 0 && k < |b| && b[k] == a[|a| - 1]
    ensures multiset(a[..|a| - 1]) == multiset(b[..k] + b[k + 1..])
  {
    var init, x := a[..|a| - 1], a[|a| - 1];
    assert a == init + [x];
    Split(b, k);
    assert multiset(init) == multiset(a) - multiset{x};
  }

  /** Reordering the input does not change which readings a day collects. */
  lemma {:induction false} ValuesPermutation(a: seq<Record>, b: seq<Record>, d: Day, m: Measure)
    requires multiset(a) == multiset(b)
    ensures multiset(Values(a, d, m)) == multiset(Values(b, d, m))
    decreases |a|
  {
    if a == [] {
      assert |b| == |multiset(b)| == 0;
    } else {
      var init, x := a[..|a| - 1], a[|a| - 1];
      assert x in multiset(b) by {
        assert a == init + [x];
      }
      var k :| 0 <= k < |b| && b[k] == x;
      RemoveLastOccurrence(a, b, k);
      ValuesPermutation(init, b[..k] + b[k + 1..], d, m);
      assert a == init + [x];
      ValuesSnocMultiset(init, x, d, m);
      ValuesRemoveMultiset(b, k, d, m);
    }
  }

  /** The sum of xs is the sum without position k plus the element at k. */
  lemma SumRemove(xs: seq<real>, k: nat)
    requires k < |xs|
    ensures Sum(xs) == Sum(xs[..k] + xs[k + 1..]) + xs[k]
  {
    Split(xs, k);
    SumAppend(xs[..k] + [xs[k]], xs[k + 1..]);
    SumSnoc(xs[..k], xs[k]);
    SumAppend(xs[..k], xs[k + 1..]);
  }

  /** The sum does not depend on the order of the summands. */
  lemma {:induction false} SumPermutation(x: seq<real>, y: seq<real>)
    requires multiset(x) == multiset(y)
    ensures Sum(x) == Sum(y)
    decreases |x|
  {
    if x == [] {
      assert |y| == |multiset(y)| == 0;
    } else {
      var init, v := x[..|x| - 1], x[|x| - 1];
      assert v in multiset(y) by {
        assert x == init + [v];
      }
      var k :| 0 <= k < |y| && y[k] == v;
      RemoveLastOccurrence(x, y, k);
      SumPermutation(init, y[..k] + y[k + 1..]);
      assert x == init + [v];
      SumSnoc(init, v);
      SumRemove(y, k);
    }
  }

  /** A day's row depends only on the multiset of input records. */
  lemma DayRowPermutation(a: seq<Record>, b: seq<Record>, d: Day)
    requires multiset(a) == multiset(b)
    ensures DayRow(a, d) == DayRow(b, d)
  {
    ValuesPermutation(a, b, d, Edits);
    ValuesPermutation(a, b, d, Satisfaction);
    SumPermutation(Values(a, d, Edits), Values(b, d, Edits));
    SumPermutation(Values(a, d, Satisfaction), Values(b, d, Satisfaction));
    assert |Values(a, d, Edits)| == |multiset(Values(a, d, Edits))|;
    assert |Values(b, d, Edits)| == |multiset(Values(b, d, Edits))|;
    assert |Values(a, d, Satisfaction)| == |multiset(Values(a, d, Satisfaction))|;
    assert |Values(b, d, Satisfaction)| == |multiset(Values(b, d, Satisfaction))|;
  }

  /** The first row of an ascending series carries its earliest date. */
  lemma FirstIsEarliest(rows: seq<DailyAggregate>, d: Day)
    requires StrictlyAscending(rows) && d in Dates(rows)
    ensures rows != [] && rows[0].date <= d
  {
    RowOfDate(rows, d);
    var k :| 0 <= k < |rows| && rows[k].date == d;
  }

  /** Two ascending series over the same days whose rows agree day by day are equal. */
  lemma {:induction false} AscendingUnique(x: seq<DailyAggregate>, y: seq<DailyAggregate>)
    requires StrictlyAscending(x) && StrictlyAscending(y) && Dates(x) == Dates(y)
    requires forall i, j :: 0 <= i < |x| && 0 <= j < |y| && x[i].date == y[j].date ==> x[i] == y[j]
    ensures x == y
    decreases |x|
  {
    NoDatesNoRows(x, []);
    NoDatesNoRows(y, []);
    if x != [] {
      assert x[0].date == y[0].date by {
        DateOfRow(x, 0);
        DateOfRow(y, 0);
        FirstIsEarliest(x, y[0].date);
        FirstIsEarliest(y, x[0].date);
      }
      assert StrictlyAscending(x[1..]) && StrictlyAscending(y[1..]) && Dates(x[1..]) == Dates(y[1..]) by {
        AscendingTail(x);
        AscendingTail(y);
      }
      AscendingUnique(x[1..], y[1..]);
      assert x == [x[0]] + x[1..] && y == [y[0]] + y[1..];
    }
  }

  /** The aggregation result does not depend on the order of the input
      records: reordered inputs have the same, and only one, aggregation. */
  lemma AggregationOrderIndependent(a: seq<Record>, b: seq<Record>, ra: seq<DailyAggregate>, rb: seq<DailyAggregate>)
    requires multiset(a) == multiset(b)
    requires IsAggregateOf(ra, a) && IsAggregateOf(rb, b)
    ensures ra == rb
  {
    assert DaysOf(a) == DaysOf(b) by {
      forall r ensures r in a <==> r in b {
        assert r in a <==> r in multiset(a);
        assert r in b <==> r in multiset(b);
      }
    }
    forall i, j | 0 <= i < |ra| && 0 <= j < |rb| && ra[i].date == rb[j].date ensures ra[i] == rb[j] {
      assert ra[i] in ra && rb[j] in rb;
      DayRowPermutation(a, b, rb[j].date);
    }
    AscendingUnique(ra, rb);
  }
}
