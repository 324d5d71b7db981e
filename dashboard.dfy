/** The recomputation the dashboard runs on every filter change, and the
    worked examples of the series it shows. */
module Dashboard {
  import opened Records
  import opened Aggregation
  import opened Filters

  /** handleFilterChange: narrow the raw records by the current selections,
      then aggregate what is left by day. */
  method HandleFilterChange(raw: seq<Record>, f: FilterState) returns (view: seq<DailyAggregate>)
    ensures IsAggregateOf(view, Selected(raw, f))
  {
    var filtered := FilterRecords(raw, f);
    view := GroupAndAggregateData(filtered);
  }

  /** With the initial selections the filtered series is the full
      aggregation the dashboard shows when the data arrives. */
  lemma InitialViewIsFullAggregation(raw: seq<Record>, view: seq<DailyAggregate>)
    requires IsAggregateOf(view, Selected(raw, Initial))
    ensures IsAggregateOf(view, raw)
  {
    NoFilterIsIdentity(raw, Initial);
  }

  /** The filtered series depends only on the selections and on the multiset
      of raw records: recomputing with unchanged selections gives the same
      series, and so does any reordering of the raw records. */
  lemma FilteredViewOrderIndependent(raw: seq<Record>, raw': seq<Record>, f: FilterState,
                                     view: seq<DailyAggregate>, view': seq<DailyAggregate>)
    requires multiset(raw) == multiset(raw')
    requires IsAggregateOf(view, Selected(raw, f)) && IsAggregateOf(view', Selected(raw', f))
    ensures view == view'
  {
    SelectedExactly(raw, f);
    SelectedExactly(raw', f);
    assert multiset(Selected(raw, f)) == multiset(Selected(raw', f)) by {
      forall r ensures multiset(Selected(raw, f))[r] == multiset(Selected(raw', f))[r] { }
    }
    AggregationOrderIndependent(Selected(raw, f), Selected(raw', f), view, view');
  }

  // ---------------------------------------------------------------------
  // The range picker's value

  /** What the range picker hands to setDateRange: the two ends, each of
      which may be unset, or null once the user clears the range. */
  datatype PickerValue = Range(start: Option<Timestamp>, end: Option<Timestamp>) | Cleared

  /** The effect's outcome: the recomputed series, or the TypeError thrown
      before anything is filtered. */
  datatype Outcome = Shown(view: seq<DailyAggregate>) | TypeError

  /** handleFilterChange as written, run on the picker value stored in
      dateRange: the date guard indexes it, which throws on null. */
  method HandleFilterChangeAsWritten(raw: seq<Record>, range: PickerValue, role: string) returns (r: Outcome)
    ensures range.Cleared? <==> r.TypeError?
    ensures range.Range? ==> r.Shown? && IsAggregateOf(r.view, Selected(raw, FilterState(range.start, range.end, role)))
  {
    if range.Cleared? {
      return TypeError;
    }
    var view := HandleFilterChange(raw, FilterState(range.start, range.end, role));
    return Shown(view);
  }

  /** The selections a picker value stands for, a cleared range read as no
      range at all, as for the initial [null, null]. */
  function SelectionsOf(range: PickerValue, role: string): (f: FilterState)
    ensures f.role == role
    ensures range.Range? ==> f.from == range.start && f.to == range.end
    ensures range.Cleared? ==> f == FilterState(Initial.from, Initial.to, role) && !DateRangeSet(f)
  {
    match range
    case Range(start, end) => FilterState(start, end, role)
    case Cleared => FilterState(None, None, role)
  }

  /** handleFilterChange with a cleared range treated as unset: it always
      produces a series, the one for the selections the picker stands for. */
  method HandlePickerChange(raw: seq<Record>, range: PickerValue, role: string) returns (view: seq<DailyAggregate>)
    ensures IsAggregateOf(view, Selected(raw, SelectionsOf(range, role)))
    ensures range.Range? ==> IsAggregateOf(view, Selected(raw, FilterState(range.start, range.end, role)))
  {
    view := HandleFilterChange(raw, SelectionsOf(range, role));
  }

  /** Clearing the range with every role selected shows the full
      aggregation again, the series shown before any date was picked. */
  lemma ClearedRangeShowsFullAggregation(raw: seq<Record>, view: seq<DailyAggregate>)
    requires IsAggregateOf(view, Selected(raw, SelectionsOf(Cleared, AllRoles)))
    ensures IsAggregateOf(view, raw)
  {
    NoFilterIsIdentity(raw, SelectionsOf(Cleared, AllRoles));
  }

  /** Clearing the range keeps the role filter alone: the records kept are
      those of the chosen role, at any time. */
  lemma ClearedRangeKeepsRoleFilter(raw: seq<Record>, role: string)
    ensures forall r :: r in Selected(raw, SelectionsOf(Cleared, role)) <==> r in raw && (role != AllRoles ==> r.role == role)
  {
    var f := SelectionsOf(Cleared, role);
    SelectedExactly(raw, f);
    forall r ensures r in Selected(raw, f) <==> r in raw && (role != AllRoles ==> r.role == role) {
      assert r in Selected(raw, f) <==> multiset(Selected(raw, f))[r] > 0;
      assert r in raw <==> multiset(raw)[r] > 0;
      assert Passes(f, r) <==> (role != AllRoles ==> r.role == role);
    }
  }

  // ---------------------------------------------------------------------
  // Worked examples

  /** 2024-01-01 as a day number. */
  const NewYear2024: Day := 19723

  /** An engineer's event at 10:00 on 2024-01-01: 4 edits, rated 5. */
  const Engineer: Record := Record(1_704_103_200_000, Num(4.0), Num(5.0), "Engineer")

  /** A designer's event at 12:00 the same day: 2 edits, rating "n/a". */
  const Designer: Record := Record(1_704_110_400_000, Num(2.0), Text("n/a", None), "Designer")

  /** The day's row of both events: edits (4 + 2) / 2 and satisfaction 5. */
  lemma BothEventsRow()
    ensures DayRow([Engineer, Designer], NewYear2024) == DailyAggregate(NewYear2024, Some(3.0), Some(5.0))
  {
    var rs := [Engineer, Designer];
    assert rs == [Engineer] + [Designer] && [Engineer] == [] + [Engineer];
    ValuesSnoc([], Engineer, NewYear2024, Edits);
    ValuesSnoc([], Engineer, NewYear2024, Satisfaction);
    ValuesSnoc([Engineer], Designer, NewYear2024, Edits);
    ValuesSnoc([Engineer], Designer, NewYear2024, Satisfaction);
    assert Values(rs, NewYear2024, Edits) == [4.0, 2.0];
    assert Values(rs, NewYear2024, Satisfaction) == [5.0];
    assert Sum([4.0, 2.0]) == 6.0 && Sum([5.0]) == 5.0 by {
      assert [4.0, 2.0][..1] == [4.0] && [4.0][..0] == [] && [5.0][..0] == [];
    }
  }

  /** Both events give one row, the "n/a" rating being left out of the
      satisfaction average only. */
  lemma BothEventsExample()
    ensures IsAggregateOf([DailyAggregate(NewYear2024, Some(3.0), Some(5.0))], [Engineer, Designer])
  {
    BothEventsRow();
    SingleDayAggregate([Engineer, Designer], NewYear2024);
  }

  /** Selecting the role "Engineer" keeps only the engineer's event. */
  lemma EngineerFilterExample()
    ensures Selected([Engineer, Designer], FilterState(None, None, "Engineer")) == [Engineer]
  {
    var f := FilterState(None, None, "Engineer");
    assert [Engineer, Designer] == [Engineer] + [Designer] && [Engineer] == [] + [Engineer];
    assert Passes(f, Engineer);
    assert !Passes(f, Designer) by {
      assert Designer.role[0] != f.role[0];
    }
    KeepSnoc([], Engineer, Admits(f));
    KeepSnoc([Engineer], Designer, Admits(f));
  }

  lemma MeanOfOne(v: real)
    ensures Mean([v]) == Some(v)
  {
    assert Sum([v]) == v by {
      assert [v][..0] == [];
    }
    assert |[v]| as real == 1.0;
  }

  lemma EngineerRow()
    ensures DayRow([Engineer], NewYear2024) == DailyAggregate(NewYear2024, Some(4.0), Some(5.0))
  {
    assert [Engineer] == [] + [Engineer];
    ValuesSnoc([], Engineer, NewYear2024, Edits);
    ValuesSnoc([], Engineer, NewYear2024, Satisfaction);
    MeanOfOne(4.0);
    MeanOfOne(5.0);
  }

  /** What the chart shows after selecting "Engineer": one row with the
      engineer's own readings. */
  lemma EngineerAggregateExample()
    ensures IsAggregateOf([DailyAggregate(NewYear2024, Some(4.0), Some(5.0))], Selected([Engineer, Designer], FilterState(None, None, "Engineer")))
  {
    EngineerFilterExample();
    EngineerRow();
    SingleDayAggregate([Engineer], NewYear2024);
  }

  lemma DesignerRow()
    ensures DayRow([Designer], NewYear2024) == DailyAggregate(NewYear2024, Some(2.0), None)
  {
    assert [Designer] == [] + [Designer];
    ValuesSnoc([], Designer, NewYear2024, Edits);
    ValuesSnoc([], Designer, NewYear2024, Satisfaction);
    MeanOfOne(2.0);
  }

  /** The two averages are independent: the designer's day alone has an edit
      average and a null satisfaction average. */
  lemma IndependentAveragesExample()
    ensures IsAggregateOf([DailyAggregate(NewYear2024, Some(2.0), None)], [Designer])
  {
    DesignerRow();
    SingleDayAggregate([Designer], NewYear2024);
  }
}
