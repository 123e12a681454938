/** The aggregation pipeline of the interactive area chart: transactions are
    grouped into one entry per day (`processTransactionData`), the days are
    narrowed to a trailing window (`filteredData`), and the window is folded
    into the two pie slices (`pieData`) and the seven weekday buckets
    (`radarData`). */
module ChartArea {

  import opened Text
  import opened Calendar
  import opened Transactions
  import opened ChartDates

  // ------------------------------------------------------------ daily series

  /** One entry of `chartData`: a day and the day's receita and despesa
      totals. The source keeps the day as its key `FormatDateToISO(date)`. */
  datatype DailyPoint = DailyPoint(date: Date, receita: int, despesa: int)

  /** The accumulator kept per key in `groupedByDate`. */
  datatype Totals = Totals(receita: int, despesa: int)

  function Amount(p: DailyPoint, k: Kind): int
  {
    if k == Receita then p.receita else p.despesa
  }

  /** Every transaction date is one that `parseDate` handles in the model:
      a `dd/mm/yyyy` text naming a real day, or a text that falls back to
      `today`. */
  predicate WellDated(data: seq<Transaction>, today: Date)
  {
    Valid(today) && forall i :: 0 <= i < |data| ==> !ParseDate(data[i].date, today).Unsupported?
  }

  /** The day a transaction is filed under: `parseDate(item.date)`. */
  function DayOf(t: Transaction, today: Date): (d: Date)
    requires Valid(today) && !ParseDate(t.date, today).Unsupported?
    ensures Valid(d)
  {
    ParseDate(t.date, today).date
  }

  /** The days that occur in `data`. */
  function DaysOf(data: seq<Transaction>, today: Date): (days: set<Date>)
    requires WellDated(data, today)
    ensures forall d :: d in days ==> Valid(d)
  {
    if data == [] then {}
    else DaysOf(data[..|data| - 1], today) + {DayOf(data[|data| - 1], today)}
  }

  /** The sum of `value` over the records of kind `k` filed under `day`. */
  function AmountOn(data: seq<Transaction>, today: Date, day: Date, k: Kind): int
    requires WellDated(data, today)
  {
    if data == [] then 0
    else
      var t := data[|data| - 1];
      AmountOn(data[..|data| - 1], today, day, k) + (if DayOf(t, today) == day && t.kind == k then t.value else 0)
  }

  /** Valid days in strictly ascending order. */
  predicate Ascending(series: seq<DailyPoint>)
  {
    (forall j :: 0 <= j < |series| ==> Valid(series[j].date))
    && forall j, l :: 0 <= j < l < |series| ==> Ordinal(series[j].date) < Ordinal(series[l].date)
  }

  predicate AllValid(series: seq<DailyPoint>)
  {
    forall j :: 0 <= j < |series| ==> Valid(series[j].date)
  }

  function DatesOf(series: seq<DailyPoint>): set<Date>
  {
    set j | 0 <= j < |series| :: series[j].date
  }

  /** What `processTransactionData(data)` returns: one entry per day that
      occurs in `data`, ascending by day, each holding that day's receita and
      despesa sums. */
  predicate IsDailySeries(data: seq<Transaction>, today: Date, series: seq<DailyPoint>)
    requires WellDated(data, today)
  {
    Ascending(series)
    && DatesOf(series) == DaysOf(data, today)
    && forall j, k :: 0 <= j < |series| ==> Amount(series[j], k) == AmountOn(data, today, series[j].date, k)
  }

  /** A date is the earliest of a set of valid dates. */
  predicate IsEarliest(d: Date, s: set<Date>)
  {
    d in s && Valid(d) && forall e :: e in s ==> Valid(e) && (e == d || Ordinal(d) < Ordinal(e))
  }

  /** `groupedByDate` holds, for every day of `data`, that day's receita
      and despesa sums, and nothing else. */
  predicate GroupedBy(groupedByDate: map<Date, Totals>, data: seq<Transaction>, today: Date)
    requires WellDated(data, today)
  {
    groupedByDate.Keys == DaysOf(data, today)
    && forall d :: d in groupedByDate ==>
      groupedByDate[d] == Totals(AmountOn(data, today, d, Receita), AmountOn(data, today, d, Despesa))
  }

  /** `processTransactionData(data)`: accumulate receita and despesa per day
      in `groupedByDate`, then list the days in ascending order. */
  method ProcessTransactionData(data: seq<Transaction>, today: Date) returns (series: seq<DailyPoint>)
    requires WellDated(data, today)
    ensures IsDailySeries(data, today, series)
    ensures data == [] ==> series == []
  {
    var groupedByDate := GroupByDate(data, today);
    series := SortedEntries(groupedByDate);
    if series != [] {
      assert series[0].date in DatesOf(series);
    }
  }

  /** The `data.forEach` loop of `processTransactionData`. */
  method GroupByDate(data: seq<Transaction>, today: Date) returns (groupedByDate: map<Date, Totals>)
    requires WellDated(data, today)
    ensures GroupedBy(groupedByDate, data, today)
  {
    groupedByDate := map[];
    var i := 0;
    while i < |data|
      invariant 0 <= i <= |data|
      invariant WellDated(data[..i], today)
      invariant GroupedBy(groupedByDate, data[..i], today)
    {
      var item := data[i];
      assert data[..i + 1][..i] == data[..i] && data[..i + 1][i] == item;
      var dateKey := DayOf(item, today);
      if dateKey !in groupedByDate {
        NothingOnOtherDays(data[..i], today, dateKey, Receita);
        NothingOnOtherDays(data[..i], today, dateKey, Despesa);
        groupedByDate := groupedByDate[dateKey := Totals(0, 0)];
      }
      var totals := groupedByDate[dateKey];
      if item.kind == Receita {
        groupedByDate := groupedByDate[dateKey := totals.(receita := totals.receita + item.value)];
      } else {
        groupedByDate := groupedByDate[dateKey := totals.(despesa := totals.despesa + item.value)];
      }
      i := i + 1;
    }
    assert data[..|data|] == data;
  }

  /** Every point of `series` is an entry of `groupedByDate`. */
  predicate EntriesOf(series: seq<DailyPoint>, groupedByDate: map<Date, Totals>)
  {
    forall j :: 0 <= j < |series| ==>
      series[j].date in groupedByDate && Totals(series[j].receita, series[j].despesa) == groupedByDate[series[j].date]
  }

  /** The keys still to be listed come after every listed day. */
  predicate ListedBefore(series: seq<DailyPoint>, remaining: set<Date>)
    requires AllValid(series) && forall e :: e in remaining ==> Valid(e)
  {
    forall j, e :: 0 <= j < |series| && e in remaining ==> Ordinal(series[j].date) < Ordinal(e)
  }

  /** `Object.entries(groupedByDate)` sorted by date and turned into points:
      every key once, in ascending order, with its totals. */
  method SortedEntries(groupedByDate: map<Date, Totals>) returns (series: seq<DailyPoint>)
    requires forall d :: d in groupedByDate ==> Valid(d)
    ensures Ascending(series)
    ensures DatesOf(series) == groupedByDate.Keys
    ensures EntriesOf(series, groupedByDate)
  {
    series := [];
    var remaining := groupedByDate.Keys;
    while remaining != {}
      invariant remaining <= groupedByDate.Keys
      invariant Ascending(series)
      invariant DatesOf(series) == groupedByDate.Keys - remaining
      invariant EntriesOf(series, groupedByDate)
      invariant ListedBefore(series, remaining)
      decreases |remaining|
    {
      EarliestExists(remaining);
      var date :| IsEarliest(date, remaining);
      var values := groupedByDate[date];
      var point := DailyPoint(date, values.receita, values.despesa);
      ListEarliest(series, remaining, groupedByDate, point);
      series, remaining := series + [point], remaining - {date};
    }
  }

  /** One step of the listing: the earliest remaining key moves to the end
      of the series. */
  lemma ListEarliest(series: seq<DailyPoint>, remaining: set<Date>, groupedByDate: map<Date, Totals>, point: DailyPoint)
    requires forall d :: d in groupedByDate ==> Valid(d)
    requires remaining <= groupedByDate.Keys && Ascending(series)
    requires DatesOf(series) == groupedByDate.Keys - remaining
    requires EntriesOf(series, groupedByDate) && ListedBefore(series, remaining)
    requires IsEarliest(point.date, remaining) && Totals(point.receita, point.despesa) == groupedByDate[point.date]
    ensures Ascending(series + [point])
    ensures DatesOf(series + [point]) == groupedByDate.Keys - (remaining - {point.date})
    ensures EntriesOf(series + [point], groupedByDate)
    ensures ListedBefore(series + [point], remaining - {point.date})
  {
    AscendingSnoc(series, point);
    var next, rest := series + [point], remaining - {point.date};
    forall j, e | 0 <= j < |next| && e in rest
      ensures Ordinal(next[j].date) < Ordinal(e)
    {
      if j == |series| {
        assert e in remaining && e != point.date;
      }
    }
  }

  /** Appending a day later than all others keeps a series ascending. */
  lemma AscendingSnoc(series: seq<DailyPoint>, point: DailyPoint)
    requires Ascending(series) && Valid(point.date)
    requires forall j :: 0 <= j < |series| ==> Ordinal(series[j].date) < Ordinal(point.date)
    ensures Ascending(series + [point])
    ensures DatesOf(series + [point]) == DatesOf(series) + {point.date}
    ensures forall j :: 0 <= j < |series| ==> (series + [point])[j] == series[j]
    ensures (series + [point])[|series|] == point
  {
    var s := series + [point];
    assert forall j :: 0 <= j < |series| ==> s[j] == series[j];
    assert s[|series|] == point;
    forall d | d in DatesOf(s)
      ensures d in DatesOf(series) + {point.date}
    {
      var j :| 0 <= j < |s| && s[j].date == d;
      if j < |series| {
        assert series[j].date == d;
      }
    }
    forall d | d in DatesOf(series)
      ensures d in DatesOf(s)
    {
      var j :| 0 <= j < |series| && series[j].date == d;
      assert s[j].date == d;
    }
    forall j, l | 0 <= j < l < |s|
      ensures Ordinal(s[j].date) < Ordinal(s[l].date)
    {
      if l == |series| {
        assert s[l] == point;
      }
    }
  }

  /** The `date` text of a point: its `YYYY-MM-DD` key. */
  function Key(p: DailyPoint): string
    requires Valid(p.date)
  {
    FormatDateToISO(p.date)
  }

  predicate FourDigitYears(series: seq<DailyPoint>)
  {
    forall j :: 0 <= j < |series| ==> 1000 <= series[j].date.year <= 9999
  }

  /** For four-digit years, the keys of an ascending series are distinct,
      ascend in string order, and read back (`new Date(key)`) as the days
      they were made from, so sorting the entries by `new Date(key)` and
      sorting them by day agree. */
  lemma KeysAscend(series: seq<DailyPoint>)
    requires Ascending(series) && FourDigitYears(series)
    ensures forall j, l :: 0 <= j < l < |series| ==> Less(Key(series[j]), Key(series[l]))
    ensures forall j :: 0 <= j < |series| ==> ParseISO(Key(series[j])) == Some(series[j].date)
  {
    forall j, l | 0 <= j < l < |series|
      ensures Less(Key(series[j]), Key(series[l]))
    {
      KeyOrder(series[j].date, series[l].date);
    }
    forall j | 0 <= j < |series|
      ensures ParseISO(Key(series[j])) == Some(series[j].date)
    {
      ISORoundTrip(series[j].date);
    }
  }

  /** A transaction filed under a day outside `DaysOf` adds nothing to it. */
  lemma {:induction false} NothingOnOtherDays(data: seq<Transaction>, today: Date, day: Date, k: Kind)
    requires WellDated(data, today) && day !in DaysOf(data, today)
    ensures AmountOn(data, today, day, k) == 0
  {
    if data != [] {
      NothingOnOtherDays(data[..|data| - 1], today, day, k);
    }
  }

  /** A non-empty finite set of valid dates has an earliest one. */
  lemma {:induction false} EarliestExists(s: set<Date>)
    requires s != {} && forall d :: d in s ==> Valid(d)
    ensures exists d :: IsEarliest(d, s)
    decreases |s|
  {
    var x :| x in s;
    if s != {x} {
      var rest := s - {x};
      EarliestExists(rest);
      var m :| IsEarliest(m, rest);
      OrdinalInjective(x, m);
      if Ordinal(x) < Ordinal(m) {
        assert IsEarliest(x, s);
      } else {
        assert IsEarliest(m, s);
      }
    } else {
      assert IsEarliest(x, s);
    }
  }

  /** Two ascending series over the same days list the days alike. */
  lemma {:induction false} AscendingDetermined(s1: seq<DailyPoint>, s2: seq<DailyPoint>)
    requires Ascending(s1) && Ascending(s2) && DatesOf(s1) == DatesOf(s2)
    ensures |s1| == |s2| && forall j :: 0 <= j < |s1| ==> s1[j].date == s2[j].date
    decreases |s1|
  {
    if s1 != [] {
      assert s1[0].date in DatesOf(s1);
    }
    if s2 != [] {
      assert s2[0].date in DatesOf(s2);
    }
    if s1 != [] && s2 != [] {
      var j :| 0 <= j < |s2| && s2[j].date == s1[0].date;
      var i :| 0 <= i < |s1| && s1[i].date == s2[0].date;
      assert Ordinal(s2[0].date) <= Ordinal(s1[0].date) && Ordinal(s1[0].date) <= Ordinal(s2[0].date);
      OrdinalInjective(s1[0].date, s2[0].date);
      HeadNotInTail(s1);
      HeadNotInTail(s2);
      AscendingDetermined(s1[1..], s2[1..]);
    }
  }

  /** The days of an ascending series after its head are the other days. */
  lemma HeadNotInTail(s: seq<DailyPoint>)
    requires Ascending(s) && s != []
    ensures Ascending(s[1..])
    ensures DatesOf(s[1..]) == DatesOf(s) - {s[0].date}
  {
    forall d | d in DatesOf(s) - {s[0].date}
      ensures d in DatesOf(s[1..])
    {
      var j :| 0 <= j < |s| && s[j].date == d;
      assert s[1..][j - 1] == s[j];
    }
    forall d | d in DatesOf(s[1..])
      ensures d in DatesOf(s) - {s[0].date}
    {
      var j :| 0 <= j < |s[1..]| && s[1..][j].date == d;
      assert s[j + 1].date == d;
      assert Ordinal(s[0].date) < Ordinal(s[j + 1].date);
    }
  }

  /** `processTransactionData` is deterministic: one series meets its
      description, so re-running it yields the same series. */
  lemma DailySeriesUnique(data: seq<Transaction>, today: Date, s1: seq<DailyPoint>, s2: seq<DailyPoint>)
    requires WellDated(data, today)
    requires IsDailySeries(data, today, s1) && IsDailySeries(data, today, s2)
    ensures s1 == s2
  {
    AscendingDetermined(s1, s2);
    forall j | 0 <= j < |s1|
      ensures s1[j] == s2[j]
    {
      assert Amount(s1[j], Receita) == Amount(s2[j], Receita);
      assert Amount(s1[j], Despesa) == Amount(s2[j], Despesa);
    }
  }

  // ------------------------------------------------------ totals conserved

  /** The sum of one kind of amount over a series. */
  function SumOf(series: seq<DailyPoint>, k: Kind): int
  {
    if series == [] then 0 else SumOf(series[..|series| - 1], k) + Amount(series[|series| - 1], k)
  }

  /** The sum of the day-amounts of `data` at the days of `series`. */
  function AmountsAt(series: seq<DailyPoint>, data: seq<Transaction>, today: Date, k: Kind): int
    requires WellDated(data, today)
  {
    if series == [] then 0
    else AmountsAt(series[..|series| - 1], data, today, k) + AmountOn(data, today, series[|series| - 1].date, k)
  }

  predicate DistinctDates(series: seq<DailyPoint>)
  {
    forall j, l :: 0 <= j < l < |series| ==> series[j].date != series[l].date
  }

  /** One more transaction adds its value at its own day, once. */
  lemma {:induction false} AmountsAtSnoc(series: seq<DailyPoint>, data: seq<Transaction>, t: Transaction, today: Date, k: Kind)
    requires WellDated(data + [t], today) && !ParseDate(t.date, today).Unsupported? && DistinctDates(series)
    ensures WellDated(data, today)
    ensures AmountsAt(series, data + [t], today, k)
      == AmountsAt(series, data, today, k) + (if DayOf(t, today) in DatesOf(series) && t.kind == k then t.value else 0)
  {
    assert (data + [t])[..|data|] == data && (data + [t])[|data|] == t;
    assert WellDated(data, today) by {
      forall i | 0 <= i < |data| ensures !ParseDate(data[i].date, today).Unsupported? {
        assert (data + [t])[i] == data[i];
      }
    }
    if series != [] {
      var init := series[..|series| - 1];
      AmountsAtSnoc(init, data, t, today, k);
      assert DatesOf(series) == DatesOf(init) + {series[|series| - 1].date} by {
        assert forall j :: 0 <= j < |init| ==> init[j] == series[j];
      }
      assert series[|series| - 1].date !in DatesOf(init);
    }
  }

  /** Summing the day-amounts over a set of distinct days that covers every
      day of `data` gives the total of `data`. */
  lemma {:induction false} AmountsAtTotal(series: seq<DailyPoint>, data: seq<Transaction>, today: Date, k: Kind)
    requires WellDated(data, today) && DistinctDates(series)
    requires DaysOf(data, today) <= DatesOf(series)
    ensures AmountsAt(series, data, today, k) == KindTotal(data, k)
    decreases |data|
  {
    if data == [] {
      ZeroAmounts(series, data, today, k);
    } else {
      var init, t := data[..|data| - 1], data[|data| - 1];
      assert init + [t] == data;
      AmountsAtSnoc(series, init, t, today, k);
      AmountsAtTotal(series, init, today, k);
    }
  }

  lemma {:induction false} ZeroAmounts(series: seq<DailyPoint>, data: seq<Transaction>, today: Date, k: Kind)
    requires data == [] && WellDated(data, today)
    ensures AmountsAt(series, data, today, k) == 0
  {
    if series != [] {
      ZeroAmounts(series[..|series| - 1], data, today, k);
    }
  }

  /** A series whose amounts are the day-amounts sums to `AmountsAt`. */
  lemma {:induction false} SumIsAmountsAt(series: seq<DailyPoint>, data: seq<Transaction>, today: Date, k: Kind)
    requires WellDated(data, today)
    requires forall j :: 0 <= j < |series| ==> Amount(series[j], k) == AmountOn(data, today, series[j].date, k)
    ensures SumOf(series, k) == AmountsAt(series, data, today, k)
  {
    if series != [] {
      SumIsAmountsAt(series[..|series| - 1], data, today, k);
    }
  }

  /** Grouping by day loses and invents nothing: over all days, the series
      sums to the receita and despesa totals of the transactions. */
  lemma DailySeriesConservesTotals(data: seq<Transaction>, today: Date, series: seq<DailyPoint>, k: Kind)
    requires WellDated(data, today) && IsDailySeries(data, today, series)
    ensures SumOf(series, k) == KindTotal(data, k)
  {
    SumIsAmountsAt(series, data, today, k);
    AmountsAtTotal(series, data, today, k);
  }

  // ------------------------------------------------------- re-serializing

  /** A day written back as two transaction records dated `dd/mm/yyyy`: one
      receita carrying the day's receita sum and one despesa carrying its
      despesa sum. The fields the chart does not read are placeholders. */
  function DayRecords(p: DailyPoint): seq<Transaction>
    requires Valid(p.date) && p.date.year >= 0
  {
    var date := DayMonthYear(p.date);
    [Transaction(0, "", p.receita, Receita, "", date, p.receita),
     Transaction(0, "", p.despesa, Despesa, "", date, -p.despesa)]
  }

  predicate LongYears(series: seq<DailyPoint>)
  {
    forall j :: 0 <= j < |series| ==> Valid(series[j].date) && series[j].date.year >= 100
  }

  /** The records of every day of a series, day by day. */
  function Reserialize(series: seq<DailyPoint>): seq<Transaction>
    requires LongYears(series)
  {
    if series == [] then []
    else Reserialize(series[..|series| - 1]) + DayRecords(series[|series| - 1])
  }

  /** Appending one day's records adds that day, and its receita and
      despesa sums, to what the records already hold. */
  lemma DayRecordsStep(xs: seq<Transaction>, p: DailyPoint, today: Date)
    requires WellDated(xs, today) && Valid(p.date) && p.date.year >= 100
    ensures WellDated(xs + DayRecords(p), today)
    ensures DaysOf(xs + DayRecords(p), today) == DaysOf(xs, today) + {p.date}
    ensures forall d, k ::
      AmountOn(xs + DayRecords(p), today, d, k) == AmountOn(xs, today, d, k) + (if d == p.date then Amount(p, k) else 0)
  {
    var r0, r1 := DayRecords(p)[0], DayRecords(p)[1];
    ParseDayMonthYear(p.date, today);
    assert ParseDate(r0.date, today) == Parsed(p.date) && ParseDate(r1.date, today) == Parsed(p.date);
    var ys := xs + [r0];
    var rs := ys + [r1];
    assert rs == xs + DayRecords(p);
    assert rs[..|rs| - 1] == ys && ys[..|ys| - 1] == xs;
    assert WellDated(ys, today);
    assert WellDated(rs, today);
    assert DaysOf(ys, today) == DaysOf(xs, today) + {p.date};
    forall d, k
      ensures AmountOn(rs, today, d, k) == AmountOn(xs, today, d, k) + (if d == p.date then Amount(p, k) else 0)
    {
      assert AmountOn(ys, today, d, k) == AmountOn(xs, today, d, k) + (if d == p.date && k == Receita then p.receita else 0);
    }
  }

  /** Grouping is idempotent: re-serializing a daily series and grouping the
      records again gives back the same series, as the one series that
      `processTransactionData` can return for them. */
  lemma {:induction false} ReserializeRegroups(series: seq<DailyPoint>, today: Date)
    requires Ascending(series) && LongYears(series) && Valid(today)
    ensures WellDated(Reserialize(series), today)
    ensures IsDailySeries(Reserialize(series), today, series)
  {
    if series != [] {
      var init, p := series[..|series| - 1], series[|series| - 1];
      assert Ascending(init);
      ReserializeRegroups(init, today);
      assert series == init + [p];
      SnocRegroups(init, p, Reserialize(init), today);
    }
  }

  /** One more day, later than all before it, added to a series and to
      records that group into that series. */
  lemma SnocRegroups(init: seq<DailyPoint>, p: DailyPoint, xs: seq<Transaction>, today: Date)
    requires Ascending(init + [p]) && Valid(p.date) && p.date.year >= 100
    requires WellDated(xs, today) && IsDailySeries(xs, today, init)
    ensures WellDated(xs + DayRecords(p), today)
    ensures IsDailySeries(xs + DayRecords(p), today, init + [p])
  {
    DayRecordsStep(xs, p, today);
    DatesOfSnoc(init, p);
    forall j, k | 0 <= j < |init + [p]|
      ensures Amount((init + [p])[j], k) == AmountOn(xs + DayRecords(p), today, (init + [p])[j].date, k)
    {
      SnocAmount(init, p, xs, today, j, k);
    }
  }

  lemma DatesOfSnoc(init: seq<DailyPoint>, p: DailyPoint)
    ensures DatesOf(init + [p]) == DatesOf(init) + {p.date}
  {
    var series := init + [p];
    assert forall j :: 0 <= j < |init| ==> init[j] == series[j];
    assert series[|init|] == p;
  }

  lemma SnocAmount(init: seq<DailyPoint>, p: DailyPoint, xs: seq<Transaction>, today: Date, j: int, k: Kind)
    requires Ascending(init + [p]) && Valid(p.date) && p.date.year >= 100
    requires WellDated(xs, today) && IsDailySeries(xs, today, init)
    requires WellDated(xs + DayRecords(p), today)
    requires forall d, k ::
      AmountOn(xs + DayRecords(p), today, d, k) == AmountOn(xs, today, d, k) + (if d == p.date then Amount(p, k) else 0)
    requires 0 <= j <= |init|
    ensures Amount((init + [p])[j], k) == AmountOn(xs + DayRecords(p), today, (init + [p])[j].date, k)
  {
    var series := init + [p];
    if j < |init| {
      assert init[j] == series[j];
      assert Ordinal(series[j].date) < Ordinal(series[|init|].date);
    } else {
      assert p.date !in DatesOf(init) by {
        forall i | 0 <= i < |init|
          ensures init[i].date != p.date
        {
          assert init[i] == series[i] && series[|init|] == p;
        }
      }
      NothingOnOtherDays(xs, today, p.date, k);
    }
  }

  /** Re-serializing a series and running `processTransactionData` again
      cannot give any other series. */
  lemma RegroupIsIdentity(series: seq<DailyPoint>, today: Date, other: seq<DailyPoint>)
    requires Ascending(series) && LongYears(series) && Valid(today)
    requires WellDated(Reserialize(series), today) && IsDailySeries(Reserialize(series), today, other)
    ensures other == series
  {
    ReserializeRegroups(series, today);
    DailySeriesUnique(Reserialize(series), today, series, other);
  }

  // --------------------------------------------------------- time window

  /** `daysToSubtract` for the selected `timeRange`. */
  function WindowDays(timeRange: string): nat
  {
    if timeRange == "30d" then 30 else if timeRange == "7d" then 7 else 90
  }

  /** `series.filter(item => date(item) >= start)` with `start` a day number. */
  function KeepFrom(series: seq<DailyPoint>, start: int): (r: seq<DailyPoint>)
    requires AllValid(series)
    ensures AllValid(r)
    ensures IsSubsequence(r, series)
    ensures forall p :: p in r <==> p in series && Ordinal(p.date) >= start
  {
    if series == [] then []
    else
      var rest := KeepFrom(series[1..], start);
      assert series == [series[0]] + series[1..];
      if Ordinal(series[0].date) >= start then
        assert ([series[0]] + rest)[1..] == rest;
        [series[0]] + rest
      else rest
  }

  function Last(series: seq<DailyPoint>): DailyPoint
    requires series != []
  {
    series[|series| - 1]
  }

  /** The first day of the window: the last day of the series moved back by
      `daysToSubtract` days (`startDate.setDate(startDate.getDate() - n)`). */
  function WindowStart(series: seq<DailyPoint>, timeRange: string): int
    requires series != [] && AllValid(series)
  {
    Ordinal(Last(series).date) - WindowDays(timeRange)
  }

  /** `filteredData`: nothing for an empty series, otherwise the entries on
      or after the window's first day. */
  function FilteredData(series: seq<DailyPoint>, timeRange: string): (r: seq<DailyPoint>)
    requires AllValid(series)
    ensures AllValid(r) && IsSubsequence(r, series)
    ensures series == [] ==> r == []
    ensures series != [] ==> forall p :: p in r <==> p in series && Ordinal(p.date) >= WindowStart(series, timeRange)
  {
    if series == [] then [] else KeepFrom(series, WindowStart(series, timeRange))
  }

  /** The filter keeps every copy of an entry on or after `start` and no
      copy of any other: repeated entries keep their multiplicity. */
  lemma {:induction false} KeepFromCounts(series: seq<DailyPoint>, start: int)
    requires AllValid(series)
    ensures forall p ::
      multiset(KeepFrom(series, start))[p] == if Valid(p.date) && Ordinal(p.date) >= start then multiset(series)[p] else 0
  {
    if series != [] {
      KeepFromCounts(series[1..], start);
      assert series == [series[0]] + series[1..];
    }
  }

  /** Each window keeps every copy of the entries inside it. */
  lemma WindowCounts(series: seq<DailyPoint>, timeRange: string)
    requires AllValid(series) && series != []
    ensures forall p ::
      multiset(FilteredData(series, timeRange))[p] == (if Valid(p.date) && Ordinal(p.date) >= WindowStart(series, timeRange) then multiset(series)[p] else 0)
  {
    KeepFromCounts(series, WindowStart(series, timeRange));
  }

  /** A higher threshold applied to a filtered series is the same as the
      higher threshold alone. */
  lemma {:induction false} KeepFromTwice(series: seq<DailyPoint>, a: int, b: int)
    requires AllValid(series) && a >= b
    ensures KeepFrom(KeepFrom(series, b), a) == KeepFrom(series, a)
  {
    if series != [] {
      KeepFromTwice(series[1..], a, b);
    }
  }

  /** The 7-day window is the 7-day filter of the 30-day window, which is the
      30-day filter of the 90-day window, which is part of the series. */
  lemma WindowsNest(series: seq<DailyPoint>)
    requires AllValid(series) && series != []
    ensures FilteredData(series, "7d") == KeepFrom(FilteredData(series, "30d"), WindowStart(series, "7d"))
    ensures FilteredData(series, "30d") == KeepFrom(FilteredData(series, "90d"), WindowStart(series, "30d"))
    ensures IsSubsequence(FilteredData(series, "7d"), FilteredData(series, "30d"))
    ensures IsSubsequence(FilteredData(series, "30d"), FilteredData(series, "90d"))
    ensures IsSubsequence(FilteredData(series, "90d"), series)
  {
    KeepFromTwice(series, WindowStart(series, "7d"), WindowStart(series, "30d"));
    KeepFromTwice(series, WindowStart(series, "30d"), WindowStart(series, "90d"));
  }

  /** A window never drops the last day of a non-empty series. */
  lemma WindowKeepsLast(series: seq<DailyPoint>, timeRange: string)
    requires AllValid(series) && series != []
    ensures FilteredData(series, timeRange) != []
    ensures Last(FilteredData(series, timeRange)) == Last(series)
  {
    KeepFromKeepsLast(series, WindowStart(series, timeRange));
  }

  lemma {:induction false} KeepFromKeepsLast(series: seq<DailyPoint>, start: int)
    requires AllValid(series) && series != [] && Ordinal(Last(series).date) >= start
    ensures KeepFrom(series, start) != [] && Last(KeepFrom(series, start)) == Last(series)
  {
    if |series| > 1 {
      KeepFromKeepsLast(series[1..], start);
    }
  }

  /** On an ascending series the window is a trailing run of days. */
  lemma {:induction false} KeepFromIsSuffix(series: seq<DailyPoint>, start: int)
    requires Ascending(series)
    ensures exists n :: 0 <= n <= |series| && KeepFrom(series, start) == series[n..]
  {
    if series == [] {
      assert KeepFrom(series, start) == series[0..];
    } else if Ordinal(series[0].date) >= start {
      assert KeepFrom(series, start) == series[0..] by {
        AllFromStart(series, start);
      }
    } else {
      KeepFromIsSuffix(series[1..], start);
      var n :| 0 <= n <= |series[1..]| && KeepFrom(series[1..], start) == series[1..][n..];
      assert series[1..][n..] == series[n + 1..];
    }
  }

  lemma {:induction false} AllFromStart(series: seq<DailyPoint>, start: int)
    requires Ascending(series) && series != [] && Ordinal(series[0].date) >= start
    ensures KeepFrom(series, start) == series
  {
    var rest := series[1..];
    assert KeepFrom(series, start) == [series[0]] + KeepFrom(rest, start);
    if rest != [] {
      assert Ordinal(series[0].date) < Ordinal(rest[0].date);
      assert Ascending(rest);
      AllFromStart(rest, start);
    }
    assert [series[0]] + rest == series;
  }

  /** On an ascending series every window is a trailing run of days. */
  lemma WindowIsSuffix(series: seq<DailyPoint>, timeRange: string)
    requires Ascending(series)
    ensures exists n :: 0 <= n <= |series| && FilteredData(series, timeRange) == series[n..]
  {
    if series == [] {
      assert FilteredData(series, timeRange) == series[0..];
    } else {
      KeepFromIsSuffix(series, WindowStart(series, timeRange));
    }
  }

  // ------------------------------------------------------------- pie view

  datatype PieSlice = PieSlice(name: string, value: int, fill: string)

  /** `pieData`: the window's receita and despesa totals, in that order. */
  method PieData(filteredData: seq<DailyPoint>) returns (pie: seq<PieSlice>)
    ensures |pie| == 2
    ensures pie[0] == PieSlice("Receita", SumOf(filteredData, Receita), "var(--color-receita)")
    ensures pie[1] == PieSlice("Despesa", SumOf(filteredData, Despesa), "var(--color-despesa)")
  {
    var totals := Totals(0, 0);
    for i := 0 to |filteredData|
      invariant totals == Totals(SumOf(filteredData[..i], Receita), SumOf(filteredData[..i], Despesa))
    {
      var d := filteredData[i];
      assert filteredData[..i + 1][..i] == filteredData[..i] && filteredData[..i + 1][i] == d;
      totals := Totals(totals.receita + d.receita, totals.despesa + d.despesa);
    }
    assert filteredData[..|filteredData|] == filteredData;
    pie := [
      PieSlice("Receita", totals.receita, "var(--color-receita)"),
      PieSlice("Despesa", totals.despesa, "var(--color-despesa)")
    ];
  }

  // ----------------------------------------------------------- radar view

  datatype RadarBucket = RadarBucket(subject: string, receita: int, despesa: int)

  /** The bucket labels, Sunday first, as `getDay` numbers the weekdays. */
  const WeekdayNames: seq<string> := ["Dom", "Seg", "Ter", "Qua", "Qui", "Sex", "Sáb"]

  /** The sum of one kind of amount over the days of the series that fall
      on weekday `w`. */
  function WeekdayAmount(series: seq<DailyPoint>, w: int, k: Kind): int
    requires AllValid(series)
  {
    if series == [] then 0
    else
      var p := series[|series| - 1];
      WeekdayAmount(series[..|series| - 1], w, k) + (if Weekday(p.date) == w then Amount(p, k) else 0)
  }

  /** `radarData`: seven zeroed buckets, then each day's totals added to the
      bucket of its weekday. */
  method RadarData(filteredData: seq<DailyPoint>) returns (radar: seq<RadarBucket>)
    requires AllValid(filteredData)
    ensures |radar| == 7
    ensures forall w :: 0 <= w < 7 ==>
      radar[w] == RadarBucket(WeekdayNames[w], WeekdayAmount(filteredData, w, Receita), WeekdayAmount(filteredData, w, Despesa))
  {
    var buckets := new RadarBucket[7](w requires w < 7 => RadarBucket(WeekdayNames[w], 0, 0));
    for i := 0 to |filteredData|
      invariant forall w :: 0 <= w < 7 ==>
        buckets[w] == RadarBucket(WeekdayNames[w], WeekdayAmount(filteredData[..i], w, Receita), WeekdayAmount(filteredData[..i], w, Despesa))
    {
      var d := filteredData[i];
      assert filteredData[..i + 1][..i] == filteredData[..i] && filteredData[..i + 1][i] == d;
      var dayIndex := Weekday(d.date);
      var bucket := buckets[dayIndex];
      buckets[dayIndex] := bucket.(receita := bucket.receita + d.receita, despesa := bucket.despesa + d.despesa);
    }
    assert filteredData[..|filteredData|] == filteredData;
    radar := buckets[..];
  }

  /** The sum of the first `n` weekday buckets. */
  function WeekdaySum(series: seq<DailyPoint>, n: nat, k: Kind): int
    requires AllValid(series)
  {
    if n == 0 then 0 else WeekdaySum(series, n - 1, k) + WeekdayAmount(series, n - 1, k)
  }

  /** The seven weekday buckets add up to the window's total, which is the
      corresponding pie slice. */
  lemma {:induction false} WeekdaysCoverTotal(series: seq<DailyPoint>, k: Kind)
    requires AllValid(series)
    ensures WeekdaySum(series, 7, k) == SumOf(series, k)
  {
    if series == [] {
      NoDaysNoWeekdays(7, k);
    } else {
      var init, p := series[..|series| - 1], series[|series| - 1];
      WeekdaysCoverTotal(init, k);
      WeekdaySumSnoc(series, 7, k);
      assert Weekday(p.date) < 7;
      assert SumOf(series, k) == SumOf(init, k) + Amount(p, k);
    }
  }

  lemma {:induction false} NoDaysNoWeekdays(n: nat, k: Kind)
    ensures WeekdaySum([], n, k) == 0
  {
    if n > 0 {
      NoDaysNoWeekdays(n - 1, k);
    }
  }

  /** Adding a day to the series adds its amount to the first `n` buckets
      exactly when its weekday is among them. */
  lemma {:induction false} WeekdaySumSnoc(series: seq<DailyPoint>, n: nat, k: Kind)
    requires AllValid(series) && series != []
    ensures WeekdaySum(series, n, k) == WeekdaySum(series[..|series| - 1], n, k)
      + (if Weekday(Last(series).date) < n then Amount(Last(series), k) else 0)
  {
    if n > 0 {
      WeekdaySumSnoc(series, n - 1, k);
    }
  }
}
