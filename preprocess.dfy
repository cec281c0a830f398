/** data/preprocess_covid_data.py: from the three Johns Hopkins CSSE
    cumulative series to one row per day with confirmed, deaths,
    recovered, active cases and daily new cases.  Counts are integers;
    dates are ordinals (see Calendar.Ordinal). */
module Preprocess {
  import opened Common
  import Calendar

  /** One row of a JHU time-series file: the four metadata columns and one
      cumulative count per date column. */
  datatype JhuRow = JhuRow(province: Option<string>, country: string, lat: real, long: real, counts: seq<int>)

  /** A JHU file: the date columns (everything after the first four
      columns) and the rows. */
  datatype JhuTable = JhuTable(dates: seq<int>, rows: seq<JhuRow>)

  predicate WellFormed(t: JhuTable)
  {
    forall k :: 0 <= k < |t.rows| ==> |t.rows[k].counts| == |t.dates|
  }

  /** `df[df["Country/Region"] == country]`. */
  function CountryRows(rows: seq<JhuRow>, country: string): (kept: seq<JhuRow>)
    ensures |kept| <= |rows|
    ensures forall k :: 0 <= k < |kept| ==> kept[k].country == country && kept[k] in rows
    ensures (exists k :: 0 <= k < |rows| && rows[k].country == country) <==> |kept| > 0
  {
    if |rows| == 0 then []
    else
      var rest := CountryRows(rows[1..], country);
      assert forall k :: 1 <= k < |rows| ==> rows[k] == rows[1..][k - 1];
      if rows[0].country == country then [rows[0]] + rest else rest
  }

  /** Every row has a count for date column j. */
  predicate HasColumn(rows: seq<JhuRow>, j: int)
  {
    forall k :: 0 <= k < |rows| ==> 0 <= j < |rows[k].counts|
  }

  /** The sum over the rows of date column j. */
  function ColumnSum(rows: seq<JhuRow>, j: int): int
    requires HasColumn(rows, j)
  {
    if |rows| == 0 then 0 else rows[0].counts[j] + ColumnSum(rows[1..], j)
  }

  /** Summing provinces is additive over any split of the rows. */
  lemma {:induction false} ColumnSumAppend(a: seq<JhuRow>, b: seq<JhuRow>, j: int)
    requires HasColumn(a, j) && HasColumn(b, j)
    ensures HasColumn(a + b, j)
    ensures ColumnSum(a + b, j) == ColumnSum(a, j) + ColumnSum(b, j)
  {
    if |a| == 0 {
      assert a + b == b;
    } else {
      assert (a + b)[1..] == a[1..] + b;
      ColumnSumAppend(a[1..], b, j);
    }
  }

  /** `extract_country_data`: ValueError when no row names the country;
      otherwise, per date column, the sum over the country's rows. */
  function ExtractCountryData(t: JhuTable, country: string): (r: Outcome<seq<int>>)
    requires WellFormed(t)
    ensures r.Raised? <==> forall k :: 0 <= k < |t.rows| ==> t.rows[k].country != country
    ensures r.Raised? ==> r.exc == ValueError
    ensures r.Returned? ==> |r.value| == |t.dates|
    ensures r.Returned? ==> forall j :: 0 <= j < |t.dates| ==>
      HasColumn(CountryRows(t.rows, country), j) && r.value[j] == ColumnSum(CountryRows(t.rows, country), j)
  {
    var rows := CountryRows(t.rows, country);
    if |rows| == 0 then Raised(ValueError)
    else
      assert forall j :: 0 <= j < |t.dates| ==> HasColumn(rows, j) by {
        forall k | 0 <= k < |rows|
          ensures |rows[k].counts| == |t.dates|
        {
          assert rows[k] in t.rows;
        }
      }
      Returned(seq(|t.dates|, j requires 0 <= j < |t.dates| => ColumnSum(rows, j)))
  }

  /** A row of another country changes nothing. */
  lemma OtherCountryIgnored(t: JhuTable, extra: JhuRow, country: string)
    requires WellFormed(t) && |extra.counts| == |t.dates| && extra.country != country
    ensures WellFormed(JhuTable(t.dates, t.rows + [extra]))
    ensures ExtractCountryData(JhuTable(t.dates, t.rows + [extra]), country) == ExtractCountryData(t, country)
  {
    CountryRowsSnoc(t.rows, extra, country);
  }

  lemma {:induction false} CountryRowsSnoc(rows: seq<JhuRow>, extra: JhuRow, country: string)
    requires extra.country != country
    ensures CountryRows(rows + [extra], country) == CountryRows(rows, country)
  {
    if |rows| == 0 {
      assert rows + [extra] == [extra];
    } else {
      assert (rows + [extra])[1..] == rows[1..] + [extra];
      CountryRowsSnoc(rows[1..], extra, country);
    }
  }

  /** A country with one row gets that row's counts unchanged. */
  lemma SingleRow(t: JhuTable, country: string, j: int)
    requires WellFormed(t) && |CountryRows(t.rows, country)| == 1
    requires 0 <= j < |t.dates|
    ensures ExtractCountryData(t, country).Returned?
    ensures ExtractCountryData(t, country).value[j] == CountryRows(t.rows, country)[0].counts[j]
  {
    var rows := CountryRows(t.rows, country);
    assert rows[1..] == [];
    assert HasColumn(rows, j) && ColumnSum(rows[1..], j) == 0;
  }

  /** A row of the `pd.DataFrame({...})` of `preprocess_covid_data`: the parsed date and the three
      national totals. */
  datatype Row = Row(date: int, confirmed: int, deaths: int, recovered: int)

  function RowDate(r: Row): int
  {
    r.date
  }

  const DefaultStart: Calendar.Date := Calendar.Date(2020, 2, 1)
  const DefaultEnd: Calendar.Date := Calendar.Date(2020, 5, 31)

  /** The `pd.DataFrame({...})` of `preprocess_covid_data`, built from the three country series: the dates
      of the confirmed file beside the three totals.  Any extraction error
      propagates, and series of different lengths raise ValueError. */
  function Combined(confirmedT: JhuTable, deathsT: JhuTable, recoveredT: JhuTable, country: string): (r: Outcome<seq<Row>>)
    requires WellFormed(confirmedT) && WellFormed(deathsT) && WellFormed(recoveredT)
    ensures r.Raised? <==>
      ExtractCountryData(confirmedT, country).Raised? || ExtractCountryData(deathsT, country).Raised? ||
      ExtractCountryData(recoveredT, country).Raised? ||
      |deathsT.dates| != |confirmedT.dates| || |recoveredT.dates| != |confirmedT.dates|
    ensures r.Raised? ==> r.exc == ValueError
    ensures r.Returned? ==> |r.value| == |confirmedT.dates|
    ensures r.Returned? ==> forall j {:trigger r.value[j]} :: 0 <= j < |confirmedT.dates| ==>
      r.value[j] == Row(confirmedT.dates[j], ExtractCountryData(confirmedT, country).value[j],
                        ExtractCountryData(deathsT, country).value[j], ExtractCountryData(recoveredT, country).value[j])
  {
    match (ExtractCountryData(confirmedT, country), ExtractCountryData(deathsT, country), ExtractCountryData(recoveredT, country))
    case (Raised(e), _, _) => Raised(e)
    case (_, Raised(e), _) => Raised(e)
    case (_, _, Raised(e)) => Raised(e)
    case (Returned(c), Returned(d), Returned(rc)) =>
      var n := |confirmedT.dates|;
      if |d| != n || |rc| != n then Raised(ValueError)
      else Returned(seq(n, j requires 0 <= j < n => Row(confirmedT.dates[j], c[j], d[j], rc[j])))
  }

  /** The frame of `preprocess_covid_data` after its date filter and empty check: the combined
      frame cut to start <= date <= end, ValueError when nothing is left. */
  function Window(confirmedT: JhuTable, deathsT: JhuTable, recoveredT: JhuTable, country: string,
                  start: int, end: int): (r: Outcome<seq<Row>>)
    requires WellFormed(confirmedT) && WellFormed(deathsT) && WellFormed(recoveredT)
    ensures r.Raised? ==> r.exc == ValueError
    ensures Combined(confirmedT, deathsT, recoveredT, country).Raised? ==> r.Raised?
    ensures r.Returned? ==> Combined(confirmedT, deathsT, recoveredT, country).Returned? && |r.value| > 0
    ensures r.Returned? ==> forall x :: x in r.value <==>
      x in Combined(confirmedT, deathsT, recoveredT, country).value && start <= x.date <= end
    ensures Combined(confirmedT, deathsT, recoveredT, country).Returned? ==>
      ((forall x :: x in Combined(confirmedT, deathsT, recoveredT, country).value ==> x.date < start || end < x.date)
       <==> r.Raised?)
  {
    match Combined(confirmedT, deathsT, recoveredT, country)
    case Raised(e) => Raised(e)
    case Returned(frame) =>
      var kept := Calendar.DateWindow(frame, RowDate, start, end);
      if |kept| == 0 then Raised(ValueError)
      else
        assert forall x :: x in kept <==> x in frame && start <= x.date <= end;
        assert kept[0] in frame && start <= kept[0].date <= end;
        Returned(kept)
  }

  /** The output row. */
  datatype DayRecord = DayRecord(date: int, confirmed: int, deaths: int, recovered: int, active: int, dailyNewCases: int)

  /** `clip(lower=0)`. */
  function ClipLow(x: int): (c: int)
    ensures c >= 0 && c >= x
    ensures x >= 0 ==> c == x
  {
    if x < 0 then 0 else x
  }

  /** `max(0, confirmed - recovered - deaths)`. */
  function ClippedActive(r: Row): (a: int)
    ensures a >= 0 && a >= r.confirmed - r.recovered - r.deaths
    ensures r.recovered >= 0 && r.deaths >= 0 && r.confirmed >= 0 ==> a <= r.confirmed
  {
    ClipLow(r.confirmed - r.recovered - r.deaths)
  }

  /** Daily new cases: 0 on the first day, then the clipped first
      difference of the cumulative count. */
  function DailyNewCases(c: seq<int>): (d: seq<int>)
    ensures |d| == |c|
    ensures |c| > 0 ==> d[0] == 0
    ensures forall k {:trigger d[k]} :: 1 <= k < |c| ==> d[k] == ClipLow(c[k] - c[k - 1])
  {
    seq(|c|, k requires 0 <= k < |c| => if k == 0 then 0 else ClipLow(c[k] - c[k - 1]))
  }

  function Sum(s: seq<int>): int
  {
    if |s| == 0 then 0 else Sum(s[..|s| - 1]) + s[|s| - 1]
  }

  predicate NonDecreasing(c: seq<int>)
  {
    forall k {:trigger c[k]} :: 1 <= k < |c| ==> c[k - 1] <= c[k]
  }

  /** On a non-decreasing cumulative series nothing is clipped, so the
      daily new cases add back up to the cumulative count. */
  lemma {:induction false} DailyNewCasesAddUp(c: seq<int>, k: int)
    requires NonDecreasing(c)
    requires 0 <= k < |c|
    ensures c[0] + Sum(DailyNewCases(c)[..k + 1]) == c[k]
  {
    var d := DailyNewCases(c);
    if k > 0 {
      DailyNewCasesAddUp(c, k - 1);
      assert d[..k + 1][..k] == d[..k];
    }
  }

  /** The `df["active"]` and `df["daily_new_cases"]` assignments on the filtered frame: active
      cases, the first difference with the first entry set to 0, both
      clipped at 0, and the conversion to integers. */
  method DeriveColumns(rows: seq<Row>) returns (out: seq<DayRecord>)
    requires |rows| > 0
    ensures |out| == |rows|
    ensures forall k :: 0 <= k < |rows| ==>
      out[k].date == rows[k].date && out[k].confirmed == rows[k].confirmed &&
      out[k].deaths == rows[k].deaths && out[k].recovered == rows[k].recovered
    ensures forall k :: 0 <= k < |rows| ==> out[k].active == ClippedActive(rows[k])
    ensures forall k :: 0 <= k < |rows| ==> out[k].dailyNewCases == DailyNewCases(Confirmed(rows))[k]
    ensures forall k :: 0 <= k < |rows| ==> out[k].active >= 0 && out[k].dailyNewCases >= 0
  {
    var n := |rows|;
    var confirmed := Confirmed(rows);
    // df["active"] = df["confirmed"] - df["recovered"] - df["deaths"]
    var active := seq(n, k requires 0 <= k < n => rows[k].confirmed - rows[k].recovered - rows[k].deaths);
    // df["daily_new_cases"] = df["confirmed"].diff()
    var daily := Diff(confirmed);
    // df.loc[0, "daily_new_cases"] = 0
    daily := daily[0 := Some(0)];
    // clip(lower=0) on both columns
    daily := ClipColumn(daily);
    active := seq(n, k requires 0 <= k < n => ClipLow(active[k]));
    assert forall k :: 0 <= k < n ==> daily[k] == Some(DailyNewCases(confirmed)[k]);
    // astype(int): no NaN is left
    var newCases := seq(n, k requires 0 <= k < n => daily[k].value);
    out := seq(n, k requires 0 <= k < n =>
      DayRecord(rows[k].date, rows[k].confirmed, rows[k].deaths, rows[k].recovered, active[k], newCases[k]));
  }

  /** `Series.diff()`: NaN in the first row, then the first differences. */
  function Diff(c: seq<int>): (d: seq<Option<int>>)
    ensures |d| == |c|
    ensures |c| > 0 ==> d[0] == None
    ensures forall k {:trigger d[k]} :: 1 <= k < |c| ==> d[k] == Some(c[k] - c[k - 1])
  {
    seq(|c|, k requires 0 <= k < |c| => if k == 0 then None else Some(c[k] - c[k - 1]))
  }

  /** `clip(lower=0)` on a column that may hold NaN. */
  function ClipColumn(xs: seq<Option<int>>): (ys: seq<Option<int>>)
    ensures |ys| == |xs|
    ensures forall k :: 0 <= k < |xs| ==> ys[k] == if xs[k].Some? then Some(ClipLow(xs[k].value)) else None
  {
    seq(|xs|, k requires 0 <= k < |xs| => if xs[k].Some? then Some(ClipLow(xs[k].value)) else None)
  }

  /** The confirmed column. */
  function Confirmed(rows: seq<Row>): (c: seq<int>)
    ensures |c| == |rows|
    ensures forall k :: 0 <= k < |rows| ==> c[k] == rows[k].confirmed
  {
    seq(|rows|, k requires 0 <= k < |rows| => rows[k].confirmed)
  }

  /** `preprocess_covid_data`: the window of the three country series, or
      ValueError, then the derived columns. */
  method PreprocessCovidData(confirmedT: JhuTable, deathsT: JhuTable, recoveredT: JhuTable, country: string,
                             start: Calendar.Date, end: Calendar.Date) returns (r: Outcome<seq<DayRecord>>)
    requires WellFormed(confirmedT) && WellFormed(deathsT) && WellFormed(recoveredT)
    requires Calendar.Valid(start) && Calendar.Valid(end)
    ensures var w := Window(confirmedT, deathsT, recoveredT, country, Calendar.Ordinal(start), Calendar.Ordinal(end));
      (r.Raised? <==> w.Raised?) && (r.Raised? ==> r.exc == ValueError) &&
      (r.Returned? ==> |r.value| == |w.value| > 0) &&
      (r.Returned? ==> forall k :: 0 <= k < |w.value| ==>
         r.value[k].date == w.value[k].date && r.value[k].confirmed == w.value[k].confirmed &&
         r.value[k].deaths == w.value[k].deaths && r.value[k].recovered == w.value[k].recovered &&
         r.value[k].active == ClippedActive(w.value[k]) &&
         r.value[k].dailyNewCases == DailyNewCases(Confirmed(w.value))[k])
  {
    var w := Window(confirmedT, deathsT, recoveredT, country, Calendar.Ordinal(start), Calendar.Ordinal(end));
    if w.Raised? {
      return Raised(w.exc);
    }
    var out := DeriveColumns(w.value);
    r := Returned(out);
  }
}
