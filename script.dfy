/** The body of the dashboard script: the ranking is sorted by AQI and
    given a colour column, the headline figures are averaged, the shaded
    bands are stretched over the plotted dates, and the pollutant table is
    reshaped to long format for the line chart. */
module Script {
  import opened Wrappers
  import opened Stats
  import opened Aqi
  import opened Aggregate

  // ------------------------------------------------------------ ranking sort

  /** The order `sort_values(by='avg_AQI')` puts two AQI cells in: smaller
      numbers first, NaN after every number. */
  predicate AqiLe(a: Option<int>, b: Option<int>)
  {
    match a
    case None => b.None?
    case Some(x) => b.None? || x <= b.value
  }

  predicate SortedByAqi(rs: seq<StationAqi>)
  {
    forall i, j :: 0 <= i < j < |rs| ==> AqiLe(rs[i].avgAqi, rs[j].avgAqi)
  }

  /** `aqi_station_ranking.sort_values(by='avg_AQI')`: the same rows,
      reordered so that the AQI column ascends with NaN last. The order of
      rows with equal AQI is not promised (the default sort is not stable). */
  method SortByAqi(ranking: seq<StationAqi>) returns (sorted: seq<StationAqi>)
    ensures multiset(sorted) == multiset(ranking)
    ensures SortedByAqi(sorted)
  {
    sorted := [];
    var n := 0;
    while n < |ranking|
      invariant 0 <= n <= |ranking|
      invariant multiset(sorted) == multiset(ranking[..n])
      invariant SortedByAqi(sorted)
    {
      var x := ranking[n];
      var k := 0;
      while k < |sorted| && AqiLe(sorted[k].avgAqi, x.avgAqi)
        invariant 0 <= k <= |sorted|
        invariant forall i :: 0 <= i < k ==> AqiLe(sorted[i].avgAqi, x.avgAqi)
      {
        k := k + 1;
      }
      AfterScan(sorted, k, x);
      InsertKeepsSorted(sorted, k, x);
      InsertAddsOne(sorted, k, x);
      sorted := sorted[..k] + [x] + sorted[k..];
      assert ranking[..n + 1] == ranking[..n] + [x];
      n := n + 1;
    }
    assert ranking[..n] == ranking;
  }

  /** The scan stops at the first row that must come after `x`; every
      later row must too. */
  lemma AfterScan(sorted: seq<StationAqi>, k: int, x: StationAqi)
    requires SortedByAqi(sorted)
    requires 0 <= k <= |sorted|
    requires k < |sorted| ==> !AqiLe(sorted[k].avgAqi, x.avgAqi)
    ensures forall j :: k <= j < |sorted| ==> AqiLe(x.avgAqi, sorted[j].avgAqi)
  {
    forall j | k <= j < |sorted| ensures AqiLe(x.avgAqi, sorted[j].avgAqi) {
      assert AqiLe(sorted[k].avgAqi, sorted[j].avgAqi) || j == k;
    }
  }

  lemma InsertKeepsSorted(sorted: seq<StationAqi>, k: int, x: StationAqi)
    requires SortedByAqi(sorted)
    requires 0 <= k <= |sorted|
    requires forall i :: 0 <= i < k ==> AqiLe(sorted[i].avgAqi, x.avgAqi)
    requires forall j :: k <= j < |sorted| ==> AqiLe(x.avgAqi, sorted[j].avgAqi)
    ensures SortedByAqi(sorted[..k] + [x] + sorted[k..])
  {
    var s := sorted[..k] + [x] + sorted[k..];
    assert forall i :: 0 <= i < k ==> s[i] == sorted[i];
    assert forall i :: k < i < |s| ==> s[i] == sorted[i - 1];
  }

  lemma InsertAddsOne(sorted: seq<StationAqi>, k: int, x: StationAqi)
    requires 0 <= k <= |sorted|
    ensures multiset(sorted[..k] + [x] + sorted[k..]) == multiset(sorted) + multiset{x}
  {
    assert sorted == sorted[..k] + sorted[k..];
  }

  /** After sorting, every number comes before every NaN and the numbers
      never decrease. */
  lemma SortedAqiColumn(rs: seq<StationAqi>, i: int, j: int)
    requires SortedByAqi(rs)
    requires 0 <= i < j < |rs|
    ensures rs[j].avgAqi.Some? ==> rs[i].avgAqi.Some? && rs[i].avgAqi.value <= rs[j].avgAqi.value
    ensures rs[i].avgAqi.None? ==> rs[j].avgAqi.None?
  {
    assert AqiLe(rs[i].avgAqi, rs[j].avgAqi);
  }

  /** A reordering has the original's length and only its rows. */
  lemma PermutationMembers(sorted: seq<StationAqi>, ranking: seq<StationAqi>)
    requires multiset(sorted) == multiset(ranking)
    ensures |sorted| == |ranking|
    ensures forall i :: 0 <= i < |sorted| ==> sorted[i] in ranking
  {
    assert |multiset(sorted)| == |multiset(ranking)|;
    forall i | 0 <= i < |sorted| ensures sorted[i] in ranking {
      assert sorted[i] in multiset(sorted);
    }
  }

  /** Station A averaging 30 and station B averaging 120: whatever order
      `create_aqi_ranking` lists them in, the sorted ranking is [A, B]. */
  lemma TwoStationsSortAscending(sorted: seq<StationAqi>)
    requires multiset(sorted) ==
               multiset{StationAqi("B", Some(120), Some(UnhealthyForSensitiveGroups)), StationAqi("A", Some(30), Some(Good))}
    requires SortedByAqi(sorted)
    ensures sorted == [StationAqi("A", Some(30), Some(Good)), StationAqi("B", Some(120), Some(UnhealthyForSensitiveGroups))]
  {
    assert |multiset(sorted)| == 2;
    assert sorted[0] in multiset(sorted) && sorted[1] in multiset(sorted);
    assert multiset(sorted) == multiset{sorted[0], sorted[1]} by {
      assert sorted == [sorted[0], sorted[1]];
    }
    assert AqiLe(sorted[0].avgAqi, sorted[1].avgAqi);
  }

  // ---------------------------------------------------------- colour column

  /** A ranking row with the `Color` column added. */
  datatype ColoredStation = ColoredStation(
    station: string,
    avgAqi: Option<int>,
    category: Option<Category>,
    color: Option<string>)

  /** `aqi_station_ranking['Color'] = aqi_station_ranking['AQI_category'].map(color_mapping)`:
      every row keeps its fields and gains the colour of its category. */
  method AddColorColumn(ranking: seq<StationAqi>) returns (colored: seq<ColoredStation>)
    ensures |colored| == |ranking|
    ensures forall i :: 0 <= i < |ranking| ==>
              && colored[i].station == ranking[i].station
              && colored[i].avgAqi == ranking[i].avgAqi
              && colored[i].category == ranking[i].category
              && colored[i].color == ColorOf(ranking[i].category)
  {
    colored := [];
    var i := 0;
    while i < |ranking|
      invariant 0 <= i <= |ranking|
      invariant |colored| == i
      invariant forall k :: 0 <= k < i ==>
                  && colored[k].station == ranking[k].station
                  && colored[k].avgAqi == ranking[k].avgAqi
                  && colored[k].category == ranking[k].category
                  && colored[k].color == ColorOf(ranking[k].category)
    {
      var r := ranking[i];
      colored := colored + [ColoredStation(r.station, r.avgAqi, r.category, ColorOf(r.category))];
      i := i + 1;
    }
  }

  /** A coloured row with its `Color` column dropped again. */
  function Uncolored(cs: seq<ColoredStation>): (rs: seq<StationAqi>)
    ensures |rs| == |cs|
    ensures forall i :: 0 <= i < |cs| ==> rs[i] == StationAqi(cs[i].station, cs[i].avgAqi, cs[i].category)
  {
    seq(|cs|, i requires 0 <= i < |cs| => StationAqi(cs[i].station, cs[i].avgAqi, cs[i].category))
  }

  /** For a row produced by `create_aqi_ranking`, the bar has a colour
      exactly when it has a value, and that colour is the legend colour of
      the band the value falls in. */
  lemma BarColorMatchesBand(r: StationAqi)
    requires r.category == CategoryOf(r.avgAqi)
    ensures ColorOf(r.category).Some? <==> r.avgAqi.Some?
    ensures r.avgAqi.Some? ==>
              && InBand(r.avgAqi.value as real, SeverityOrder[Rank(r.category.value)])
              && ColorOf(r.category).value == LegendColors[Rank(Classify(r.avgAqi.value as real))]
  {
  }

  // ------------------------------------------------------- headline figures

  /** A rounded column read back as floats. */
  function AsReals(xs: seq<Option<int>>): (ys: seq<Option<real>>)
    ensures |ys| == |xs|
    ensures forall i :: 0 <= i < |xs| ==> ys[i] == AsReal(xs[i])
  {
    seq(|xs|, i requires 0 <= i < |xs| => AsReal(xs[i]))
  }

  function AqiColumn(daily: seq<DailyAqi>): (xs: seq<Option<int>>)
    ensures |xs| == |daily| && forall i :: 0 <= i < |daily| ==> xs[i] == daily[i].avgAqi
  {
    seq(|daily|, i requires 0 <= i < |daily| => daily[i].avgAqi)
  }

  function LevelColumn(daily: seq<DailyPollutants>, p: Pollutant): (xs: seq<Option<int>>)
    ensures |xs| == |daily| && forall i :: 0 <= i < |daily| ==> xs[i] == daily[i].levels.Get(p)
  {
    seq(|daily|, i requires 0 <= i < |daily| => daily[i].levels.Get(p))
  }

  /** `round(column.mean())` over a whole-number column: `None` exactly when
      no cell has a value, otherwise the whole number nearest the mean of the
      cells that have one. */
  function Headline(xs: seq<Option<int>>): (r: Option<int>)
    ensures r.None? <==> forall i :: 0 <= i < |xs| ==> xs[i].None?
    ensures r.Some? ==> r.value as real - 0.5 <= Mean(AsReals(xs)).value <= r.value as real + 0.5
  {
    RoundedMean(AsReals(xs))
  }

  /** `round(aqi_daily['avg_AQI'].mean())`: `None` when no day has a value,
      where the script itself fails to round NaN. */
  function OverallAqi(daily: seq<DailyAqi>): (r: Option<int>)
    ensures r.None? <==> forall i :: 0 <= i < |daily| ==> daily[i].avgAqi.None?
  {
    Headline(AqiColumn(daily))
  }

  /** `get_AQI_category(avg_aqi)`: a category exactly when some day has a
      value, and then the band the headline AQI falls in. */
  function OverallCategory(daily: seq<DailyAqi>): (c: Option<Category>)
    ensures c.None? <==> forall i :: 0 <= i < |daily| ==> daily[i].avgAqi.None?
    ensures c.Some? ==> InBand(OverallAqi(daily).value as real, c.value)
  {
    CategoryOf(OverallAqi(daily))
  }

  /** `round(pollutants_daily[p].mean())` for each of the six pollutants:
      each figure is missing exactly when that pollutant has no daily value. */
  function PollutantAverages(daily: seq<DailyPollutants>): (r: Channels<Option<int>>)
    ensures forall p :: r.Get(p).None? <==> forall i :: 0 <= i < |daily| ==> daily[i].levels.Get(p).None?
  {
    ChannelsOf(p => Headline(LevelColumn(daily, p)))
  }

  /** The headline of a whole-number column lies between the least and the
      greatest value present in it. */
  lemma HeadlineWithin(xs: seq<Option<int>>, lo: int, hi: int)
    requires forall i :: 0 <= i < |xs| && xs[i].Some? ==> lo <= xs[i].value <= hi
    ensures Headline(xs).Some? ==> lo <= Headline(xs).value <= hi
  {
    var ys := AsReals(xs);
    MeanWithinBounds(ys, lo as real, hi as real);
    if Mean(ys).Some? {
      RoundWithin(Mean(ys).value, lo, hi);
    }
  }

  /** The headline AQI lies within the range of the daily AQIs shown, and
      its category is never milder than the mildest day's nor harsher than
      the harshest day's. */
  lemma OverallAqiWithinDailyRange(daily: seq<DailyAqi>, lo: int, hi: int)
    requires forall i :: 0 <= i < |daily| && daily[i].avgAqi.Some? ==> lo <= daily[i].avgAqi.value <= hi
    ensures OverallAqi(daily).None? <==> forall i :: 0 <= i < |daily| ==> daily[i].avgAqi.None?
    ensures OverallAqi(daily).Some? ==>
              && lo <= OverallAqi(daily).value <= hi
              && Rank(Classify(lo as real)) <= Rank(OverallCategory(daily).value) <= Rank(Classify(hi as real))
  {
    HeadlineWithin(AqiColumn(daily), lo, hi);
    var avg := OverallAqi(daily);
    if avg.Some? {
      ClassifyMonotone(lo as real, avg.value as real);
      ClassifyMonotone(avg.value as real, hi as real);
    }
  }

  /** Each headline pollutant figure lies within the range of that
      pollutant's daily values. */
  lemma PollutantAverageWithinDailyRange(daily: seq<DailyPollutants>, p: Pollutant, lo: int, hi: int)
    requires forall i :: 0 <= i < |daily| && daily[i].levels.Get(p).Some? ==> lo <= daily[i].levels.Get(p).value <= hi
    ensures PollutantAverages(daily).Get(p).Some? ==> lo <= PollutantAverages(daily).Get(p).value <= hi
  {
    HeadlineWithin(LevelColumn(daily, p), lo, hi);
  }

  /** Over a single day the headline figure is that day's own AQI. */
  lemma OverallAqiOfOneDay(day: DailyAqi)
    ensures OverallAqi([day]) == day.avgAqi
  {
    assert AsReals(AqiColumn([day])) == [AsReal(day.avgAqi)];
    MeanOfSingle(AsReal(day.avgAqi));
    if day.avgAqi.Some? {
      RoundOfInteger(day.avgAqi.value);
    }
  }

  /** A date range that holds no record's date leaves all three tables
      empty, the headline figures without a value and the bands without a
      span. */
  lemma EmptySelection(allRows: seq<Measurement>, startDate: int, endDate: int)
    requires forall m :: m in allRows ==> !(startDate <= m.date <= endDate)
    ensures var mainDf := InRange(allRows, startDate, endDate);
      && CreateAqiDaily(mainDf) == []
      && CreatePollutantsDaily(mainDf) == []
      && CreateAqiRanking(mainDf) == []
      && OverallAqi(CreateAqiDaily(mainDf)).None?
      && OverallCategory(CreateAqiDaily(mainDf)).None?
      && (forall p :: PollutantAverages(CreatePollutantsDaily(mainDf)).Get(p).None?)
      && BandSpan(CreateAqiDaily(mainDf)).None?
  {
    NoDateInRangeIsEmpty(allRows, startDate, endDate);
    assert Dates([]) == [] && Stations([]) == [];
  }

  // ------------------------------------------------------------- AQI bands

  /** The horizontal extent of the shaded rectangles: from the first to the
      last row's date (`iloc[0]`, `iloc[-1]`); `None` when there is no row,
      where the script's `iloc` fails. */
  function BandSpan(daily: seq<DailyAqi>): (span: Option<(int, int)>)
    ensures span.Some? <==> daily != []
  {
    if daily == [] then None else Some((daily[0].date, daily[|daily| - 1].date))
  }

  /** Because `create_aqi_daily` sorts by date, the rectangles span every
      date of the filtered records. */
  lemma BandsSpanEveryDate(rows: seq<Measurement>, k: int)
    requires 0 <= k < |rows|
    ensures var span := BandSpan(CreateAqiDaily(rows));
      span.Some? && span.value.0 <= rows[k].date <= span.value.1
  {
    var daily := CreateAqiDaily(rows);
    var ds := DailyDates(daily);
    assert rows[k].date in ds by { assert Dates(rows)[k] == rows[k].date; }
    AscendingSpan(ds, rows[k].date);
  }

  /** A value of an ascending list lies between its first and last. */
  lemma AscendingSpan(ds: seq<int>, x: int)
    requires forall i, j :: 0 <= i < j < |ds| ==> ds[i] < ds[j]
    requires x in ds
    ensures ds[0] <= x <= ds[|ds| - 1]
  {
    var i :| 0 <= i < |ds| && ds[i] == x;
    assert i == 0 || ds[0] < ds[i];
    assert i == |ds| - 1 || ds[i] < ds[|ds| - 1];
  }

  // ------------------------------------------------------ long-format table

  /** One row of `plot_data`. */
  datatype PlotRow = PlotRow(date: int, pollutant: Pollutant, concentration: Option<int>)

  /** The frame built from `{'date': ..., 'pollutant': p, 'concentration': ...}`:
      pollutant `p`'s daily series, in the table's row order. */
  function Frame(daily: seq<DailyPollutants>, p: Pollutant): (f: seq<PlotRow>)
    ensures |f| == |daily|
    ensures forall i :: 0 <= i < |daily| ==> f[i] == PlotRow(daily[i].date, p, daily[i].levels.Get(p))
  {
    seq(|daily|, i requires 0 <= i < |daily| => PlotRow(daily[i].date, p, daily[i].levels.Get(p)))
  }

  /** `pd.concat(frames, ignore_index=True)`: every row of every frame
      appears in the result. */
  function Concat(frames: seq<seq<PlotRow>>): (r: seq<PlotRow>)
    ensures forall j, i :: 0 <= j < |frames| && 0 <= i < |frames[j]| ==> frames[j][i] in r
  {
    if frames == [] then []
    else
      var rest := Concat(frames[1..]);
      assert forall j :: 1 <= j < |frames| ==> frames[j] == frames[1..][j - 1];
      frames[0] + rest
  }

  /** Each row of the concatenation comes from one of the frames. */
  lemma {:induction false} ConcatFromFrames(frames: seq<seq<PlotRow>>, x: PlotRow)
    requires x in Concat(frames)
    ensures exists j :: 0 <= j < |frames| && x in frames[j]
  {
    if x !in frames[0] {
      ConcatFromFrames(frames[1..], x);
      var j :| 0 <= j < |frames[1..]| && x in frames[1..][j];
      assert x in frames[j + 1];
    }
  }

  /** Frames of equal length `n` concatenate block by block: row `i` of
      frame `j` lands at `j * n + i`. */
  lemma {:induction false} ConcatBlocks(frames: seq<seq<PlotRow>>, n: nat, j: nat, i: nat)
    requires forall m :: 0 <= m < |frames| ==> |frames[m]| == n
    requires j < |frames| && i < n
    ensures |Concat(frames)| == |frames| * n
    ensures j * n + i < |Concat(frames)| && Concat(frames)[j * n + i] == frames[j][i]
  {
    ConcatLength(frames, n);
    if j == 0 {
      assert Concat(frames) == frames[0] + Concat(frames[1..]);
    } else {
      ConcatBlocks(frames[1..], n, j - 1, i);
      ShiftBlock(j, n, i);
    }
  }

  lemma ShiftBlock(j: nat, n: nat, i: nat)
    requires j > 0
    ensures (j - 1) * n + i + n == j * n + i
  {
  }

  lemma {:induction false} ConcatLength(frames: seq<seq<PlotRow>>, n: nat)
    requires forall m :: 0 <= m < |frames| ==> |frames[m]| == n
    ensures |Concat(frames)| == |frames| * n
  {
    if frames != [] {
      ConcatLength(frames[1..], n);
      assert Concat(frames) == frames[0] + Concat(frames[1..]);
      ShiftBlock(|frames|, n, 0);
    }
  }

  /** The loop that fills `plot_data_list` and the concatenation after it:
      six blocks, one per pollutant in list order, each holding that
      pollutant's daily series in date order with every value unchanged. */
  method LongFormat(daily: seq<DailyPollutants>) returns (plot: seq<PlotRow>)
    ensures |plot| == |Pollutants| * |daily|
    ensures forall k, i :: 0 <= k < |Pollutants| && 0 <= i < |daily| ==>
              k * |daily| + i < |plot| &&
              plot[k * |daily| + i] == PlotRow(daily[i].date, Pollutants[k], daily[i].levels.Get(Pollutants[k]))
  {
    var frames: seq<seq<PlotRow>> := [];
    var k := 0;
    while k < |Pollutants|
      invariant 0 <= k <= |Pollutants|
      invariant |frames| == k
      invariant forall m :: 0 <= m < k ==> frames[m] == Frame(daily, Pollutants[m])
    {
      frames := frames + [Frame(daily, Pollutants[k])];
      k := k + 1;
    }
    plot := Concat(frames);
    FramesLayout(frames, daily);
  }

  lemma FramesLayout(frames: seq<seq<PlotRow>>, daily: seq<DailyPollutants>)
    requires |frames| == |Pollutants|
    requires forall m :: 0 <= m < |frames| ==> frames[m] == Frame(daily, Pollutants[m])
    ensures |Concat(frames)| == |Pollutants| * |daily|
    ensures forall k, i :: 0 <= k < |Pollutants| && 0 <= i < |daily| ==>
              k * |daily| + i < |Concat(frames)| &&
              Concat(frames)[k * |daily| + i] == PlotRow(daily[i].date, Pollutants[k], daily[i].levels.Get(Pollutants[k]))
  {
    ConcatLength(frames, |daily|);
    forall k, i | 0 <= k < |Pollutants| && 0 <= i < |daily|
      ensures k * |daily| + i < |Concat(frames)|
      ensures Concat(frames)[k * |daily| + i] == PlotRow(daily[i].date, Pollutants[k], daily[i].levels.Get(Pollutants[k]))
    {
      FrameAt(frames, daily, k, i);
    }
  }

  lemma FrameAt(frames: seq<seq<PlotRow>>, daily: seq<DailyPollutants>, k: nat, i: nat)
    requires |frames| == |Pollutants|
    requires forall m :: 0 <= m < |frames| ==> frames[m] == Frame(daily, Pollutants[m])
    requires k < |Pollutants| && i < |daily|
    ensures k * |daily| + i < |Concat(frames)|
    ensures Concat(frames)[k * |daily| + i] == PlotRow(daily[i].date, Pollutants[k], daily[i].levels.Get(Pollutants[k]))
  {
    ConcatBlocks(frames, |daily|, k, i);
  }

  // ------------------------------------------------------------ the script

  /** Everything the page shows, before it is drawn. */
  datatype View = View(
    aqiDaily: seq<DailyAqi>,
    pollutantsDaily: seq<DailyPollutants>,
    ranking: seq<ColoredStation>,
    avgAqi: Option<int>,
    avgCategory: Option<Category>,
    pollutantAverages: Channels<Option<int>>,
    bandSpan: Option<(int, int)>,
    plotData: seq<PlotRow>)

  /** The script from the filter to the long-format table, for the dates
      the user picked. */
  method Dashboard(allRows: seq<Measurement>, startDate: int, endDate: int) returns (v: View)
    ensures v.aqiDaily == CreateAqiDaily(InRange(allRows, startDate, endDate))
    ensures v.pollutantsDaily == CreatePollutantsDaily(InRange(allRows, startDate, endDate))
    ensures multiset(Uncolored(v.ranking)) == multiset(CreateAqiRanking(InRange(allRows, startDate, endDate)))
    ensures forall i :: 0 <= i < |v.ranking| ==> v.ranking[i].color == ColorOf(v.ranking[i].category)
    ensures forall i, j :: 0 <= i < j < |v.ranking| ==> AqiLe(v.ranking[i].avgAqi, v.ranking[j].avgAqi)
    ensures v.avgAqi == OverallAqi(v.aqiDaily) && v.avgCategory == CategoryOf(v.avgAqi)
    ensures v.pollutantAverages == PollutantAverages(v.pollutantsDaily)
    ensures v.bandSpan == BandSpan(v.aqiDaily)
    ensures |v.plotData| == |Pollutants| * |v.pollutantsDaily|
  {
    var mainDf := InRange(allRows, startDate, endDate);
    var aqiDaily := CreateAqiDaily(mainDf);
    var pollutantsDaily := CreatePollutantsDaily(mainDf);
    var stationRanking := CreateAqiRanking(mainDf);
    var sorted := SortByAqi(stationRanking);
    var colored := AddColorColumn(sorted);
    assert Uncolored(colored) == sorted;
    var avgAqi := OverallAqi(aqiDaily);
    var plotData := LongFormat(pollutantsDaily);
    v := View(aqiDaily, pollutantsDaily, colored, avgAqi, CategoryOf(avgAqi),
              PollutantAverages(pollutantsDaily), BandSpan(aqiDaily), plotData);
  }
}
