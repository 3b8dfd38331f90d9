/** The dataset, the inclusive date-range filter and the three group-by
    reducers of the dashboard (`create_aqi_daily`,
    `create_pollutants_daily`, `create_aqi_ranking`). Dates are day
    numbers; a missing or NaN cell is `None`. */
module Aggregate {
  import opened Wrappers
  import opened Stats
  import opened Aqi
  import opened GroupKeys

  datatype Pollutant = PM2_5 | PM10 | SO2 | NO2 | CO | O3

  /** The `pollutants` list, in its column order. */
  const Pollutants: seq<Pollutant> := [PM2_5, PM10, SO2, NO2, CO, O3]

  /** One value per pollutant column. */
  datatype Channels<T> = Channels(pm2_5: T, pm10: T, so2: T, no2: T, co: T, o3: T)
  {
    function Get(p: Pollutant): T
    {
      match p
      case PM2_5 => pm2_5
      case PM10 => pm10
      case SO2 => so2
      case NO2 => no2
      case CO => co
      case O3 => o3
    }
  }

  /** The channels holding `f(p)` for each pollutant `p`. */
  function ChannelsOf<T>(f: Pollutant -> T): (c: Channels<T>)
    ensures forall p :: c.Get(p) == f(p)
  {
    Channels(f(PM2_5), f(PM10), f(SO2), f(NO2), f(CO), f(O3))
  }

  /** One row of the cleaned CSV. */
  datatype Measurement = Measurement(
    date: int,
    station: string,
    avgAqi: Option<real>,
    readings: Channels<Option<real>>)

  /** A row of `aqi_daily`. */
  datatype DailyAqi = DailyAqi(date: int, avgAqi: Option<int>, category: Option<Category>)

  /** A row of `pollutants_daily`. */
  datatype DailyPollutants = DailyPollutants(date: int, levels: Channels<Option<int>>)

  /** A row of `aqi_station_ranking` as `create_aqi_ranking` returns it. */
  datatype StationAqi = StationAqi(station: string, avgAqi: Option<int>, category: Option<Category>)

  /** The key of a group-by: a day or a station. */
  datatype GroupKey = OnDate(day: int) | AtStation(name: string)

  /** A numeric column of the dataset. */
  datatype Column = AvgAqi | Reading(pollutant: Pollutant)

  predicate InGroup(m: Measurement, g: GroupKey)
  {
    match g
    case OnDate(d) => m.date == d
    case AtStation(s) => m.station == s
  }

  function Cell(m: Measurement, c: Column): Option<real>
  {
    match c
    case AvgAqi => m.avgAqi
    case Reading(p) => m.readings.Get(p)
  }

  /** Column `c` of the rows of group `g`, in row order: what
      `groupby(...)[c]` hands to `mean()` for that group. */
  function Gather(rows: seq<Measurement>, g: GroupKey, c: Column): (xs: seq<Option<real>>)
    ensures |xs| <= |rows|
    ensures forall k :: 0 <= k < |rows| && InGroup(rows[k], g) ==> Cell(rows[k], c) in xs
  {
    if rows == [] then []
    else
      var rest := Gather(rows[1..], g, c);
      assert forall k :: 1 <= k < |rows| ==> rows[k] == rows[1..][k - 1];
      (if InGroup(rows[0], g) then [Cell(rows[0], c)] else []) + rest
  }

  /** Nothing outside the group enters its column: each value comes from a
      row of the group. */
  lemma {:induction false} GatherFromGroup(rows: seq<Measurement>, g: GroupKey, c: Column, i: int)
    requires 0 <= i < |Gather(rows, g, c)|
    ensures exists k :: 0 <= k < |rows| && InGroup(rows[k], g) && Cell(rows[k], c) == Gather(rows, g, c)[i]
  {
    var head := if InGroup(rows[0], g) then [Cell(rows[0], c)] else [];
    assert Gather(rows, g, c) == head + Gather(rows[1..], g, c);
    if i < |head| {
      assert InGroup(rows[0], g) && Cell(rows[0], c) == Gather(rows, g, c)[i];
    } else {
      var i' := i - |head|;
      GatherFromGroup(rows[1..], g, c, i');
      var k :| 0 <= k < |rows[1..]| && InGroup(rows[1..][k], g) && Cell(rows[1..][k], c) == Gather(rows[1..], g, c)[i'];
      assert Gather(rows, g, c)[i] == Gather(rows[1..], g, c)[i'];
      assert rows[k + 1] == rows[1..][k];
      assert InGroup(rows[k + 1], g) && Cell(rows[k + 1], c) == Gather(rows, g, c)[i];
    }
  }

  /** `get_AQI_category` applied to a rounded AQI cell. */
  function CategoryOf(avg: Option<int>): (c: Option<Category>)
    ensures c.Some? <==> avg.Some?
    ensures avg.Some? ==> InBand(avg.value as real, c.value)
  {
    ClassifyValue(AsReal(avg))
  }

  // ------------------------------------------------------------ date filter

  /** `all_df[(date >= start) & (date <= end)]`. */
  function InRange(rows: seq<Measurement>, start: int, end: int): (r: seq<Measurement>)
    ensures forall m :: m in r <==> m in rows && start <= m.date <= end
    ensures |r| <= |rows|
  {
    if rows == [] then []
    else
      assert forall m :: m in rows <==> m == rows[0] || m in rows[1..] by {
        assert rows == [rows[0]] + rows[1..];
      }
      (if start <= rows[0].date <= end then [rows[0]] else []) + InRange(rows[1..], start, end)
  }

  /** `a` can be obtained from `b` by deleting elements. */
  ghost predicate IsSubsequence<T>(a: seq<T>, b: seq<T>)
    decreases |b|
  {
    if a == [] then true
    else if b == [] then false
    else (a[0] == b[0] && IsSubsequence(a[1..], b[1..])) || IsSubsequence(a, b[1..])
  }

  /** `all_df["date"].min()` and `.max()`. */
  function MinDate(rows: seq<Measurement>): (d: int)
    requires rows != []
    ensures forall m :: m in rows ==> d <= m.date
    ensures exists m :: m in rows && m.date == d
  {
    if |rows| == 1 then rows[0].date
    else
      var rest := MinDate(rows[1..]);
      assert forall m :: m in rows <==> m == rows[0] || m in rows[1..] by {
        assert rows == [rows[0]] + rows[1..];
      }
      if rows[0].date <= rest then rows[0].date else rest
  }

  function MaxDate(rows: seq<Measurement>): (d: int)
    requires rows != []
    ensures forall m :: m in rows ==> m.date <= d
    ensures exists m :: m in rows && m.date == d
  {
    if |rows| == 1 then rows[0].date
    else
      var rest := MaxDate(rows[1..]);
      assert forall m :: m in rows <==> m == rows[0] || m in rows[1..] by {
        assert rows == [rows[0]] + rows[1..];
      }
      if rows[0].date >= rest then rows[0].date else rest
  }

  // ------------------------------------------------------------- reducers

  function Dates(rows: seq<Measurement>): (ds: seq<int>)
    ensures |ds| == |rows| && forall k :: 0 <= k < |rows| ==> ds[k] == rows[k].date
  {
    seq(|rows|, k requires 0 <= k < |rows| => rows[k].date)
  }

  function Stations(rows: seq<Measurement>): (ss: seq<string>)
    ensures |ss| == |rows| && forall k :: 0 <= k < |rows| ==> ss[k] == rows[k].station
  {
    seq(|rows|, k requires 0 <= k < |rows| => rows[k].station)
  }

  /** The group keys of `groupby('date')` come out in ascending order. */
  lemma DateKeysAscending(rows: seq<Measurement>, keys: seq<int>)
    requires keys == DistinctAscending(Dates(rows), DateLess)
    ensures forall i, j :: 0 <= i < j < |keys| ==> keys[i] < keys[j]
  {
    DateLessIsStrictTotalOrder();
    DistinctAscendingSorted(Dates(rows), DateLess);
  }

  /** The group keys of `groupby(by='station')` come out in ascending
      order of station name. */
  lemma StationKeysAscending(rows: seq<Measurement>, keys: seq<string>)
    requires keys == DistinctAscending(Stations(rows), StationLess)
    ensures forall i, j :: 0 <= i < j < |keys| ==> StationLess(keys[i], keys[j])
  {
    StationLessIsStrictTotalOrder();
    DistinctAscendingSorted(Stations(rows), StationLess);
  }

  function DailyDates(daily: seq<DailyAqi>): (ds: seq<int>)
    ensures |ds| == |daily| && forall i :: 0 <= i < |daily| ==> ds[i] == daily[i].date
  {
    seq(|daily|, i requires 0 <= i < |daily| => daily[i].date)
  }

  function PollutantDates(daily: seq<DailyPollutants>): (ds: seq<int>)
    ensures |ds| == |daily| && forall i :: 0 <= i < |daily| ==> ds[i] == daily[i].date
  {
    seq(|daily|, i requires 0 <= i < |daily| => daily[i].date)
  }

  function RankedStations(ranking: seq<StationAqi>): (ss: seq<string>)
    ensures |ss| == |ranking| && forall i :: 0 <= i < |ranking| ==> ss[i] == ranking[i].station
  {
    seq(|ranking|, i requires 0 <= i < |ranking| => ranking[i].station)
  }

  function DailyAqiRow(rows: seq<Measurement>, d: int): (r: DailyAqi)
    ensures r.date == d
  {
    var avg := RoundedMean(Gather(rows, OnDate(d), AvgAqi));
    DailyAqi(d, avg, CategoryOf(avg))
  }

  /** `create_aqi_daily`: one row per distinct date of `rows`, ascending by
      date, holding the rounded mean of that date's present AQI values and
      the category of that rounded value. */
  function CreateAqiDaily(rows: seq<Measurement>): (daily: seq<DailyAqi>)
    ensures forall i, j :: 0 <= i < j < |daily| ==> daily[i].date < daily[j].date
    ensures forall d :: d in DailyDates(daily) <==> d in Dates(rows)
    ensures forall i :: 0 <= i < |daily| ==>
              && daily[i].avgAqi == RoundedMean(Gather(rows, OnDate(daily[i].date), AvgAqi))
              && daily[i].category == CategoryOf(daily[i].avgAqi)
  {
    var keys := DistinctAscending(Dates(rows), DateLess);
    var daily := seq(|keys|, i requires 0 <= i < |keys| => DailyAqiRow(rows, keys[i]));
    assert DailyDates(daily) == keys;
    DateKeysAscending(rows, keys);
    assert forall i, j :: 0 <= i < j < |daily| ==> daily[i].date < daily[j].date by {
      forall i, j | 0 <= i < j < |daily| ensures daily[i].date < daily[j].date {
        assert daily[i].date == keys[i] && daily[j].date == keys[j];
      }
    }
    assert forall i :: 0 <= i < |daily| ==> daily[i] == DailyAqiRow(rows, daily[i].date) by {
      forall i | 0 <= i < |daily| ensures daily[i] == DailyAqiRow(rows, daily[i].date) {
        assert daily[i] == DailyAqiRow(rows, keys[i]);
      }
    }
    daily
  }

  function DailyLevel(rows: seq<Measurement>, d: int, p: Pollutant): Option<int>
  {
    RoundedMean(Gather(rows, OnDate(d), Reading(p)))
  }

  function DailyPollutantsRow(rows: seq<Measurement>, d: int): (r: DailyPollutants)
    ensures r.date == d
    ensures forall p :: r.levels.Get(p) == DailyLevel(rows, d, p)
  {
    DailyPollutants(d, ChannelsOf(p => DailyLevel(rows, d, p)))
  }

  /** `create_pollutants_daily`: one row per distinct date of `rows`,
      ascending by date; each pollutant column holds the rounded mean of
      that column's own present values on that date. */
  function CreatePollutantsDaily(rows: seq<Measurement>): (daily: seq<DailyPollutants>)
    ensures forall i, j :: 0 <= i < j < |daily| ==> daily[i].date < daily[j].date
    ensures forall d :: d in PollutantDates(daily) <==> d in Dates(rows)
    ensures forall i, p :: 0 <= i < |daily| ==> daily[i].levels.Get(p) == DailyLevel(rows, daily[i].date, p)
  {
    var keys := DistinctAscending(Dates(rows), DateLess);
    var daily := seq(|keys|, i requires 0 <= i < |keys| => DailyPollutantsRow(rows, keys[i]));
    PollutantRowsAtKeys(rows, keys, daily);
    daily
  }

  lemma PollutantRowsAtKeys(rows: seq<Measurement>, keys: seq<int>, daily: seq<DailyPollutants>)
    requires keys == DistinctAscending(Dates(rows), DateLess)
    requires |daily| == |keys|
    requires forall i :: 0 <= i < |keys| ==> daily[i] == DailyPollutantsRow(rows, keys[i])
    ensures forall i, j :: 0 <= i < j < |daily| ==> daily[i].date < daily[j].date
    ensures forall d :: d in PollutantDates(daily) <==> d in Dates(rows)
    ensures forall i, p :: 0 <= i < |daily| ==> daily[i].levels.Get(p) == DailyLevel(rows, daily[i].date, p)
  {
    assert PollutantDates(daily) == keys;
    DateKeysAscending(rows, keys);
    assert forall i, j :: 0 <= i < j < |daily| ==> daily[i].date < daily[j].date by {
      forall i, j | 0 <= i < j < |daily| ensures daily[i].date < daily[j].date {
        assert daily[i].date == keys[i] && daily[j].date == keys[j];
      }
    }
    assert forall i :: 0 <= i < |daily| ==> daily[i] == DailyPollutantsRow(rows, daily[i].date) by {
      forall i | 0 <= i < |daily| ensures daily[i] == DailyPollutantsRow(rows, daily[i].date) {
        assert daily[i] == DailyPollutantsRow(rows, keys[i]);
      }
    }
  }

  function StationRow(rows: seq<Measurement>, s: string): (r: StationAqi)
    ensures r.station == s
  {
    var avg := RoundedMean(Gather(rows, AtStation(s), AvgAqi));
    StationAqi(s, avg, CategoryOf(avg))
  }

  /** `create_aqi_ranking`: one row per distinct station of `rows`, in
      ascending order of station name, holding the rounded mean of the
      station's present AQI values and its category. */
  function CreateAqiRanking(rows: seq<Measurement>): (ranking: seq<StationAqi>)
    ensures forall i, j :: 0 <= i < j < |ranking| ==> StationLess(ranking[i].station, ranking[j].station)
    ensures forall s :: s in RankedStations(ranking) <==> s in Stations(rows)
    ensures forall i :: 0 <= i < |ranking| ==>
              && ranking[i].avgAqi == RoundedMean(Gather(rows, AtStation(ranking[i].station), AvgAqi))
              && ranking[i].category == CategoryOf(ranking[i].avgAqi)
  {
    var keys := DistinctAscending(Stations(rows), StationLess);
    var ranking := seq(|keys|, i requires 0 <= i < |keys| => StationRow(rows, keys[i]));
    assert RankedStations(ranking) == keys;
    StationKeysAscending(rows, keys);
    assert forall i, j :: 0 <= i < j < |ranking| ==> StationLess(ranking[i].station, ranking[j].station) by {
      forall i, j | 0 <= i < j < |ranking| ensures StationLess(ranking[i].station, ranking[j].station) {
        assert ranking[i].station == keys[i] && ranking[j].station == keys[j];
      }
    }
    assert forall i :: 0 <= i < |ranking| ==> ranking[i] == StationRow(rows, ranking[i].station) by {
      forall i | 0 <= i < |ranking| ensures ranking[i] == StationRow(rows, ranking[i].station) {
        assert ranking[i] == StationRow(rows, keys[i]);
      }
    }
    ranking
  }

  // ---------------------------------------------------------------- lemmas

  /** The filter keeps the surviving records in their original order. */
  lemma {:induction false} InRangeIsSubsequence(rows: seq<Measurement>, start: int, end: int)
    ensures IsSubsequence(InRange(rows, start, end), rows)
  {
    if rows != [] {
      InRangeIsSubsequence(rows[1..], start, end);
      var r := InRange(rows, start, end);
      if start <= rows[0].date <= end {
        assert r[0] == rows[0] && r[1..] == InRange(rows[1..], start, end);
      } else {
        assert r == InRange(rows[1..], start, end);
      }
    }
  }

  /** A boolean mask keeps duplicates: a record in range occurs as often in
      the result as in the input, one out of range not at all. */
  lemma {:induction false} InRangeCounts(rows: seq<Measurement>, start: int, end: int, m: Measurement)
    ensures multiset(InRange(rows, start, end))[m] ==
              if start <= m.date <= end then multiset(rows)[m] else 0
  {
    if rows != [] {
      InRangeCounts(rows[1..], start, end, m);
      var rest := InRange(rows[1..], start, end);
      assert multiset(rows) == multiset{rows[0]} + multiset(rows[1..]) by {
        assert rows == [rows[0]] + rows[1..];
      }
      if start <= rows[0].date <= end {
        assert InRange(rows, start, end) == [rows[0]] + rest;
        assert multiset(InRange(rows, start, end)) == multiset{rows[0]} + multiset(rest);
      } else {
        assert InRange(rows, start, end) == rest;
      }
    }
  }

  /** A range that covers every record's date keeps all of them. */
  lemma {:induction false} InRangeAllInside(rows: seq<Measurement>, start: int, end: int)
    requires forall m :: m in rows ==> start <= m.date <= end
    ensures InRange(rows, start, end) == rows
  {
    if rows != [] {
      assert rows[0] in rows;
      assert forall m :: m in rows[1..] ==> m in rows;
      InRangeAllInside(rows[1..], start, end);
      assert rows == [rows[0]] + rows[1..];
    }
  }

  /** The date picker's initial range, `[min_date, max_date]`, keeps the
      whole dataset. */
  lemma FullRangeKeepsEverything(rows: seq<Measurement>)
    requires rows != []
    ensures InRange(rows, MinDate(rows), MaxDate(rows)) == rows
  {
    InRangeAllInside(rows, MinDate(rows), MaxDate(rows));
  }

  /** A start after the end keeps nothing. */
  lemma ReversedRangeIsEmpty(rows: seq<Measurement>, start: int, end: int)
    requires end < start
    ensures InRange(rows, start, end) == []
  {
  }

  /** A range that holds no record's date selects nothing. */
  lemma {:induction false} NoDateInRangeIsEmpty(rows: seq<Measurement>, start: int, end: int)
    requires forall m :: m in rows ==> !(start <= m.date <= end)
    ensures InRange(rows, start, end) == []
  {
    if rows != [] {
      assert rows[0] in rows;
      assert forall m :: m in rows[1..] ==> m in rows;
      NoDateInRangeIsEmpty(rows[1..], start, end);
    }
  }

  /** A date group is unaffected by the filter when its date is in range:
      the filtered data yields the same per-date values as the full data. */
  lemma {:induction false} GatherInRange(rows: seq<Measurement>, start: int, end: int, d: int, c: Column)
    requires start <= d <= end
    ensures Gather(InRange(rows, start, end), OnDate(d), c) == Gather(rows, OnDate(d), c)
  {
    if rows != [] {
      GatherInRange(rows[1..], start, end, d, c);
      var r := InRange(rows, start, end);
      if start <= rows[0].date <= end {
        assert r[0] == rows[0] && r[1..] == InRange(rows[1..], start, end);
      } else {
        assert r == InRange(rows[1..], start, end);
      }
    }
  }

  lemma DailyAqiOfFilteredDate(rows: seq<Measurement>, start: int, end: int, d: int)
    requires start <= d <= end
    ensures DailyAqiRow(InRange(rows, start, end), d) == DailyAqiRow(rows, d)
  {
    GatherInRange(rows, start, end, d, AvgAqi);
  }

  /** Gathering one column only looks at that column and at the group key. */
  lemma {:induction false} GatherReadsOnlyItsColumn(rows: seq<Measurement>, rows': seq<Measurement>, d: int, c: Column)
    requires |rows| == |rows'|
    requires forall k :: 0 <= k < |rows| ==> rows[k].date == rows'[k].date && Cell(rows[k], c) == Cell(rows'[k], c)
    ensures Gather(rows, OnDate(d), c) == Gather(rows', OnDate(d), c)
  {
    if rows != [] {
      GatherReadsOnlyItsColumn(rows[1..], rows'[1..], d, c);
    }
  }

  /** The six pollutant means are computed independently: changing (or
      blanking) other columns of the records leaves a pollutant's daily
      level unchanged. */
  lemma PollutantChannelsIndependent(rows: seq<Measurement>, rows': seq<Measurement>, d: int, p: Pollutant)
    requires |rows| == |rows'|
    requires forall k :: 0 <= k < |rows| ==>
               rows[k].date == rows'[k].date && rows[k].readings.Get(p) == rows'[k].readings.Get(p)
    ensures DailyLevel(rows, d, p) == DailyLevel(rows', d, p)
  {
    GatherReadsOnlyItsColumn(rows, rows', d, Reading(p));
  }

  /** Gathering distributes over concatenation of the records; with
      `GatherOfRow` this fixes the group's column exactly: every row of the
      group contributes its cell once, in row order, repeats included. */
  lemma {:induction false} GatherAppend(a: seq<Measurement>, b: seq<Measurement>, g: GroupKey, c: Column)
    ensures Gather(a + b, g, c) == Gather(a, g, c) + Gather(b, g, c)
  {
    if a != [] {
      assert (a + b)[0] == a[0] && (a + b)[1..] == a[1..] + b;
      GatherAppend(a[1..], b, g, c);
      var head := if InGroup(a[0], g) then [Cell(a[0], c)] else [];
      assert Gather(a + b, g, c) == head + Gather(a[1..] + b, g, c);
      assert Gather(a, g, c) == head + Gather(a[1..], g, c);
    } else {
      assert a + b == b;
    }
  }

  /** A single record contributes its cell if it is in the group, and
      nothing otherwise. */
  lemma GatherOfRow(m: Measurement, g: GroupKey, c: Column)
    ensures Gather([m], g, c) == if InGroup(m, g) then [Cell(m, c)] else []
  {
  }

  /** A group's column, with the records of other groups removed. */
  lemma {:induction false} GatherSingleRecord(rows: seq<Measurement>, k: nat, d: int, c: Column)
    requires k < |rows| && rows[k].date == d
    requires forall j :: 0 <= j < |rows| && j != k ==> rows[j].date != d
    ensures Gather(rows, OnDate(d), c) == [Cell(rows[k], c)]
  {
    if k == 0 {
      GatherNone(rows[1..], d, c);
    } else {
      GatherSingleRecord(rows[1..], k - 1, d, c);
    }
  }

  lemma {:induction false} GatherNone(rows: seq<Measurement>, d: int, c: Column)
    requires forall j :: 0 <= j < |rows| ==> rows[j].date != d
    ensures Gather(rows, OnDate(d), c) == []
  {
    if rows != [] {
      GatherNone(rows[1..], d, c);
    }
  }

  /** A date with a single record gets that record's own readings, each
      rounded. */
  lemma SingleRecordDay(rows: seq<Measurement>, k: nat, p: Pollutant)
    requires k < |rows|
    requires forall j :: 0 <= j < |rows| && j != k ==> rows[j].date != rows[k].date
    ensures DailyLevel(rows, rows[k].date, p) == RoundOpt(rows[k].readings.Get(p))
    ensures DailyAqiRow(rows, rows[k].date).avgAqi == RoundOpt(rows[k].avgAqi)
  {
    GatherSingleRecord(rows, k, rows[k].date, Reading(p));
    GatherSingleRecord(rows, k, rows[k].date, AvgAqi);
    MeanOfSingle(rows[k].readings.Get(p));
    MeanOfSingle(rows[k].avgAqi);
  }

  lemma {:induction false} GatherWithin(rows: seq<Measurement>, g: GroupKey, c: Column, lo: real, hi: real)
    requires forall k :: 0 <= k < |rows| && Cell(rows[k], c).Some? ==> lo <= Cell(rows[k], c).value <= hi
    ensures forall i :: 0 <= i < |Gather(rows, g, c)| && Gather(rows, g, c)[i].Some? ==>
              lo <= Gather(rows, g, c)[i].value <= hi
  {
    if rows != [] {
      GatherWithin(rows[1..], g, c, lo, hi);
    }
  }

  /** When every recorded AQI lies between two whole numbers, so does every
      daily average, and every station average. */
  lemma AveragesWithinReadings(rows: seq<Measurement>, g: GroupKey, lo: int, hi: int)
    requires forall k :: 0 <= k < |rows| && rows[k].avgAqi.Some? ==> lo as real <= rows[k].avgAqi.value <= hi as real
    ensures var avg := RoundedMean(Gather(rows, g, AvgAqi));
      avg.Some? ==> lo <= avg.value <= hi
  {
    var xs := Gather(rows, g, AvgAqi);
    GatherWithin(rows, g, AvgAqi, lo as real, hi as real);
    MeanWithinBounds(xs, lo as real, hi as real);
    if Mean(xs).Some? {
      RoundWithin(Mean(xs).value, lo, hi);
    }
  }

  /** Records that all share one date make a single daily row. */
  lemma OneDateOneRow(rows: seq<Measurement>, d: int)
    requires rows != []
    requires forall k :: 0 <= k < |rows| ==> rows[k].date == d
    ensures |CreateAqiDaily(rows)| == 1 && CreateAqiDaily(rows)[0].date == d
  {
    var daily := CreateAqiDaily(rows);
    var ds := DailyDates(daily);
    assert forall x :: x in ds ==> x == d by {
      forall x | x in ds ensures x == d {
        assert x in Dates(rows);
      }
    }
    assert d in ds by { assert Dates(rows)[0] == d; }
    assert NoDuplicates(ds);
    DistinctLength(ds, [d]);
  }

  lemma MeanOfWorkedDay()
    ensures Mean([Some(40.0), Some(60.0), Some(80.0), None]) == Some(60.0)
  {
    PresentOfWorkedDay();
    assert Sum([40.0, 60.0, 80.0]) == 180.0;
  }

  lemma PresentOfWorkedDay()
    ensures Present([Some(40.0), Some(60.0), Some(80.0), None]) == [40.0, 60.0, 80.0]
  {
    var xs: seq<Option<real>> := [Some(40.0), Some(60.0), Some(80.0), None];
    assert xs[1..][1..][1..][1..] == [];
    assert Present(xs[1..][1..][1..]) == [];
    assert Present(xs[1..][1..]) == [80.0];
    assert Present(xs[1..]) == [60.0, 80.0];
  }

  /** Four stations on day `d`: three report 40, 60 and 80, the fourth
      reports nothing. */
  function WorkedDay(d: int, r: Channels<Option<real>>): seq<Measurement>
  {
    [ Measurement(d, "Aotizhongxin", Some(40.0), r),
      Measurement(d, "Changping", Some(60.0), r),
      Measurement(d, "Dingling", Some(80.0), r),
      Measurement(d, "Dongsi", None, r) ]
  }

  lemma WorkedDayGather(d: int, r: Channels<Option<real>>)
    ensures Gather(WorkedDay(d, r), OnDate(d), AvgAqi) == [Some(40.0), Some(60.0), Some(80.0), None]
  {
    var rows := WorkedDay(d, r);
    assert rows[1..][1..][1..][1..] == [];
    assert Gather(rows[1..][1..][1..], OnDate(d), AvgAqi) == [None];
    assert Gather(rows[1..][1..], OnDate(d), AvgAqi) == [Some(80.0), None];
    assert Gather(rows[1..], OnDate(d), AvgAqi) == [Some(60.0), Some(80.0), None];
  }

  /** The worked day gives a single row: AQI 60, "Moderate" (the missing
      reading does not count). */
  lemma WorkedDayAqi(d: int, r: Channels<Option<real>>)
    ensures CreateAqiDaily(WorkedDay(d, r)) == [DailyAqi(d, Some(60), Some(Moderate))]
  {
    WorkedDayGather(d, r);
    MeanOfWorkedDay();
    RoundOfInteger(60);
    OneDateOneRow(WorkedDay(d, r), d);
  }
}
