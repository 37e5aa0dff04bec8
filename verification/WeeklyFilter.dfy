/**
 * The weekly trend filter: a series precomputed from the full history, and a per-week memo
 * (portfolio/technical_only.py:502-531).
 */
module WeeklyFiltering {
  import opened Prelude
  import opened OrderedDict
  import opened Models
  import opened Strategies

  /** The week an instant falls in; the source uses the local ISO week. */
  type Calendar = int -> int

  ghost predicate Monotone(weekOf: Calendar) { forall a: int, b: int :: a <= b ==> weekOf(a) <= weekOf(b) }

  datatype WeekClose = WeekClose(week: int, close: real)

  datatype WeeklyRule = WeeklyRule(smaPeriod: int, slopeLookback: int)

  type WeeklyConfig = r: WeeklyRule | r.smaPeriod >= 2 && r.slopeLookback >= 1 witness WeeklyRule(30, 4)

  predicate InTime(bars: seq<Bar>) {
    forall i, j :: 0 <= i < j < |bars| ==> bars[i].time.instant < bars[j].time.instant
  }

  // ----- The series

  /** The dict of weekly closes: a later bar of a week replaces the week's close. */
  function WeeklyDict(weekOf: Calendar, bars: seq<Bar>): (d: Dict<int, real>)
    ensures d.Valid()
  {
    if |bars| == 0 then Empty()
    else
      var last := bars[|bars| - 1];
      WeeklyDict(weekOf, bars[..|bars| - 1]).Put(weekOf(last.time.instant), last.close)
  }

  function Items(d: Dict<int, real>): (r: seq<WeekClose>)
    requires forall i :: 0 <= i < |d.keys| ==> d.keys[i] in d.data
    ensures |r| == |d.keys|
  {
    seq(|d.keys|, i requires 0 <= i < |d.keys| => WeekClose(d.keys[i], d.data[d.keys[i]]))
  }

  function InsertByWeek(sorted: seq<WeekClose>, x: WeekClose): seq<WeekClose> {
    if |sorted| == 0 || sorted[|sorted| - 1].week <= x.week then sorted + [x]
    else InsertByWeek(sorted[..|sorted| - 1], x) + [sorted[|sorted| - 1]]
  }

  /** The items in the order of their weeks. */
  function SortByWeek(items: seq<WeekClose>): seq<WeekClose> {
    if |items| == 0 then [] else InsertByWeek(SortByWeek(items[..|items| - 1]), items[|items| - 1])
  }

  function WeeklySeries(weekOf: Calendar, bars: seq<Bar>): seq<WeekClose> {
    SortByWeek(Items(WeeklyDict(weekOf, bars)))
  }

  predicate Ascending(series: seq<WeekClose>) {
    forall i, j :: 0 <= i < j < |series| ==> series[i].week < series[j].week
  }

  lemma {:induction false} SortKeepsAscending(items: seq<WeekClose>)
    requires Ascending(items)
    ensures SortByWeek(items) == items
  {
    if |items| > 0 {
      SortKeepsAscending(items[..|items| - 1]);
      assert items[..|items| - 1] + [items[|items| - 1]] == items;
    }
  }

  /** Putting a week that is not before the last one replaces the last close or appends a new one. */
  function Follow(items: seq<WeekClose>, x: WeekClose): seq<WeekClose>
    requires |items| > 0
  {
    if LastOf(items).week == x.week then items[..|items| - 1] + [x] else items + [x]
  }

  lemma FollowAscends(items: seq<WeekClose>, x: WeekClose)
    requires |items| > 0 && Ascending(items) && LastOf(items).week <= x.week
    ensures Ascending(Follow(items, x)) && LastOf(Follow(items, x)).week == x.week
  {}

  lemma PutFollows(d: Dict<int, real>, week: int, close: real)
    requires d.Valid() && |d.keys| > 0 && Ascending(Items(d)) && LastOf(Items(d)).week <= week
    ensures Items(d.Put(week, close)) == Follow(Items(d), WeekClose(week, close))
  {
    assert forall i :: 0 <= i < |d.keys| ==> d.keys[i] == Items(d)[i].week;
    if LastOf(d.keys) < week {
      assert week !in d.keys;
    } else {
      assert week in d.keys;
    }
  }

  lemma FirstWeek(week: int, close: real)
    ensures Items(Empty().Put(week, close)) == [WeekClose(week, close)]
  {}

  /** In time order, the dict's weeks come out ascending, the last one being the last bar's. */
  lemma {:induction false} WeeksAscend(weekOf: Calendar, bars: seq<Bar>)
    requires Monotone(weekOf) && InTime(bars)
    ensures var items := Items(WeeklyDict(weekOf, bars));
            && Ascending(items)
            && (|bars| > 0 ==> |items| > 0 && LastOf(items).week == weekOf(LastOf(bars).time.instant))
  {
    if |bars| > 0 {
      var init, last := bars[..|bars| - 1], bars[|bars| - 1];
      WeeksAscend(weekOf, init);
      hide Items, Ascending, Follow;
      var week := weekOf(last.time.instant);
      if |init| > 0 {
        assert LastOf(init).time.instant < last.time.instant;
        PutFollows(WeeklyDict(weekOf, init), week, last.close);
        FollowAscends(Items(WeeklyDict(weekOf, init)), WeekClose(week, last.close));
      } else {
        FirstWeek(week, last.close);
        OneWeekAscends(WeekClose(week, last.close));
      }
    }
  }

  /** The bar at an index is the last one of its week. */
  predicate LastOfWeek(weekOf: Calendar, bars: seq<Bar>, i: int, week: int) {
    && 0 <= i < |bars| && weekOf(bars[i].time.instant) == week
    && forall j | i < j < |bars| :: weekOf(bars[j].time.instant) != week
  }

  /** A week has an entry exactly when some bar falls in it, and it is the close of the last such bar. */
  lemma {:induction false} WeekClosesAreLast(weekOf: Calendar, bars: seq<Bar>, week: int)
    ensures var d := WeeklyDict(weekOf, bars);
            && (week in d.data <==> exists i | 0 <= i < |bars| :: weekOf(bars[i].time.instant) == week)
            && (week in d.data ==> exists i :: LastOfWeek(weekOf, bars, i, week) && d.data[week] == bars[i].close)
  {
    if |bars| > 0 {
      var init, last := bars[..|bars| - 1], bars[|bars| - 1];
      WeekClosesAreLast(weekOf, init, week);
      if weekOf(last.time.instant) == week {
        assert LastOfWeek(weekOf, bars, |bars| - 1, week);
      } else if week in WeeklyDict(weekOf, init).data {
        var i :| LastOfWeek(weekOf, init, i, week) && WeeklyDict(weekOf, init).data[week] == init[i].close;
        assert LastOfWeek(weekOf, bars, i, week);
      }
    }
  }

  lemma OneWeekAscends(x: WeekClose)
    ensures Ascending([x])
  {}

  // ----- The answer

  /** The closes of the weeks before a week. */
  function Before(series: seq<WeekClose>, week: int): seq<real> {
    if |series| == 0 then []
    else
      var init, last := Before(series[..|series| - 1], week), series[|series| - 1];
      if last.week < week then init + [last.close] else init
  }

  /** Of an ascending series, the weeks before a week are its first ones, each with its own close. */
  lemma {:induction false} BeforeIsPrefix(series: seq<WeekClose>, week: int)
    requires Ascending(series)
    ensures var closes := Before(series, week);
            && |closes| <= |series|
            && (forall i | 0 <= i < |closes| :: closes[i] == series[i].close && series[i].week < week)
            && (forall i | |closes| <= i < |series| :: series[i].week >= week)
  {
    if |series| > 0 {
      BeforeIsPrefix(series[..|series| - 1], week);
    }
  }

  /** A close above its average, and an average above the one of the lookback before it; None without enough weeks. */
  function Confirmation(c: WeeklyConfig, closes: seq<real>): Option<bool> {
    var n := |closes|;
    if n < c.smaPeriod + c.slopeLookback then None
    else
      var current := Sum(LastN(closes, c.smaPeriod)) / c.smaPeriod as real;
      var prior := Sum(closes[n - c.smaPeriod - c.slopeLookback..n - c.smaPeriod]) / c.smaPeriod as real;
      Some(closes[n - 1] > current && current > prior)
  }

  /** The answer recomputed from the visible bars alone. */
  function WeeklyAnswer(c: WeeklyConfig, weekOf: Calendar, visible: seq<Bar>): Option<bool>
    requires |visible| > 0
  {
    Confirmation(c, Before(WeeklySeries(weekOf, visible), weekOf(LastOf(visible).time.instant)))
  }

  function SumOfSlice(closes: seq<real>, from: nat, to: nat): real
    requires from <= to <= |closes|
  {
    Sum(seq(to - from, i requires 0 <= i < to - from => closes[from + i]))
  }

  lemma ComparedSums(a: real, b: real, n: real)
    requires n > 0.0
    ensures a / n > b / n <==> a > b
  {
    var x, y := a / n, b / n;
    assert x * n == a && y * n == b;
    if x > y {
      assert (x - y) * n > 0.0;
    } else {
      assert (y - x) * n >= 0.0;
    }
  }

  lemma SliceSums(closes: seq<real>, from: nat, to: nat)
    requires from <= to <= |closes|
    ensures SumOfSlice(closes, from, to) == Sum(closes[from..to])
  {
    hide Sum;
    assert closes[from..to] == seq(to - from, i requires 0 <= i < to - from => closes[from + i]);
  }

  lemma ConfirmationSums(c: WeeklyConfig, closes: seq<real>)
    ensures var n, period := |closes|, c.smaPeriod;
            Confirmation(c, closes) ==
              if n < period + c.slopeLookback then None
              else var last, prior := SumOfSlice(closes, n - period, n),
                                      SumOfSlice(closes, n - period - c.slopeLookback, n - period);
                   Some(LastOf(closes) > last / period as real && last / period as real > prior / period as real)
  {
    var n := |closes|;
    if n >= c.smaPeriod + c.slopeLookback {
      SliceSums(closes, n - c.smaPeriod, n);
      SliceSums(closes, n - c.smaPeriod - c.slopeLookback, n - c.smaPeriod);
      assert closes[n - c.smaPeriod..n] == LastN(closes, c.smaPeriod);
    }
    hide Sum, SumOfSlice, LastN;
  }

  /**
   * What a confirmation says of the closes of the weeks before: there are enough of them, the last is above the mean
   * of the last period, and that period's closes add up to more than those of the lookback just before it.
   */
  lemma ConfirmationMeans(c: WeeklyConfig, closes: seq<real>)
    ensures Confirmation(c, closes).Some? <==> |closes| >= c.smaPeriod + c.slopeLookback
    ensures Confirmation(c, closes) == Some(true) <==>
              && |closes| >= c.smaPeriod + c.slopeLookback
              && var n := |closes|;
                 && LastOf(closes) * c.smaPeriod as real > SumOfSlice(closes, n - c.smaPeriod, n)
                 && SumOfSlice(closes, n - c.smaPeriod, n)
                    > SumOfSlice(closes, n - c.smaPeriod - c.slopeLookback, n - c.smaPeriod)
  {
    hide Sum, SumOfSlice, LastN, Confirmation;
    ConfirmationSums(c, closes);
    var n := |closes|;
    if n >= c.smaPeriod + c.slopeLookback {
      var last, prior := SumOfSlice(closes, n - c.smaPeriod, n),
                         SumOfSlice(closes, n - c.smaPeriod - c.slopeLookback, n - c.smaPeriod);
      ComparedSums(last, prior, c.smaPeriod as real);
      QuotientBound(last, c.smaPeriod as real, LastOf(closes));
    }
  }

  /**
   * The slope test compares a sum of the whole period with a sum of the lookback only, so an average that falls from
   * one week to the next passes it: 20, 10, 12 with a period of two and a lookback of one.
   */
  lemma FallingAverageIsConfirmed()
    ensures Confirmation(WeeklyRule(2, 1), [20.0, 10.0, 12.0]) == Some(true)
    ensures SumOfSlice([20.0, 10.0, 12.0], 1, 3) < SumOfSlice([20.0, 10.0, 12.0], 0, 2)
  {
    var closes := [20.0, 10.0, 12.0];
    SliceSums(closes, 0, 1);
    SliceSums(closes, 0, 2);
    SliceSums(closes, 1, 3);
    SumOfTwo(10.0, 12.0);
    SumOfTwo(20.0, 10.0);
    SumOfOne(20.0);
    assert closes[0..1] == [20.0] && closes[0..2] == [20.0, 10.0] && closes[1..3] == [10.0, 12.0];
    hide Sum, SumOfSlice;
    ConfirmationMeans(WeeklyRule(2, 1), closes);
  }

  lemma SumOfOne(a: real)
    ensures Sum([a]) == a
  {
    assert [a][..0] == [];
  }

  lemma SumOfTwo(a: real, b: real)
    ensures Sum([a, b]) == a + b
  {
    SumOfOne(a);
    SumSnoc([a], b);
    assert [a] + [b] == [a, b];
  }

  lemma LaterWeekIsInvisible(series: seq<WeekClose>, x: WeekClose, week: int)
    requires |series| > 0 && x.week >= week
    ensures Before(Follow(series, x), week) == Before(series, week)
  {
    var init := series[..|series| - 1];
    assert (series + [x])[..|series|] == series;
    assert (init + [x])[..|init|] == init;
  }

  lemma SeriesIsDict(weekOf: Calendar, bars: seq<Bar>)
    requires Monotone(weekOf) && InTime(bars)
    ensures WeeklySeries(weekOf, bars) == Items(WeeklyDict(weekOf, bars))
  {
    WeeksAscend(weekOf, bars);
    SortKeepsAscending(Items(WeeklyDict(weekOf, bars)));
  }

  lemma InTimeSplits(init: seq<Bar>, last: Bar)
    requires InTime(init + [last]) && |init| > 0
    ensures InTime(init) && LastOf(init).time.instant < last.time.instant
  {
    var full := init + [last];
    assert full[|init| - 1] == LastOf(init) && full[|init|] == last;
    forall i, j | 0 <= i < j < |init| ensures init[i].time.instant < init[j].time.instant {
      assert full[i] == init[i] && full[j] == init[j];
    }
  }

  lemma DictOfOneMore(weekOf: Calendar, init: seq<Bar>, last: Bar)
    ensures WeeklyDict(weekOf, init + [last]) == WeeklyDict(weekOf, init).Put(weekOf(last.time.instant), last.close)
  {
    hide Dict.Put;
    assert (init + [last])[..|init|] == init;
  }

  lemma LaterIsLaterWeek(weekOf: Calendar, a: int, b: int)
    requires Monotone(weekOf) && a <= b
    ensures weekOf(a) <= weekOf(b)
  {}

  /** One more bar, in the same week or a later one, does not change what lies before a week. */
  lemma NextBarIsInvisible(weekOf: Calendar, init: seq<Bar>, last: Bar, week: int)
    requires Monotone(weekOf) && InTime(init + [last]) && |init| > 0
    requires week <= weekOf(last.time.instant)
    ensures Before(WeeklySeries(weekOf, init + [last]), week) == Before(WeeklySeries(weekOf, init), week)
  {
    hide Items, Ascending, Follow, Before, WeeklySeries, WeeklyDict, InTime, Monotone, Dict.Put;
    InTimeSplits(init, last);
    SeriesIsDict(weekOf, init + [last]);
    SeriesIsDict(weekOf, init);
    WeeksAscend(weekOf, init);
    DictOfOneMore(weekOf, init, last);
    var before, lastWeek := WeeklyDict(weekOf, init), weekOf(last.time.instant);
    LaterIsLaterWeek(weekOf, LastOf(init).time.instant, last.time.instant);
    ItemsOfSome(before);
    PutFollows(before, lastWeek, last.close);
    LaterWeekIsInvisible(Items(before), WeekClose(lastWeek, last.close), week);
  }

  lemma ItemsOfSome(d: Dict<int, real>)
    requires d.Valid()
    ensures |Items(d)| == |d.keys|
  {}

  /** Future bars do not show: the full series, cut before the current week, is the visible series cut there. */
  lemma {:induction false} FullSeriesIsCausal(weekOf: Calendar, full: seq<Bar>, n: nat, week: int)
    requires Monotone(weekOf) && InTime(full) && 0 < n <= |full|
    requires week == weekOf(full[n - 1].time.instant)
    ensures Before(WeeklySeries(weekOf, full), week) == Before(WeeklySeries(weekOf, full[..n]), week)
  {
    hide Before, WeeklySeries;
    if n == |full| {
      assert full[..n] == full;
    } else {
      var init, last := full[..|full| - 1], full[|full| - 1];
      FullSeriesIsCausal(weekOf, init, n, week);
      assert init[..n] == full[..n] && init + [last] == full;
      assert full[n - 1].time.instant < last.time.instant;
      NextBarIsInvisible(weekOf, init, last, week);
    }
  }

  lemma {:induction false} CutIsBefore(series: seq<WeekClose>, week: int, cut: nat)
    requires cut <= |series|
    requires forall i :: 0 <= i < cut ==> series[i].week < week
    requires forall i :: cut <= i < |series| ==> series[i].week >= week
    ensures Before(series, week) == seq(cut, i requires 0 <= i < cut => series[i].close)
  {
    if |series| > 0 {
      CutIsBefore(series[..|series| - 1], week, MinInt(cut, |series| - 1));
    }
  }

  class WeeklyFilter {
    const config: WeeklyConfig
    const weekOf: Calendar
    const series: map<string, seq<WeekClose>>
    /** The full histories the series were built from. */
    ghost const histories: map<string, seq<Bar>>
    var cache: map<string, (int, Option<bool>)>

    ghost predicate Valid()
      reads this
    {
      && Monotone(weekOf)
      && series.Keys == histories.Keys
      && (forall k | k in histories :: InTime(histories[k]) && series[k] == WeeklySeries(weekOf, histories[k]))
      && (forall k | k in cache :: cache[k].1 == Confirmation(config, Before(SeriesOf(k), cache[k].0)))
    }

    function SeriesOf(instrument: string): seq<WeekClose> {
      if instrument in series then series[instrument] else []
    }

    constructor (config: WeeklyConfig, weekOf: Calendar, histories: map<string, seq<Bar>>)
      requires Monotone(weekOf) && forall k | k in histories :: InTime(histories[k])
      ensures Valid() && this.config == config && this.weekOf == weekOf && this.histories == histories
    {
      this.config, this.weekOf, this.histories := config, weekOf, histories;
      series := map k | k in histories :: WeeklySeries(weekOf, histories[k]);
      cache := map[];
    }

    /** Where a week belongs among the keys, before any equal one: binary search. */
    method BisectLeft(keys: seq<WeekClose>, week: int) returns (cut: nat)
      requires Ascending(keys)
      ensures cut <= |keys|
      ensures forall i :: 0 <= i < cut ==> keys[i].week < week
      ensures forall i :: cut <= i < |keys| ==> keys[i].week >= week
    {
      var lo, hi := 0, |keys|;
      while lo < hi
        invariant 0 <= lo <= hi <= |keys|
        invariant forall i :: 0 <= i < lo ==> keys[i].week < week
        invariant forall i :: hi <= i < |keys| ==> keys[i].week >= week
      {
        var mid := (lo + hi) / 2;
        if keys[mid].week < week {
          lo := mid + 1;
        } else {
          hi := mid;
        }
      }
      cut := lo;
    }

    /**
     * The weekly confirmation on the last visible bar: although it reads a series built with future bars and
     * remembers one answer per instrument, it is what the visible bars alone give.
     */
    method WeeklyConfirmation(instrument: string, bars: seq<Bar>) returns (r: Option<bool>)
      requires Valid() && |bars| > 0
      requires instrument in histories && bars <= histories[instrument]
      modifies this
      ensures Valid()
      ensures r == WeeklyAnswer(config, weekOf, bars)
    {
      hide Confirmation, WeeklySeries, Before, Ascending, Monotone;
      var week := weekOf(LastOf(bars).time.instant);
      FullSeriesIsCausal(weekOf, histories[instrument], |bars|, week);
      assert histories[instrument][..|bars|] == bars;
      if instrument in cache && cache[instrument].0 == week {
        return cache[instrument].1;
      }
      var known := SeriesOf(instrument);
      SeriesAscends(weekOf, histories[instrument]);
      var cut := BisectLeft(known, week);
      CutIsBefore(known, week, cut);
      r := Confirmation(config, seq(cut, i requires 0 <= i < cut => known[i].close));
      cache := cache[instrument := (week, r)];
    }
  }

  lemma SeriesAscends(weekOf: Calendar, bars: seq<Bar>)
    requires Monotone(weekOf) && InTime(bars)
    ensures Ascending(WeeklySeries(weekOf, bars))
  {
    SeriesIsDict(weekOf, bars);
    WeeksAscend(weekOf, bars);
  }
}
