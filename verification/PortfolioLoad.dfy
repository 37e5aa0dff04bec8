/** From the bars a caller hands in to the histories and events the portfolio loop replays. */
module PortfolioLoading {
  import opened Prelude
  import opened OrderedDict
  import opened Models
  import opened Risk
  import opened LedgerEffects
  import opened IndicatorCaching
  import opened PortfolioLoop
  import opened PortfolioBooks
  import opened PortfolioRunning
  import W = WeeklyFiltering

  type Input = Dict<string, seq<Bar>>

  // ----- Each instrument's bars in time order

  function InsertByTime(sorted: seq<Bar>, x: Bar): (r: seq<Bar>)
    ensures |r| == |sorted| + 1
  {
    if |sorted| == 0 || sorted[|sorted| - 1].time.instant <= x.time.instant then sorted + [x]
    else InsertByTime(sorted[..|sorted| - 1], x) + [sorted[|sorted| - 1]]
  }

  function SortByTime(bars: seq<Bar>): (r: seq<Bar>)
    ensures |r| == |bars|
  {
    if |bars| == 0 then [] else InsertByTime(SortByTime(bars[..|bars| - 1]), bars[|bars| - 1])
  }

  /** Two bars at one instant. */
  predicate Repeats(bars: seq<Bar>) {
    exists i, j | 0 <= i < j < |bars| :: bars[i].time.instant == bars[j].time.instant
  }

  lemma InitInTime(bars: seq<Bar>)
    requires W.InTime(bars) && |bars| > 0
    ensures W.InTime(bars[..|bars| - 1])
    ensures forall b | b in bars[..|bars| - 1] :: b.time.instant < bars[|bars| - 1].time.instant
    ensures bars == bars[..|bars| - 1] + [bars[|bars| - 1]]
  {}

  lemma LaterJoins(bars: seq<Bar>, x: Bar)
    requires W.InTime(bars) && forall b | b in bars :: b.time.instant < x.time.instant
    ensures W.InTime(bars + [x])
  {}

  lemma {:induction false} InsertingKeepsOrder(sorted: seq<Bar>, x: Bar)
    requires W.InTime(sorted) && forall b | b in sorted :: b.time.instant != x.time.instant
    ensures W.InTime(InsertByTime(sorted, x))
    ensures forall b | b in InsertByTime(sorted, x) :: b in sorted || b == x
    ensures forall b | b in sorted || b == x :: b in InsertByTime(sorted, x)
  {
    if |sorted| == 0 {
      LaterJoins(sorted, x);
    } else {
      InitInTime(sorted);
      hide W.InTime;
      var init, last := sorted[..|sorted| - 1], sorted[|sorted| - 1];
      if last.time.instant <= x.time.instant {
        assert last in sorted && forall b | b in sorted :: b in init || b == last;
        LaterJoins(sorted, x);
      } else {
        InsertingKeepsOrder(init, x);
        LaterJoins(InsertByTime(init, x), last);
      }
    }
  }

  /** Bars at different instants come out in strict time order, and they are the same bars. */
  lemma {:induction false} SortingOrders(bars: seq<Bar>)
    requires !Repeats(bars)
    ensures W.InTime(SortByTime(bars))
    ensures forall b :: b in SortByTime(bars) <==> b in bars
  {
    if |bars| > 0 {
      var init, last := bars[..|bars| - 1], bars[|bars| - 1];
      assert bars == init + [last];
      SortingOrders(init);
      forall b | b in SortByTime(init) ensures b.time.instant != last.time.instant {
        var i :| 0 <= i < |init| && init[i] == b;
        assert bars[i] == b;
      }
      InsertingKeepsOrder(SortByTime(init), last);
    }
  }

  /** Every instrument has a bar. */
  predicate NoneEmpty(d: Input) { forall k | k in d.data :: |d.data[k]| > 0 }

  /** Every instrument with bars, each in time order; a repeated timestamp raises. */
  function NormalizedUpTo(input: Input, n: nat): (r: Result<Input, Error>)
    requires input.Valid() && n <= |input.keys|
    ensures r.Ok? ==> r.value.Valid() && NoneEmpty(r.value)
  {
    if n == 0 then Ok(Empty())
    else
      match NormalizedUpTo(input, n - 1)
      case Err(e) => Err(e)
      case Ok(before) =>
        var bars := input.data[input.keys[n - 1]];
        if |bars| == 0 then Ok(before)
        else if Repeats(bars) then Err(ValueError)
        else Ok(before.Put(input.keys[n - 1], SortByTime(bars)))
  }

  function Normalized(input: Input): (r: Result<Input, Error>)
    requires input.Valid()
    ensures r.Ok? ==> r.value.Valid() && |r.value.keys| > 0 && NoneEmpty(r.value)
  {
    match NormalizedUpTo(input, |input.keys|)
    case Err(e) => Err(e)
    case Ok(normalized) => if |normalized.keys| == 0 then Err(ValueError) else Ok(normalized)
  }

  /** What normalising leaves of an instrument: the same bars, in time order. */
  ghost predicate Tidy(input: Input, normalized: Input) {
    && normalized.Valid()
    && forall k | k in normalized.data ::
         && k in input.data && |normalized.data[k]| > 0 && W.InTime(normalized.data[k])
         && forall b :: b in normalized.data[k] <==> b in input.data[k]
  }

  lemma {:induction false} NormalizingTidies(input: Input, n: nat)
    requires input.Valid() && n <= |input.keys| && NormalizedUpTo(input, n).Ok?
    ensures Tidy(input, NormalizedUpTo(input, n).value)
  {
    hide Repeats, SortByTime, W.InTime;
    if n > 0 {
      NormalizingTidies(input, n - 1);
      var bars := input.data[input.keys[n - 1]];
      if |bars| > 0 {
        SortingOrders(bars);
      }
    }
  }

  /** Loading raises exactly when two bars of an instrument share an instant, or there is no bar at all. */
  lemma {:induction false} NormalizingRaisesOnRepeats(input: Input, n: nat)
    requires input.Valid() && n <= |input.keys|
    ensures NormalizedUpTo(input, n).Err? <==> exists i | 0 <= i < n :: Repeats(input.data[input.keys[i]])
    ensures NormalizedUpTo(input, n).Ok? ==>
              (NormalizedUpTo(input, n).value.keys == [] <==> forall i | 0 <= i < n :: input.data[input.keys[i]] == [])
  {
    hide SortByTime, Repeats;
    if n > 0 {
      NormalizingRaisesOnRepeats(input, n - 1);
      NoBarsNoRepeats(input.data[input.keys[n - 1]]);
    }
  }

  lemma NoBarsNoRepeats(bars: seq<Bar>)
    ensures |bars| == 0 ==> !Repeats(bars)
  {}

  method Normalize(input: Input) returns (r: Result<Input, Error>)
    requires input.Valid()
    ensures r == Normalized(input)
  {
    hide Repeats, SortByTime, Dict.Put;
    if |input.keys| == 0 {
      return Err(ValueError);
    }
    var normalized: Input := Empty();
    for i := 0 to |input.keys|
      invariant NormalizedUpTo(input, i) == Ok(normalized)
    {
      var bars := input.data[input.keys[i]];
      if |bars| == 0 {
        continue;
      }
      if Repeats(bars) {
        FirstErrorStays(input, i + 1, |input.keys|);
        return Err(ValueError);
      }
      normalized := normalized.Put(input.keys[i], SortByTime(bars));
    }
    if |normalized.keys| == 0 {
      return Err(ValueError);
    }
    return Ok(normalized);
  }

  lemma {:induction false} FirstErrorStays(input: Input, n: nat, total: nat)
    requires input.Valid() && n <= total <= |input.keys| && NormalizedUpTo(input, n).Err?
    ensures NormalizedUpTo(input, total) == NormalizedUpTo(input, n)
  {
    if n < total {
      FirstErrorStays(input, n, total - 1);
    }
  }

  // ----- Slicing by time

  /** The bars before an instant. */
  function UpTo(bars: seq<Bar>, t: int): seq<Bar> {
    if |bars| == 0 then []
    else if bars[|bars| - 1].time.instant < t then UpTo(bars[..|bars| - 1], t) + [bars[|bars| - 1]]
    else UpTo(bars[..|bars| - 1], t)
  }

  /** The bars at an instant. */
  function AtTime(bars: seq<Bar>, t: int): seq<Bar> {
    if |bars| == 0 then []
    else if bars[|bars| - 1].time.instant == t then AtTime(bars[..|bars| - 1], t) + [bars[|bars| - 1]]
    else AtTime(bars[..|bars| - 1], t)
  }

  lemma {:induction false} EarlierBars(bars: seq<Bar>, t: int)
    requires forall b | b in bars :: b.time.instant < t
    ensures UpTo(bars, t) == bars && AtTime(bars, t) == []
  {
    if |bars| > 0 {
      EarlierBars(bars[..|bars| - 1], t);
      assert bars == bars[..|bars| - 1] + [bars[|bars| - 1]];
    }
  }

  lemma {:induction false} SliceExtends(bars: seq<Bar>, t: int)
    requires W.InTime(bars)
    ensures UpTo(bars, t) + AtTime(bars, t) == UpTo(bars, t + 1)
    ensures |AtTime(bars, t)| <= 1
  {
    if |bars| > 0 {
      InitInTime(bars);
      hide W.InTime;
      var init, last := bars[..|bars| - 1], bars[|bars| - 1];
      if last.time.instant <= t {
        LastSlice(bars, init, last, t);
      } else {
        SliceExtends(init, t);
      }
    }
  }

  lemma LastSlice(bars: seq<Bar>, init: seq<Bar>, last: Bar, t: int)
    requires |bars| > 0 && init == bars[..|bars| - 1] && last == bars[|bars| - 1] && bars == init + [last]
    requires last.time.instant <= t && forall b | b in init :: b.time.instant < last.time.instant
    ensures UpTo(bars, t) + AtTime(bars, t) == UpTo(bars, t + 1)
    ensures |AtTime(bars, t)| <= 1
  {
    hide UpTo, AtTime;
    forall b | b in bars ensures b.time.instant <= last.time.instant {
      assert b in init || b == last;
    }
    EarlierBars(bars, t + 1);
    if last.time.instant < t {
      EarlierBars(bars, t);
    } else {
      EarlierBars(init, t);
      LastAtTime(bars, init, last, t);
    }
  }

  lemma LastAtTime(bars: seq<Bar>, init: seq<Bar>, last: Bar, t: int)
    requires |bars| > 0 && init == bars[..|bars| - 1] && last == bars[|bars| - 1] && last.time.instant == t
    ensures UpTo(bars, t) == UpTo(init, t) && AtTime(bars, t) == AtTime(init, t) + [last]
  {}

  lemma {:induction false} NothingBetween(bars: seq<Bar>, from: int, to: int)
    requires from <= to && forall b | b in bars :: !(from <= b.time.instant < to)
    ensures UpTo(bars, from) == UpTo(bars, to)
  {
    if |bars| > 0 {
      NothingBetween(bars[..|bars| - 1], from, to);
    }
  }

  lemma {:induction false} SliceIsPrefix(bars: seq<Bar>, t: int)
    requires W.InTime(bars)
    ensures UpTo(bars, t) <= bars
    ensures forall b | b in UpTo(bars, t) :: b.time.instant < t
  {
    if |bars| > 0 {
      InitInTime(bars);
      var init, last := bars[..|bars| - 1], bars[|bars| - 1];
      SliceIsPrefix(init, t);
      if last.time.instant < t {
        EarlierBars(init, t);
      }
    }
  }

  lemma {:induction false} AtTimeMembers(bars: seq<Bar>, t: int)
    ensures forall b | b in AtTime(bars, t) :: b in bars && b.time.instant == t
  {
    if |bars| > 0 {
      AtTimeMembers(bars[..|bars| - 1], t);
    }
  }

  // ----- The events

  predicate Ascending(stamps: seq<Timestamp>) {
    forall i, j | 0 <= i < j < |stamps| :: stamps[i].instant < stamps[j].instant
  }

  /** A set of timestamps in order: one that is there already stays as it was. */
  function InsertStamp(stamps: seq<Timestamp>, t: Timestamp): seq<Timestamp> {
    if |stamps| == 0 || stamps[|stamps| - 1].instant < t.instant then stamps + [t]
    else if stamps[|stamps| - 1].instant == t.instant then stamps
    else InsertStamp(stamps[..|stamps| - 1], t) + [stamps[|stamps| - 1]]
  }

  function WithStamps(stamps: seq<Timestamp>, bars: seq<Bar>, from: int, to: int): seq<Timestamp> {
    if |bars| == 0 then stamps
    else
      var before, last := WithStamps(stamps, bars[..|bars| - 1], from, to), bars[|bars| - 1];
      if from <= last.time.instant <= to then InsertStamp(before, last.time) else before
  }

  /** The instants of the window at which some instrument has a bar, in order. */
  function EventTimes(d: Input, n: nat, from: int, to: int): seq<Timestamp>
    requires d.Valid() && n <= |d.keys|
  {
    if n == 0 then [] else WithStamps(EventTimes(d, n - 1, from, to), d.data[d.keys[n - 1]], from, to)
  }

  /** Some timestamp of the list is at the instant. */
  predicate Lists(stamps: seq<Timestamp>, t: int) { exists i | 0 <= i < |stamps| :: stamps[i].instant == t }

  lemma LaterStamp(stamps: seq<Timestamp>, t: Timestamp, after: seq<Timestamp>)
    requires after == stamps + [t]
    ensures forall x :: Lists(after, x) <==> Lists(stamps, x) || x == t.instant
    ensures Ascending(stamps) && (forall x | Lists(stamps, x) :: x < t.instant) ==> Ascending(after)
  {
    assert after[|stamps|] == t && forall i | 0 <= i < |stamps| :: after[i] == stamps[i];
    if Ascending(stamps) && forall x | Lists(stamps, x) :: x < t.instant {
      forall i, j | 0 <= i < j < |after| ensures after[i].instant < after[j].instant {
        assert Lists(stamps, after[i].instant);
      }
    }
  }

  lemma LastStamp(stamps: seq<Timestamp>, init: seq<Timestamp>)
    requires Ascending(stamps) && |stamps| > 0 && init == stamps[..|stamps| - 1]
    ensures Ascending(init) && stamps == init + [LastOf(stamps)]
    ensures forall x | Lists(init, x) :: x < LastOf(stamps).instant
  {}

  lemma {:induction false} InsertStampListed(stamps: seq<Timestamp>, t: Timestamp)
    requires Ascending(stamps)
    ensures Ascending(InsertStamp(stamps, t))
    ensures forall x :: Lists(InsertStamp(stamps, t), x) <==> Lists(stamps, x) || x == t.instant
  {
    hide Ascending, Lists;
    if |stamps| == 0 {
      NoStamps();
      LaterStamp(stamps, t, stamps + [t]);
    } else {
      var init, last := stamps[..|stamps| - 1], LastOf(stamps);
      LastStamp(stamps, init);
      LaterStamp(init, last, stamps);
      if last.instant < t.instant {
        LaterStamp(stamps, t, stamps + [t]);
      } else if last.instant > t.instant {
        InsertStampListed(init, t);
        LaterStamp(InsertStamp(init, t), last, InsertStamp(init, t) + [last]);
      }
    }
  }

  lemma {:induction false} WithStampsListed(stamps: seq<Timestamp>, bars: seq<Bar>, from: int, to: int)
    requires Ascending(stamps)
    ensures Ascending(WithStamps(stamps, bars, from, to))
    ensures forall x :: Lists(WithStamps(stamps, bars, from, to), x) <==>
              Lists(stamps, x) || (from <= x <= to && HasBarAt(bars, x))
  {
    hide Lists, Ascending, InsertStamp;
    if |bars| > 0 {
      var init, last := bars[..|bars| - 1], bars[|bars| - 1];
      WithStampsListed(stamps, init, from, to);
      InsertStampListed(WithStamps(stamps, init, from, to), last.time);
      BarsAtLast(bars);
    }
  }

  predicate HasBarAt(bars: seq<Bar>, t: int) { exists i | 0 <= i < |bars| :: bars[i].time.instant == t }

  lemma BarsAtLast(bars: seq<Bar>)
    requires |bars| > 0
    ensures forall x :: HasBarAt(bars, x) <==> HasBarAt(bars[..|bars| - 1], x) || x == bars[|bars| - 1].time.instant
  {
    var init := bars[..|bars| - 1];
    forall x | HasBarAt(init, x) ensures HasBarAt(bars, x) {
      var i :| 0 <= i < |init| && init[i].time.instant == x;
      assert bars[i] == init[i];
    }
    forall x | HasBarAt(bars, x) && x != bars[|bars| - 1].time.instant ensures HasBarAt(init, x) {
      var i :| 0 <= i < |bars| && bars[i].time.instant == x;
      assert init[i] == bars[i];
    }
  }

  /** Some of the first instruments has a bar at the instant. */
  predicate SomeBarAt(d: Input, n: nat, t: int)
    requires d.Valid() && n <= |d.keys|
  {
    exists i | 0 <= i < n :: HasBarAt(d.data[d.keys[i]], t)
  }

  lemma {:induction false} EventTimesListed(d: Input, n: nat, from: int, to: int)
    requires d.Valid() && n <= |d.keys|
    ensures Ascending(EventTimes(d, n, from, to))
    ensures forall x :: Lists(EventTimes(d, n, from, to), x) <==> from <= x <= to && SomeBarAt(d, n, x)
  {
    hide Lists, Ascending, HasBarAt, WithStamps;
    if n == 0 {
      NoStamps();
    } else {
      EventTimesListed(d, n - 1, from, to);
      WithStampsListed(EventTimes(d, n - 1, from, to), d.data[d.keys[n - 1]], from, to);
    }
  }

  lemma NoStamps()
    ensures Ascending([]) && forall x :: !Lists([], x)
  {}

  /** The bars of an instant, in the order of the instruments. */
  function EventBars(d: Input, n: nat, t: int): seq<Bar>
    requires d.Valid() && n <= |d.keys|
  {
    if n == 0 then [] else EventBars(d, n - 1, t) + AtTime(d.data[d.keys[n - 1]], t)
  }

  function EventsAt(d: Input, regime: seq<Bar>, times: seq<Timestamp>): (r: seq<MarketEvent>)
    requires d.Valid()
    ensures |r| == |times|
  {
    seq(|times|, i requires 0 <= i < |times| =>
      MarketEvent(times[i], EventBars(d, |d.keys|, times[i].instant), AtTime(regime, times[i].instant)))
  }

  function HistoriesAt(d: Input, from: int): map<string, seq<Bar>>
    requires d.Valid()
  {
    map k | k in d.data :: UpTo(d.data[k], from)
  }

  /** The first and the last instant of some bars. */
  function Earliest(bars: seq<Bar>): int
    requires |bars| > 0
  {
    if |bars| == 1 then bars[0].time.instant
    else MinInt(Earliest(bars[..|bars| - 1]), bars[|bars| - 1].time.instant)
  }

  function Latest(bars: seq<Bar>): int
    requires |bars| > 0
  {
    if |bars| == 1 then bars[0].time.instant
    else MaxInt(Latest(bars[..|bars| - 1]), bars[|bars| - 1].time.instant)
  }

  function AllBars(d: Input, n: nat): (r: seq<Bar>)
    requires d.Valid() && n <= |d.keys|
    ensures NoneEmpty(d) && n > 0 ==> |r| > 0
  {
    if n == 0 then [] else AllBars(d, n - 1) + d.data[d.keys[n - 1]]
  }

  datatype Loaded = Loaded(histories: map<string, seq<Bar>>, regime: seq<Bar>, events: seq<MarketEvent>)

  /** The configured window, or else the one the bars span. */
  function WindowStart(d: Input, start: Option<int>): int
    requires d.Valid() && NoneEmpty(d) && |d.keys| > 0
  {
    if start.Some? then start.value else Earliest(AllBars(d, |d.keys|))
  }

  function WindowEnd(d: Input, end: Option<int>): int
    requires d.Valid() && NoneEmpty(d) && |d.keys| > 0
  {
    if end.Some? then end.value else Latest(AllBars(d, |d.keys|))
  }

  /** The histories before the window, and the events of the window; none of them raises. */
  function Sliced(d: Input, regimeBars: seq<Bar>, from: int, to: int): Result<Loaded, Error>
    requires d.Valid()
  {
    var regime, times := SortByTime(regimeBars), EventTimes(d, |d.keys|, from, to);
    if |times| == 0 then Err(ValueError)
    else Ok(Loaded(HistoriesAt(d, from), UpTo(regime, from), EventsAt(d, regime, times)))
  }

  function Load(input: Input, regimeBars: seq<Bar>, start: Option<int>, end: Option<int>): Result<Loaded, Error>
    requires input.Valid()
  {
    match Normalized(input)
    case Err(e) => Err(e)
    case Ok(d) => Sliced(d, regimeBars, WindowStart(d, start), WindowEnd(d, end))
  }

  // ----- Loading as it runs

  function Grouped(byTime: map<int, seq<Bar>>, t: int): seq<Bar> {
    if t in byTime then byTime[t] else []
  }

  /** The bars of an instant, if it is in the window. */
  function Shown(bars: seq<Bar>, from: int, to: int, t: int): seq<Bar> {
    if from <= t <= to then AtTime(bars, t) else []
  }

  lemma OneMoreShown(bars: seq<Bar>, j: nat, from: int, to: int, t: int)
    requires j < |bars|
    ensures Shown(bars[..j + 1], from, to, t) ==
              Shown(bars[..j], from, to, t) + if from <= t <= to && bars[j].time.instant == t then [bars[j]] else []
  {
    assert bars[..j + 1][..j] == bars[..j];
  }

  /** Append each bar of the window to the list of its instant. */
  method GroupBars(lists: map<int, seq<Bar>>, bars: seq<Bar>, from: int, to: int) returns (byTime: map<int, seq<Bar>>)
    ensures forall t :: Grouped(byTime, t) == Grouped(lists, t) + Shown(bars, from, to, t)
  {
    hide Shown;
    byTime := lists;
    NothingShown(from, to);
    for j := 0 to |bars|
      invariant forall t :: Grouped(byTime, t) == Grouped(lists, t) + Shown(bars[..j], from, to, t)
    {
      var before, at := byTime, bars[j].time.instant;
      if from <= at <= to {
        byTime := byTime[at := Grouped(byTime, at) + [bars[j]]];
      }
      forall t ensures Grouped(byTime, t) == Grouped(lists, t) + Shown(bars[..j + 1], from, to, t) {
        OneMoreShown(bars, j, from, to, t);
        assert Grouped(before, t) == Grouped(lists, t) + Shown(bars[..j], from, to, t);
      }
    }
    assert bars[..|bars|] == bars;
  }

  lemma NothingShown(from: int, to: int)
    ensures forall t :: Shown([], from, to, t) == []
  {}

  /** Every instant's list has the bars of the first instruments. */
  ghost predicate Groups(byTime: map<int, seq<Bar>>, d: Input, n: nat, from: int, to: int)
    requires d.Valid() && n <= |d.keys|
  {
    forall t :: Grouped(byTime, t) == if from <= t <= to then EventBars(d, n, t) else []
  }

  lemma OneMoreGrouped(before: map<int, seq<Bar>>, byTime: map<int, seq<Bar>>, d: Input, n: nat, bars: seq<Bar>,
                       from: int, to: int)
    requires d.Valid() && n < |d.keys| && bars == d.data[d.keys[n]] && Groups(before, d, n, from, to)
    requires forall t :: Grouped(byTime, t) == Grouped(before, t) + Shown(bars, from, to, t)
    ensures Groups(byTime, d, n + 1, from, to)
  {
    hide Grouped, AtTime;
    forall t ensures Grouped(byTime, t) == if from <= t <= to then EventBars(d, n + 1, t) else [] {
      assert Grouped(byTime, t) == Grouped(before, t) + Shown(bars, from, to, t);
    }
  }

  lemma NoneGrouped(d: Input, from: int, to: int)
    requires d.Valid()
    ensures Groups(map[], d, 0, from, to)
  {}

  lemma KeyIsKnown(d: Input, i: nat)
    requires d.Valid() && i < |d.keys|
    ensures d.keys[i] in d.data
  {}

  /** The bars of the window by their instant, instrument after instrument. */
  method GroupByTime(d: Input, from: int, to: int) returns (byTime: map<int, seq<Bar>>)
    requires d.Valid()
    ensures Groups(byTime, d, |d.keys|, from, to)
  {
    hide Groups, Grouped, Shown, Dict.Valid;
    byTime := map[];
    NoneGrouped(d, from, to);
    for i := 0 to |d.keys|
      invariant Groups(byTime, d, i, from, to)
    {
      KeyIsKnown(d, i);
      var more := GroupBars(byTime, d.data[d.keys[i]], from, to);
      OneMoreGrouped(byTime, more, d, i, d.data[d.keys[i]], from, to);
      byTime := more;
    }
  }

  method LoadBars(input: Input, regimeBars: seq<Bar>, start: Option<int>, end: Option<int>)
    returns (r: Result<Loaded, Error>)
    requires input.Valid()
    ensures r == Load(input, regimeBars, start, end)
  {
    hide Normalized, EventTimes, EventBars, AtTime, UpTo, SortByTime, AllBars, Earliest, Latest, Dict.Valid, NoneEmpty;
    var normalized := Normalize(input);
    if normalized.Err? {
      return Err(normalized.error);
    }
    var d := normalized.value;
    var from, to := WindowStart(d, start), WindowEnd(d, end);
    var times := EventTimes(d, |d.keys|, from, to);
    if |times| == 0 {
      return Err(ValueError);
    }
    var byTime := GroupByTime(d, from, to);
    var regime := SortByTime(regimeBars);
    var events := seq(|times|, i requires 0 <= i < |times| =>
      MarketEvent(times[i], Grouped(byTime, times[i].instant), AtTime(regime, times[i].instant)));
    forall i | 0 <= i < |times| ensures from <= times[i].instant <= to {
      EventTimeInWindow(d, from, to, i);
    }
    assert events == EventsAt(d, regime, times);
    return Ok(Loaded(HistoriesAt(d, from), UpTo(regime, from), events));
  }

  lemma EventTimeInWindow(d: Input, from: int, to: int, i: int)
    requires d.Valid() && 0 <= i < |EventTimes(d, |d.keys|, from, to)|
    ensures from <= EventTimes(d, |d.keys|, from, to)[i].instant <= to
    ensures SomeBarAt(d, |d.keys|, EventTimes(d, |d.keys|, from, to)[i].instant)
  {
    EventTimesListed(d, |d.keys|, from, to);
    assert Lists(EventTimes(d, |d.keys|, from, to), EventTimes(d, |d.keys|, from, to)[i].instant);
  }

  // ----- What is loaded

  /** Bars are filed under their own instrument. */
  ghost predicate Filed(input: Input) {
    forall k | k in input.data :: forall b | b in input.data[k] :: b.instrument == k
  }

  ghost predicate FiledIn(m: Market, input: Input) {
    Filed(input) && forall k | k in input.data :: forall b | b in input.data[k] :: Listed(m, b)
  }

  /** Each instrument's bars in time order, filed under it. */
  ghost predicate Ready(d: Input) {
    && d.Valid() && Filed(d) && forall k | k in d.data :: W.InTime(d.data[k])
  }

  lemma NormalizedIsReady(input: Input)
    requires input.Valid() && Filed(input) && Normalized(input).Ok?
    ensures Ready(Normalized(input).value)
  {
    NormalizingTidies(input, |input.keys|);
    hide NormalizedUpTo, W.InTime;
  }

  lemma {:induction false} EventBarsAreEach(d: Input, n: nat, t: int)
    requires Ready(d) && n <= |d.keys|
    ensures forall b | b in EventBars(d, n, t) :: b.time.instant == t && b.instrument in d.keys[..n]
    ensures forall b | b in EventBars(d, n, t) :: b.instrument in d.data && b in d.data[b.instrument]
    ensures forall i, j :: 0 <= i < j < |EventBars(d, n, t)| ==>
              EventBars(d, n, t)[i].instrument != EventBars(d, n, t)[j].instrument
  {
    if n > 0 {
      var k := d.keys[n - 1];
      EventBarsAreEach(d, n - 1, t);
      SliceExtends(d.data[k], t);
      AtTimeMembers(d.data[k], t);
      assert d.keys[..n] == d.keys[..n - 1] + [k];
      hide W.InTime;
      var before, last := EventBars(d, n - 1, t), AtTime(d.data[k], t);
      assert forall b | b in before :: b.instrument != k;
      assert forall i | 0 <= i < |before| :: before[i] in before;
      assert forall i | 0 <= i < |last| :: last[i] in last;
    }
  }

  lemma EventsAreInOrder(d: Input, regime: seq<Bar>, from: int, to: int)
    requires Ready(d)
    ensures InOrder(EventsAt(d, regime, EventTimes(d, |d.keys|, from, to)))
  {
    var times := EventTimes(d, |d.keys|, from, to);
    EventTimesListed(d, |d.keys|, from, to);
    hide Ready, EventTimes, EventBars, Lists, SomeBarAt;
    var events := EventsAt(d, regime, times);
    forall i | 0 <= i < |events| ensures OneBarEach(events[i]) {
      EventBarsAreEach(d, |d.keys|, times[i].instant);
    }
  }

  lemma StartFits(d: Input, from: int)
    requires Ready(d)
    ensures HistoriesFit(map[], HistoriesAt(d, from)) && Past(HistoriesAt(d, from), from)
  {
    forall k | k in d.data
      ensures IsHistory(UpTo(d.data[k], from), k) && forall b | b in UpTo(d.data[k], from) :: b.time.instant < from
    {
      SliceIsPrefix(d.data[k], from);
      PrefixIsHistory(d.data[k], UpTo(d.data[k], from), k);
    }
  }

  lemma PrefixIsHistory(bars: seq<Bar>, prefix: seq<Bar>, k: string)
    requires W.InTime(bars) && prefix <= bars && forall b | b in bars :: b.instrument == k
    ensures IsHistory(prefix, k)
  {}

  /** The normalised input: the first two ways to raise. */
  lemma NormalizedRaisesExactly(input: Input)
    requires input.Valid()
    ensures Normalized(input).Err? <==> (exists k | k in input.data :: Repeats(input.data[k])) ||
                                        (forall k | k in input.data :: input.data[k] == [])
    ensures Normalized(input).Err? ==> Normalized(input).error == ValueError
  {
    hide Repeats, SortByTime;
    NormalizingRaisesOnRepeats(input, |input.keys|);
    ErrorsAreValueErrors(input, |input.keys|);
    hide NormalizedUpTo;
    if k :| k in input.data && Repeats(input.data[k]) {
      var i :| 0 <= i < |input.keys| && input.keys[i] == k;
      assert Repeats(input.data[input.keys[i]]);
    }
    if forall i | 0 <= i < |input.keys| :: input.data[input.keys[i]] == [] {
      forall k | k in input.data ensures input.data[k] == [] {
        var i :| 0 <= i < |input.keys| && input.keys[i] == k;
        assert input.data[input.keys[i]] == [];
      }
    }
  }

  lemma {:induction false} ErrorsAreValueErrors(input: Input, n: nat)
    requires input.Valid() && n <= |input.keys|
    ensures NormalizedUpTo(input, n).Err? ==> NormalizedUpTo(input, n).error == ValueError
  {
    hide Repeats, SortByTime;
    if n > 0 {
      ErrorsAreValueErrors(input, n - 1);
    }
  }

  /** A bar in the window makes an event, and only a bar does. */
  lemma WindowIsEmptyExactly(d: Input, from: int, to: int)
    requires d.Valid()
    ensures |EventTimes(d, |d.keys|, from, to)| == 0 <==>
              forall k | k in d.data :: forall b | b in d.data[k] :: !(from <= b.time.instant <= to)
  {
    EventTimesListed(d, |d.keys|, from, to);
    var times := EventTimes(d, |d.keys|, from, to);
    if |times| == 0 {
      forall k, b | k in d.data && b in d.data[k] ensures !(from <= b.time.instant <= to) {
        BarIsSomewhere(d, k, b);
        assert !Lists(times, b.time.instant);
      }
    } else {
      EventTimeInWindow(d, from, to, 0);
      hide EventTimes;
      var t := times[0].instant;
      var i :| 0 <= i < |d.keys| && HasBarAt(d.data[d.keys[i]], t);
      var j :| 0 <= j < |d.data[d.keys[i]]| && d.data[d.keys[i]][j].time.instant == t;
      assert d.keys[i] in d.data && d.data[d.keys[i]][j] in d.data[d.keys[i]];
    }
  }

  /**
   * Loading raises, always the same exception, exactly when two bars of an instrument share an instant, when there is
   * no bar, or when no bar lies in the window.
   */
  lemma LoadRaisesExactly(input: Input, regimeBars: seq<Bar>, start: Option<int>, end: Option<int>)
    requires input.Valid()
    ensures Load(input, regimeBars, start, end).Err? <==>
              || (exists k | k in input.data :: Repeats(input.data[k]))
              || (forall k | k in input.data :: input.data[k] == [])
              || (Normalized(input).Ok? &&
                  var d := Normalized(input).value;
                  forall k | k in d.data :: forall b | b in d.data[k] ::
                    !(WindowStart(d, start) <= b.time.instant <= WindowEnd(d, end)))
    ensures Load(input, regimeBars, start, end).Err? ==> Load(input, regimeBars, start, end).error == ValueError
  {
    NormalizedRaisesExactly(input);
    hide Normalized, Repeats, EventTimes, AllBars, Earliest, Latest, SortByTime, UpTo, HistoriesAt, EventsAt;
    if Normalized(input).Ok? {
      var d := Normalized(input).value;
      WindowIsEmptyExactly(d, WindowStart(d, start), WindowEnd(d, end));
    }
  }

  /** What the loop asks of its histories and events holds of everything that is loaded. */
  lemma LoadedMeetsTheLoop(input: Input, regimeBars: seq<Bar>, start: Option<int>, end: Option<int>)
    requires input.Valid() && Filed(input) && Load(input, regimeBars, start, end).Ok?
    ensures var l := Load(input, regimeBars, start, end).value;
            && |l.events| > 0 && HistoriesFit(map[], l.histories) && InOrder(l.events)
            && Past(l.histories, l.events[0].time.instant)
  {
    NormalizedIsReady(input);
    hide Ready, Normalized, HistoriesFit, InOrder, Past, EventTimes, AllBars, Filed, HistoriesAt, SortByTime, UpTo;
    var d := Normalized(input).value;
    var from, to := WindowStart(d, start), WindowEnd(d, end);
    ReadyIsValid(d);
    EventsAreInOrder(d, SortByTime(regimeBars), from, to);
    StartFits(d, from);
    EventTimeInWindow(d, from, to, 0);
    PastLonger(HistoriesAt(d, from), from, EventTimes(d, |d.keys|, from, to)[0].instant);
  }

  lemma ReadyIsValid(d: Input)
    requires Ready(d)
    ensures d.Valid()
  {}

  /** ... and so does what the portfolio theorems assume of a market's data. */
  lemma LoadedIsProper(m: Market, input: Input, regimeBars: seq<Bar>, start: Option<int>, end: Option<int>)
    requires input.Valid() && FiledIn(m, input) && Load(input, regimeBars, start, end).Ok?
    ensures var l := Load(input, regimeBars, start, end).value;
            |l.events| > 0 && KnownHistories(m, l.histories) && ProperRun(m, l.events)
  {
    NormalizedIsReady(input);
    NormalizingTidies(input, |input.keys|);
    var d := Normalized(input).value;
    var from, to := WindowStart(d, start), WindowEnd(d, end);
    TidyIsListed(m, input, d);
    EventsAreInOrder(d, SortByTime(regimeBars), from, to);
    hide Normalized, EventTimes, AllBars, SortByTime, Filed, Tidy, W.InTime, EventBars;
    StartIsKnown(m, d, from);
    var times := EventTimes(d, |d.keys|, from, to);
    var events := EventsAt(d, SortByTime(regimeBars), times);
    forall i | 0 <= i < |events| ensures ProperEvent(m, events[i]) {
      assert OneBarEach(events[i]);
      EventBarsAreEach(d, |d.keys|, times[i].instant);
    }
  }

  lemma TidyIsListed(m: Market, input: Input, d: Input)
    requires Tidy(input, d) && FiledIn(m, input)
    ensures forall k | k in d.data :: forall b | b in d.data[k] :: b.instrument == k && Listed(m, b)
  {
    hide W.InTime;
  }

  lemma StartIsKnown(m: Market, d: Input, from: int)
    requires Ready(d) && forall k | k in d.data :: |d.data[k]| > 0
    requires forall k | k in d.data :: forall b | b in d.data[k] :: b.instrument == k && Listed(m, b)
    ensures KnownHistories(m, HistoriesAt(d, from))
  {
    forall k | k in d.data
      ensures k in m && forall b | b in UpTo(d.data[k], from) :: b.instrument == k && Listed(m, b)
    {
      SliceIsPrefix(d.data[k], from);
      assert d.data[k][0] in d.data[k];
    }
  }

  // ----- Nothing is lost, nothing is invented

  lemma {:induction false} AppendConcat(histories: map<string, seq<Bar>>, a: seq<Bar>, b: seq<Bar>)
    ensures AppendBars(histories, a + b) == AppendBars(AppendBars(histories, a), b)
  {
    if |b| == 0 {
      assert a + b == a;
    } else {
      AppendConcat(histories, a, b[..|b| - 1]);
      assert (a + b)[..|a + b| - 1] == a + b[..|b| - 1];
    }
  }

  /** An instrument's bars of an instant: at most one, and its own. */
  lemma BarsOfInstant(d: Input, k: string, t: int)
    requires Ready(d) && k in d.data
    ensures |AtTime(d.data[k], t)| <= 1 && forall b | b in AtTime(d.data[k], t) :: b.instrument == k
  {
    SliceExtends(d.data[k], t);
    AtTimeMembers(d.data[k], t);
    hide W.InTime, AtTime;
  }

  lemma LastKey(d: Input, n: nat)
    requires d.Valid() && 0 < n <= |d.keys|
    ensures d.keys[n - 1] in d.data && d.keys[n - 1] !in d.keys[..n - 1]
    ensures d.keys[..n] == d.keys[..n - 1] + [d.keys[n - 1]]
  {}

  lemma KeysAreKnown(d: Input, n: nat, k: string)
    requires d.Valid() && n <= |d.keys| && k in d.keys[..n]
    ensures k in d.data
  {}

  /** Appending an instant's bars gives each of the first instruments its own. */
  lemma {:induction false} InstantIsAppended(histories: map<string, seq<Bar>>, d: Input, n: nat, t: int, k: string)
    requires Ready(d) && n <= |d.keys| && k in d.data
    ensures HistoryOf(AppendBars(histories, EventBars(d, n, t)), k)
         == HistoryOf(histories, k) + if k in d.keys[..n] then AtTime(d.data[k], t) else []
  {
    ReadyIsValid(d);
    if n > 0 {
      LastKey(d, n);
      var last := d.keys[n - 1];
      var earlier, bars := EventBars(d, n - 1, t), AtTime(d.data[last], t);
      assert EventBars(d, n, t) == earlier + bars;
      hide EventBars, AtTime, HistoryOf, AppendBars, Dict.Valid;
      InstantIsAppended(histories, d, n - 1, t, k);
      AppendConcat(histories, earlier, bars);
      BarsOfInstant(d, last, t);
      hide Ready;
      if k == last {
        OneAppended(AppendBars(histories, earlier), bars, k);
      } else {
        assert forall b | b in bars :: b.instrument != k;
        OthersUntouched(AppendBars(histories, earlier), bars, k);
      }
    }
  }

  lemma OneAppended(histories: map<string, seq<Bar>>, bars: seq<Bar>, k: string)
    requires |bars| <= 1 && forall b | b in bars :: b.instrument == k
    ensures HistoryOf(AppendBars(histories, bars), k) == HistoryOf(histories, k) + bars
  {
    if |bars| == 1 {
      assert bars[0] in bars && bars[..0] == [];
    }
  }

  /** The instant up to which an instrument's bars are in its history after the first events. */
  function Bound(times: seq<Timestamp>, from: int, n: nat): int
    requires n <= |times|
  {
    if n == 0 then from else times[n - 1].instant + 1
  }

  lemma StampsStraddle(times: seq<Timestamp>, n: nat, x: int)
    requires Ascending(times) && Lists(times, x) && n <= |times|
    ensures (n > 0 && x <= times[n - 1].instant) || (n < |times| && times[n].instant <= x)
  {}

  function NextStamp(times: seq<Timestamp>, n: nat, to: int): int
    requires n <= |times|
  {
    if n < |times| then times[n].instant else to + 1
  }

  lemma BoundsFollow(d: Input, from: int, to: int, n: nat)
    requires d.Valid() && n <= |EventTimes(d, |d.keys|, from, to)| && from <= to + 1
    ensures var times := EventTimes(d, |d.keys|, from, to);
            from <= Bound(times, from, n) <= NextStamp(times, n, to) <= to + 1
  {
    EventTimesListed(d, |d.keys|, from, to);
    if n < |EventTimes(d, |d.keys|, from, to)| {
      EventTimeInWindow(d, from, to, n);
    }
    if n > 0 {
      EventTimeInWindow(d, from, to, n - 1);
    }
    hide EventTimes, Dict.Valid, SomeBarAt;
  }

  /** No bar of the window lies between two successive events. */
  lemma NoneBetweenEvents(d: Input, from: int, to: int, n: nat, k: string)
    requires d.Valid() && k in d.data && n <= |EventTimes(d, |d.keys|, from, to)| && from <= to + 1
    ensures var times := EventTimes(d, |d.keys|, from, to);
            UpTo(d.data[k], Bound(times, from, n)) == UpTo(d.data[k], NextStamp(times, n, to))
  {
    var times := EventTimes(d, |d.keys|, from, to);
    EventTimesListed(d, |d.keys|, from, to);
    BoundsFollow(d, from, to, n);
    hide EventTimes, Dict.Valid, SomeBarAt, Lists, Ascending;
    forall b | b in d.data[k]
      ensures !(Bound(times, from, n) <= b.time.instant < NextStamp(times, n, to))
    {
      BarIsSomewhere(d, k, b);
      if from <= b.time.instant <= to {
        StampsStraddle(times, n, b.time.instant);
      }
    }
    NothingBetween(d.data[k], Bound(times, from, n), NextStamp(times, n, to));
  }

  lemma BarIsSomewhere(d: Input, k: string, b: Bar)
    requires d.Valid() && k in d.data && b in d.data[k]
    ensures SomeBarAt(d, |d.keys|, b.time.instant)
  {
    var i :| 0 <= i < |d.keys| && d.keys[i] == k;
    assert HasBarAt(d.data[d.keys[i]], b.time.instant);
  }

  lemma ReplayExtends(histories: map<string, seq<Bar>>, events: seq<MarketEvent>, n: nat)
    requires 0 < n <= |events|
    ensures Replayed(histories, events[..n]) == AppendBars(Replayed(histories, events[..n - 1]), events[n - 1].bars)
  {
    hide AppendBars;
    assert events[..n][..n - 1] == events[..n - 1];
  }

  /** After each of its events the history of an instrument is its bars up to that event. */
  lemma {:induction false} ReplayIsSlice(d: Input, regime: seq<Bar>, from: int, to: int, n: nat, k: string)
    requires Ready(d) && d.Valid() && k in d.data && from <= to + 1 && n <= |EventTimes(d, |d.keys|, from, to)|
    ensures var times := EventTimes(d, |d.keys|, from, to);
            HistoryOf(Replayed(HistoriesAt(d, from), EventsAt(d, regime, times)[..n]), k)
            == UpTo(d.data[k], Bound(times, from, n))
  {
    hide Ready, EventTimes, EventBars, AtTime, UpTo, AppendBars, Dict.Valid;
    var times := EventTimes(d, |d.keys|, from, to);
    var events := EventsAt(d, regime, times);
    if n == 0 {
      assert events[..0] == [];
    } else {
      var t := times[n - 1].instant;
      ReplayIsSlice(d, regime, from, to, n - 1, k);
      NoneBetweenEvents(d, from, to, n - 1, k);
      KeysAreAll(d, k);
      var before := Replayed(HistoriesAt(d, from), events[..n - 1]);
      InstantIsAppended(before, d, |d.keys|, t, k);
      InTimeOf(d, k);
      SliceExtends(d.data[k], t);
      ReplayExtends(HistoriesAt(d, from), events, n);
      hide HistoryOf, Replayed, W.InTime, HistoriesAt;
    }
  }

  lemma KeysAreAll(d: Input, k: string)
    requires d.Valid() && k in d.data
    ensures k in d.keys[..|d.keys|]
  {
    assert d.keys[..|d.keys|] == d.keys;
  }

  lemma InTimeOf(d: Input, k: string)
    requires Ready(d) && k in d.data
    ensures W.InTime(d.data[k])
  {}

  /** Replaying gives an instrument its bars up to the end of the window, and a prefix of them all along. */
  ghost predicate Replays(l: Loaded, k: string, bars: seq<Bar>, to: int) {
    && HistoryOf(Replayed(l.histories, l.events), k) == UpTo(bars, to + 1)
    && forall n | 0 <= n <= |l.events| :: HistoryOf(Replayed(l.histories, l.events[..n]), k) <= bars
  }

  lemma ReplayFromTo(d: Input, regimeBars: seq<Bar>, from: int, to: int, k: string)
    requires Ready(d) && d.Valid() && k in d.data && Sliced(d, regimeBars, from, to).Ok?
    ensures Replays(Sliced(d, regimeBars, from, to).value, k, d.data[k], to)
  {
    hide Ready, EventTimes, Dict.Valid, UpTo, HistoriesAt, Replayed, HistoryOf, W.InTime, SortByTime;
    InTimeOf(d, k);
    var times := EventTimes(d, |d.keys|, from, to);
    var regime := SortByTime(regimeBars);
    var events := EventsAt(d, regime, times);
    EventTimeInWindow(d, from, to, 0);
    forall n | 0 <= n <= |events| ensures HistoryOf(Replayed(HistoriesAt(d, from), events[..n]), k) <= d.data[k] {
      ReplayIsSlice(d, regime, from, to, n, k);
      SliceIsPrefix(d.data[k], Bound(times, from, n));
    }
    ReplayIsSlice(d, regime, from, to, |times|, k);
    NoneBetweenEvents(d, from, to, |times|, k);
    assert events[..|events|] == events;
  }

  /**
   * A replay gives an instrument exactly its input bars up to the end of the window, in time order, whatever bars the
   * other instruments have or lack; and during it, what is visible is a prefix of them.
   */
  lemma ReplayIsInput(input: Input, regimeBars: seq<Bar>, start: Option<int>, end: Option<int>, k: string)
    requires input.Valid() && Filed(input) && Load(input, regimeBars, start, end).Ok?
    requires k in Normalized(input).value.data
    ensures var d := Normalized(input).value;
            Tidy(input, d) && Replays(Load(input, regimeBars, start, end).value, k, d.data[k], WindowEnd(d, end))
  {
    NormalizedIsReady(input);
    NormalizedIsTidy(input);
    hide Normalized, AllBars, Sliced, Filed, Ready, Replays, Tidy;
    var d := Normalized(input).value;
    ReadyIsValid(d);
    ReplayFromTo(d, regimeBars, WindowStart(d, start), WindowEnd(d, end), k);
  }

  lemma NormalizedIsTidy(input: Input)
    requires input.Valid() && Normalized(input).Ok?
    ensures Tidy(input, Normalized(input).value)
  {
    hide NormalizedUpTo, Tidy;
    NormalizingTidies(input, |input.keys|);
  }

  // ----- The regime's bars, and the window

  lemma {:induction false} InsertingKeepsMembers(sorted: seq<Bar>, x: Bar)
    ensures forall b :: b in InsertByTime(sorted, x) <==> b in sorted || b == x
  {
    if |sorted| > 0 && sorted[|sorted| - 1].time.instant > x.time.instant {
      assert sorted == sorted[..|sorted| - 1] + [sorted[|sorted| - 1]];
      InsertingKeepsMembers(sorted[..|sorted| - 1], x);
    }
  }

  lemma {:induction false} SortingKeepsMembers(bars: seq<Bar>)
    ensures forall b :: b in SortByTime(bars) <==> b in bars
  {
    if |bars| > 0 {
      assert bars == bars[..|bars| - 1] + [bars[|bars| - 1]];
      SortingKeepsMembers(bars[..|bars| - 1]);
      InsertingKeepsMembers(SortByTime(bars[..|bars| - 1]), bars[|bars| - 1]);
    }
  }

  lemma {:induction false} SliceMembers(bars: seq<Bar>, t: int)
    ensures forall b :: b in UpTo(bars, t) <==> b in bars && b.time.instant < t
    ensures forall b :: b in AtTime(bars, t) <==> b in bars && b.time.instant == t
  {
    if |bars| > 0 {
      assert bars == bars[..|bars| - 1] + [bars[|bars| - 1]];
      SliceMembers(bars[..|bars| - 1], t);
    }
  }

  /** The regime starts with its bars before the window, and each event brings those of its own instant. */
  lemma RegimeIsReplayed(input: Input, regimeBars: seq<Bar>, start: Option<int>, end: Option<int>)
    requires input.Valid() && Load(input, regimeBars, start, end).Ok?
    ensures var l, from := Load(input, regimeBars, start, end).value, WindowStart(Normalized(input).value, start);
            && (forall b :: b in l.regime <==> b in regimeBars && b.time.instant < from)
            && forall k, b | 0 <= k < |l.events| ::
                 b in l.events[k].regimeBars <==> b in regimeBars && b.time.instant == l.events[k].time.instant
  {
    hide Normalized, EventTimes, EventBars, AtTime, UpTo, SortByTime, AllBars, Earliest, HistoriesAt;
    var l := Load(input, regimeBars, start, end).value;
    SortingKeepsMembers(regimeBars);
    SliceMembers(SortByTime(regimeBars), WindowStart(Normalized(input).value, start));
    forall k, b | 0 <= k < |l.events|
      ensures b in l.events[k].regimeBars <==> b in regimeBars && b.time.instant == l.events[k].time.instant
    {
      SliceMembers(SortByTime(regimeBars), l.events[k].time.instant);
    }
  }

  lemma {:induction false} SpanOf(bars: seq<Bar>)
    requires |bars| > 0
    ensures forall b | b in bars :: Earliest(bars) <= b.time.instant <= Latest(bars)
    ensures exists b :: b in bars && b.time.instant == Earliest(bars)
    ensures exists b :: b in bars && b.time.instant == Latest(bars)
  {
    var init, last := bars[..|bars| - 1], bars[|bars| - 1];
    assert bars == init + [last] && last in bars;
    if |bars| > 1 {
      SpanOf(init);
      var first :| first in init && first.time.instant == Earliest(init);
      var final :| final in init && final.time.instant == Latest(init);
      assert first in bars && final in bars;
    }
  }

  lemma {:induction false} AllBarsMembers(d: Input, n: nat)
    requires d.Valid() && n <= |d.keys|
    ensures forall b :: b in AllBars(d, n) <==> exists i | 0 <= i < n :: b in d.data[d.keys[i]]
  {
    if n > 0 {
      AllBarsMembers(d, n - 1);
    }
  }

  /** Without a configured start or end the window spans the bars: it includes every one, and no more. */
  lemma WindowSpansTheBars(d: Input)
    requires d.Valid() && NoneEmpty(d) && |d.keys| > 0
    ensures forall k, b | k in d.data && b in d.data[k] :: WindowStart(d, None) <= b.time.instant <= WindowEnd(d, None)
    ensures exists k, b :: k in d.data && b in d.data[k] && b.time.instant == WindowStart(d, None)
    ensures exists k, b :: k in d.data && b in d.data[k] && b.time.instant == WindowEnd(d, None)
    ensures forall t :: WindowStart(d, Some(t)) == t == WindowEnd(d, Some(t))
  {
    AllBarsMembers(d, |d.keys|);
    SpanOf(AllBars(d, |d.keys|));
    hide AllBars, Earliest, Latest, NoneEmpty;
    var all := AllBars(d, |d.keys|);
    var first :| first in all && first.time.instant == Earliest(all);
    var final :| final in all && final.time.instant == Latest(all);
    var i :| 0 <= i < |d.keys| && first in d.data[d.keys[i]];
    var j :| 0 <= j < |d.keys| && final in d.data[d.keys[j]];
    assert d.keys[i] in d.data && d.keys[j] in d.data;
  }

  // ----- The whole backtest

  /** What a backtest of some bars returns: its final capital, or the exception it raises. */
  function Outcome(c: Config, f: Filters, limits: RiskLimits, input: Input, regimeBars: seq<Bar>, start: Option<int>,
                   end: Option<int>): Result<real, Error>
    requires input.Valid()
  {
    if limits.accountCapital != c.initialCapital then Err(ValueError)
    else
      match Load(input, regimeBars, start, end)
      case Err(e) => Err(e)
      case Ok(l) =>
        match AfterRun(c, f, limits, StartPortfolio(c, l.histories, l.regime), l.events)
        case Err(e) => Err(e)
        case Ok(s) => Ok(s.ledger.cash)
  }

  /** Load the bars, and run the loop over them. */
  method Backtest(c: Config, f: Filters, limits: RiskLimits, input: Input, regimeBars: seq<Bar>, start: Option<int>,
                  end: Option<int>) returns (r: Result<real, Error>)
    requires input.Valid() && Filed(input)
    ensures r == Outcome(c, f, limits, input, regimeBars, start, end)
  {
    hide Load, AfterRun, Filed, HistoriesFit, InOrder, Past;
    if limits.accountCapital != c.initialCapital {
      return Err(ValueError);
    }
    var loaded := LoadBars(input, regimeBars, start, end);
    if loaded.Err? {
      return Err(loaded.error);
    }
    LoadedMeetsTheLoop(input, regimeBars, start, end);
    var l := loaded.value;
    var backtester := new TechnicalOnlyBacktester(c, f, limits, l.histories, l.regime);
    r := backtester.Run(l.events);
  }
}
