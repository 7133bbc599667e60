/**
 Forecast aggregation behind the `forecast` and `hourly_forecast` pages of
 the weather front-end (weather_project/src/main.py).

 The daily view folds the provider's 3-hour samples into at most five
 per-date summaries, skipping the current date; the hourly view projects
 the first eight samples. Calendar formatting (weekday names, 12-hour
 clock) is library code outside this model and is passed in as a function.
 */
module Forecast {

  /** One 3-hour slot of the forecast feed: `dt_txt`, `main.temp_min`,
      `main.temp_max`, `main.temp` and the first `weather` entry's
      `description` and `icon`. */
  datatype Sample = Sample(dtTxt: string, tempMin: real, tempMax: real, temp: real,
                           description: string, icon: string)

  /** The per-date record of the daily view (a value of the date-keyed dictionary). */
  datatype Summary = Summary(day: string, tempMin: real, tempMax: real,
                             description: string, icon: string)

  /** An insertion-ordered dictionary from date to summary: the keys in the
      order they were first inserted, and the entries they map to. */
  datatype Table = Table(keys: seq<string>, entries: map<string, Summary>)

  /** A row of the hourly view. */
  datatype HourlyRow = HourlyRow(time: string, temp: real, description: string, icon: string)

  /** The daily view shows at most this many dates. */
  const DailyLimit := 5
  /** The hourly view shows at most this many samples. */
  const HourlyLimit := 8

  /** Python's two-argument `min`: the first argument unless the second is smaller. */
  function Min(a: real, b: real): real { if b < a then b else a }

  /** Python's two-argument `max`: the first argument unless the second is larger. */
  function Max(a: real, b: real): real { if b > a then b else a }

  /** `dt_txt.split(" ")[0]`: the text before the first space, or all of it. */
  function DateKey(dtTxt: string): (date: string)
    ensures date <= dtTxt
    ensures ' ' !in date
    ensures |date| < |dtTxt| ==> dtTxt[|date|] == ' '
  {
    if dtTxt == [] || dtTxt[0] == ' ' then []
    else [dtTxt[0]] + DateKey(dtTxt[1..])
  }

  /** The three properties of DateKey's contract determine its result. */
  lemma DateKeyUnique(dtTxt: string, date: string)
    requires date <= dtTxt && ' ' !in date
    requires |date| < |dtTxt| ==> dtTxt[|date|] == ' '
    ensures DateKey(dtTxt) == date
  {
    var d := DateKey(dtTxt);
    assert d == dtTxt[..|d|] && date == dtTxt[..|date|];
  }

  /** A timestamp "<date> <time>" has date key <date>, and so does a bare date. */
  lemma DateKeyOfTimestamp(date: string, time: string)
    requires ' ' !in date
    ensures DateKey(date + " " + time) == date
    ensures DateKey(date) == date
  {
    DateKeyUnique(date + " " + time, date);
    DateKeyUnique(date, date);
  }

  /** The calendar date of a sample. */
  function DateOf(s: Sample): string { DateKey(s.dtTxt) }

  /** Does some sample fall on `date`? */
  ghost predicate Occurs(samples: seq<Sample>, date: string) {
    exists i :: 0 <= i < |samples| && DateOf(samples[i]) == date
  }

  /** Position of the first sample on `date`, or |samples| if there is none. */
  function FirstIndex(samples: seq<Sample>, date: string): (r: nat)
    ensures r <= |samples|
    ensures r < |samples| ==> DateOf(samples[r]) == date
    ensures forall i :: 0 <= i < r ==> DateOf(samples[i]) != date
    ensures r == |samples| <==> !Occurs(samples, date)
  {
    if samples == [] then 0
    else if DateOf(samples[0]) == date then 0
    else
      var r := 1 + FirstIndex(samples[1..], date);
      assert forall i :: 1 <= i < |samples| ==> samples[i] == samples[1..][i - 1];
      r
  }

  /** Appending a sample keeps the first position of a date already seen,
      and makes the new sample the first of a date not seen before. */
  lemma FirstIndexAppend(samples: seq<Sample>, x: Sample, date: string)
    ensures Occurs(samples, date) ==> FirstIndex(samples + [x], date) == FirstIndex(samples, date)
    ensures !Occurs(samples, date) && DateOf(x) == date ==> FirstIndex(samples + [x], date) == |samples|
  {
    var longer := samples + [x];
    assert forall i :: 0 <= i < |samples| ==> longer[i] == samples[i];
    assert longer[|samples|] == x;
  }

  /** A date's summary as created by its first sample. */
  function Seed(date: string, s: Sample, weekday: string -> string): Summary {
    Summary(weekday(date), s.tempMin, s.tempMax, s.description, s.icon)
  }

  /** A later sample on the same date lowers the minimum and raises the maximum;
      nothing else in the summary changes. */
  function Widen(e: Summary, s: Sample): Summary {
    e.(tempMin := Min(e.tempMin, s.tempMin), tempMax := Max(e.tempMax, s.tempMax))
  }

  /** One iteration of the daily loop. */
  function Absorb(t: Table, s: Sample, today: string, weekday: string -> string): Table {
    var date := DateOf(s);
    if date == today then t
    else if date !in t.entries then Table(t.keys + [date], t.entries[date := Seed(date, s, weekday)])
    else Table(t.keys, t.entries[date := Widen(t.entries[date], s)])
  }

  /** The keys are distinct and are exactly the dates that have an entry. */
  ghost predicate WellFormed(t: Table) {
    && (forall i, j :: 0 <= i < j < |t.keys| ==> t.keys[i] != t.keys[j])
    && (forall k :: k in t.entries <==> k in t.keys)
  }

  /** The dictionary after the daily loop has consumed `samples` in order. */
  function Fold(samples: seq<Sample>, today: string, weekday: string -> string): (t: Table)
    ensures WellFormed(t)
    ensures today !in t.entries
  {
    if samples == [] then Table([], map[])
    else Absorb(Fold(samples[..|samples| - 1], today, weekday), samples[|samples| - 1], today, weekday)
  }

  /** The dictionary's values in key order (`list(daily_forecasts.values())`). */
  function Values(t: Table): seq<Summary>
    requires WellFormed(t)
  {
    seq(|t.keys|, i requires 0 <= i < |t.keys| => t.entries[t.keys[i]])
  }

  /** At most the first `limit` elements of `s` (`s[:limit]`). */
  function Take<T>(s: seq<T>, limit: nat): seq<T> {
    s[..if |s| < limit then |s| else limit]
  }

  /** The daily view: the first five summaries in dictionary order. */
  function Daily(samples: seq<Sample>, today: string, weekday: string -> string): seq<Summary> {
    Take(Values(Fold(samples, today, weekday)), DailyLimit)
  }

  /** The dates the daily view shows, in the order it shows them. */
  function DailyDates(samples: seq<Sample>, today: string, weekday: string -> string): seq<string> {
    Take(Fold(samples, today, weekday).keys, DailyLimit)
  }

  /** Splitting off the last sample: the fold of a prefix extended by one sample. */
  lemma FoldSnoc(samples: seq<Sample>, x: Sample, today: string, weekday: string -> string)
    ensures Fold(samples + [x], today, weekday) == Absorb(Fold(samples, today, weekday), x, today, weekday)
  {
    assert (samples + [x])[..|samples|] == samples;
  }

  /** A date has a summary exactly when it is not today and some sample falls on it. */
  lemma {:induction false} FoldDates(samples: seq<Sample>, today: string, weekday: string -> string, date: string)
    ensures date in Fold(samples, today, weekday).entries <==> date != today && Occurs(samples, date)
  {
    if samples != [] {
      var init, x := samples[..|samples| - 1], samples[|samples| - 1];
      assert samples == init + [x];
      FoldSnoc(init, x, today, weekday);
      FoldDates(init, today, weekday, date);
      if Occurs(samples, date) && !Occurs(init, date) {
        assert DateOf(x) == date;
      }
      if Occurs(init, date) {
        var i :| 0 <= i < |init| && DateOf(init[i]) == date;
        assert samples[i] == init[i];
      }
    }
  }

  /** What one iteration does to the keys: nothing, or appends a new date. */
  lemma AbsorbKeys(t: Table, x: Sample, today: string, weekday: string -> string)
    requires WellFormed(t)
    ensures var keys := Absorb(t, x, today, weekday).keys;
      || keys == t.keys
      || (keys == t.keys + [DateOf(x)] && DateOf(x) != today && DateOf(x) !in t.entries)
  {
  }

  /** `dates` are listed in order of their first appearance in `samples`. */
  ghost predicate FirstAppearanceOrder(samples: seq<Sample>, dates: seq<string>) {
    forall i, j :: 0 <= i < j < |dates| ==> FirstIndex(samples, dates[i]) < FirstIndex(samples, dates[j])
  }

  /** A date already in the dictionary keeps its first position when a sample
      is appended; a date the appended sample adds first appears at its position. */
  lemma FoldFirstIndexStep(init: seq<Sample>, x: Sample, today: string, weekday: string -> string, date: string)
    ensures date in Fold(init, today, weekday).entries ==>
      FirstIndex(init + [x], date) == FirstIndex(init, date) < |init|
    ensures date !in Fold(init, today, weekday).entries && date == DateOf(x) && date != today ==>
      FirstIndex(init + [x], date) == |init|
  {
    FoldDates(init, today, weekday, date);
    FirstIndexAppend(init, x, date);
  }

  /** The keys are in order of first appearance in the input, not sorted by date. */
  lemma {:induction false} FoldOrder(samples: seq<Sample>, today: string, weekday: string -> string)
    ensures FirstAppearanceOrder(samples, Fold(samples, today, weekday).keys)
  {
    if samples != [] {
      var init, x := samples[..|samples| - 1], samples[|samples| - 1];
      assert samples == init + [x];
      var before := Fold(init, today, weekday);
      var keys := Fold(samples, today, weekday).keys;
      FoldSnoc(init, x, today, weekday);
      AbsorbKeys(before, x, today, weekday);
      FoldOrder(init, today, weekday);
      forall k | k in before.keys
        ensures FirstIndex(samples, k) == FirstIndex(init, k) < |init|
      {
        FoldFirstIndexStep(init, x, today, weekday, k);
      }
      if keys != before.keys {
        var date := DateOf(x);
        FoldFirstIndexStep(init, x, today, weekday, date);
        assert keys[|before.keys|] == date;
        forall i | 0 <= i < |before.keys| ensures keys[i] == before.keys[i] { }
      }
    }
  }

  /** First wins: a date's weekday name, description and icon come from the
      first sample on that date. */
  lemma {:induction false} FoldFirstWins(samples: seq<Sample>, today: string, weekday: string -> string, date: string)
    requires date != today && Occurs(samples, date)
    ensures date in Fold(samples, today, weekday).entries && FirstIndex(samples, date) < |samples|
    ensures var e := Fold(samples, today, weekday).entries[date];
      var first := samples[FirstIndex(samples, date)];
      e.day == weekday(date) && e.description == first.description && e.icon == first.icon
  {
    var init, x := samples[..|samples| - 1], samples[|samples| - 1];
    assert samples == init + [x];
    var before := Fold(init, today, weekday);
    FoldDates(samples, today, weekday, date);
    FoldDates(init, today, weekday, date);
    var e := Fold(samples, today, weekday).entries[date];
    FoldSnoc(init, x, today, weekday);
    AbsorbEntry(before, x, today, weekday, date);
    FoldFirstIndexStep(init, x, today, weekday, date);
    if date in before.entries {
      FoldFirstWins(init, today, weekday, date);
      var p := FirstIndex(init, date);
      assert samples[p] == init[p];
      var b := before.entries[date];
      assert e.day == b.day && e.description == b.description && e.icon == b.icon;
    } else {
      assert DateOf(x) == date && e == Seed(date, x, weekday);
      assert samples[|init|] == x;
    }
  }

  /** What one iteration does to the entry of `date`. */
  lemma AbsorbEntry(t: Table, x: Sample, today: string, weekday: string -> string, date: string)
    ensures var u := Absorb(t, x, today, weekday);
      DateOf(x) != date || date == today ==>
        (date in u.entries <==> date in t.entries) && (date in t.entries ==> u.entries[date] == t.entries[date])
    ensures var u := Absorb(t, x, today, weekday);
      DateOf(x) == date && date != today ==>
        date in u.entries && u.entries[date] == if date in t.entries then Widen(t.entries[date], x) else Seed(date, x, weekday)
  {
  }

  /** `e`'s temperatures are the minimum of `temp_min` and the maximum of
      `temp_max` over the samples on `date`: bounds that some sample attains. */
  ghost predicate Spans(samples: seq<Sample>, date: string, e: Summary) {
    && (forall i :: 0 <= i < |samples| && DateOf(samples[i]) == date ==>
          e.tempMin <= samples[i].tempMin && samples[i].tempMax <= e.tempMax)
    && (exists i :: 0 <= i < |samples| && DateOf(samples[i]) == date && samples[i].tempMin == e.tempMin)
    && (exists i :: 0 <= i < |samples| && DateOf(samples[i]) == date && samples[i].tempMax == e.tempMax)
  }

  /** The first sample on a date spans it alone. */
  lemma SpansSeed(init: seq<Sample>, x: Sample, date: string, weekday: string -> string)
    requires !Occurs(init, date) && DateOf(x) == date
    ensures Spans(init + [x], date, Seed(date, x, weekday))
  {
    var samples := init + [x];
    assert samples[|init|] == x;
    forall i | 0 <= i < |init| ensures DateOf(samples[i]) != date {
      assert samples[i] == init[i];
    }
  }

  /** A later sample on the date widens the span to include it. */
  lemma SpansWiden(init: seq<Sample>, x: Sample, date: string, e: Summary)
    requires Spans(init, date, e) && DateOf(x) == date
    ensures Spans(init + [x], date, Widen(e, x))
  {
    var samples := init + [x];
    var w := Widen(e, x);
    assert samples[|init|] == x;
    assert forall i :: 0 <= i < |init| ==> samples[i] == init[i];
    var lo :| 0 <= lo < |init| && DateOf(init[lo]) == date && init[lo].tempMin == e.tempMin;
    var hi :| 0 <= hi < |init| && DateOf(init[hi]) == date && init[hi].tempMax == e.tempMax;
    var lo' := if x.tempMin < e.tempMin then |init| else lo;
    var hi' := if x.tempMax > e.tempMax then |init| else hi;
    assert DateOf(samples[lo']) == date && samples[lo'].tempMin == w.tempMin;
    assert DateOf(samples[hi']) == date && samples[hi'].tempMax == w.tempMax;
  }

  /** A sample on another date leaves the span as it is. */
  lemma SpansOther(init: seq<Sample>, x: Sample, date: string, e: Summary)
    requires Spans(init, date, e) && DateOf(x) != date
    ensures Spans(init + [x], date, e)
  {
    var samples := init + [x];
    assert forall i :: 0 <= i < |init| ==> samples[i] == init[i];
    var lo :| 0 <= lo < |init| && DateOf(init[lo]) == date && init[lo].tempMin == e.tempMin;
    var hi :| 0 <= hi < |init| && DateOf(init[hi]) == date && init[hi].tempMax == e.tempMax;
    assert samples[lo] == init[lo] && samples[hi] == init[hi];
  }

  /** A date's temperatures are the minimum of `temp_min` and the maximum of
      `temp_max` over all samples on that date. */
  lemma {:induction false} FoldBounds(samples: seq<Sample>, today: string, weekday: string -> string, date: string)
    requires date != today && Occurs(samples, date)
    ensures date in Fold(samples, today, weekday).entries
    ensures Spans(samples, date, Fold(samples, today, weekday).entries[date])
  {
    var init, x := samples[..|samples| - 1], samples[|samples| - 1];
    assert samples == init + [x];
    var before := Fold(init, today, weekday);
    FoldDates(samples, today, weekday, date);
    FoldDates(init, today, weekday, date);
    FoldSnoc(init, x, today, weekday);
    AbsorbEntry(before, x, today, weekday, date);
    if date in before.entries {
      FoldBounds(init, today, weekday, date);
      if DateOf(x) == date {
        SpansWiden(init, x, date, before.entries[date]);
      } else {
        SpansOther(init, x, date, before.entries[date]);
      }
    } else {
      SpansSeed(init, x, date, weekday);
    }
  }

  /** When every sample has `temp_min <= temp_max`, so does every summary. */
  lemma {:induction false} FoldMinLeMax(samples: seq<Sample>, today: string, weekday: string -> string, date: string)
    requires forall i :: 0 <= i < |samples| ==> samples[i].tempMin <= samples[i].tempMax
    requires date != today && Occurs(samples, date)
    ensures date in Fold(samples, today, weekday).entries
    ensures Fold(samples, today, weekday).entries[date].tempMin <= Fold(samples, today, weekday).entries[date].tempMax
  {
    FoldBounds(samples, today, weekday, date);
    FoldFirstWins(samples, today, weekday, date);
    var p := FirstIndex(samples, date);
    assert DateOf(samples[p]) == date;
  }

  /** The daily view has at most five entries, one per shown date, in the
      same order, and each is that date's summary. */
  lemma DailyShape(samples: seq<Sample>, today: string, weekday: string -> string)
    ensures var t := Fold(samples, today, weekday);
      var dates := DailyDates(samples, today, weekday);
      var daily := Daily(samples, today, weekday);
      && |daily| == |dates| <= DailyLimit
      && (|t.keys| >= DailyLimit ==> |dates| == DailyLimit)
      && dates <= t.keys
      && forall i :: 0 <= i < |daily| ==> dates[i] in t.entries && daily[i] == t.entries[dates[i]]
  {
  }

  /** The shown dates are distinct, never today, and each the date of some sample. */
  lemma DailyDatesAreFutureDates(samples: seq<Sample>, today: string, weekday: string -> string)
    ensures var dates := DailyDates(samples, today, weekday);
      && (forall i, j :: 0 <= i < j < |dates| ==> dates[i] != dates[j])
      && (forall i :: 0 <= i < |dates| ==> dates[i] != today && Occurs(samples, dates[i]))
  {
    var t := Fold(samples, today, weekday);
    var dates := DailyDates(samples, today, weekday);
    forall i | 0 <= i < |dates| ensures dates[i] != today && Occurs(samples, dates[i]) {
      assert dates[i] == t.keys[i];
      FoldDates(samples, today, weekday, dates[i]);
    }
  }

  /** The shown dates are the earliest-appearing non-today dates, in order of
      first appearance: every other non-today date of the input first appears
      after all of them, and there is such a date only when five are shown. */
  lemma DailyDatesAreFirstAppearances(samples: seq<Sample>, today: string, weekday: string -> string)
    ensures FirstAppearanceOrder(samples, DailyDates(samples, today, weekday))
    ensures var dates := DailyDates(samples, today, weekday);
      forall d :: d != today && Occurs(samples, d) && d !in dates ==>
        |dates| == DailyLimit && forall i :: 0 <= i < |dates| ==> FirstIndex(samples, dates[i]) < FirstIndex(samples, d)
  {
    var keys := Fold(samples, today, weekday).keys;
    var dates := DailyDates(samples, today, weekday);
    FoldOrder(samples, today, weekday);
    assert dates == keys[..|dates|];
    forall d | d != today && Occurs(samples, d) && d !in dates
      ensures |dates| == DailyLimit && forall i :: 0 <= i < |dates| ==> FirstIndex(samples, dates[i]) < FirstIndex(samples, d)
    {
      FoldDates(samples, today, weekday, d);
      var j :| 0 <= j < |keys| && keys[j] == d;
      forall i | 0 <= i < |dates| ensures FirstIndex(samples, dates[i]) < FirstIndex(samples, d) {
        assert dates[i] == keys[i];
      }
    }
  }

  /** Every shown summary: its weekday, description and icon come from the
      first sample on its date, its temperatures span all samples on that
      date, and its minimum does not exceed its maximum when no sample's does. */
  lemma DailyEntry(samples: seq<Sample>, today: string, weekday: string -> string, i: nat)
    requires i < |Daily(samples, today, weekday)|
    ensures var date := DailyDates(samples, today, weekday)[i];
      var e := Daily(samples, today, weekday)[i];
      && date != today
      && FirstIndex(samples, date) < |samples|
      && e.day == weekday(date)
      && e.description == samples[FirstIndex(samples, date)].description
      && e.icon == samples[FirstIndex(samples, date)].icon
      && (forall k :: 0 <= k < |samples| && DateOf(samples[k]) == date ==>
            e.tempMin <= samples[k].tempMin && samples[k].tempMax <= e.tempMax)
      && ((forall k :: 0 <= k < |samples| ==> samples[k].tempMin <= samples[k].tempMax) ==> e.tempMin <= e.tempMax)
  {
    DailyShape(samples, today, weekday);
    var date := DailyDates(samples, today, weekday)[i];
    FoldDates(samples, today, weekday, date);
    FoldFirstWins(samples, today, weekday, date);
    FoldBounds(samples, today, weekday, date);
    if forall k :: 0 <= k < |samples| ==> samples[k].tempMin <= samples[k].tempMax {
      FoldMinLeMax(samples, today, weekday, date);
    }
  }

  /** Samples on today's date and on one other date give exactly one summary. */
  lemma OneFutureDate(samples: seq<Sample>, today: string, other: string, weekday: string -> string)
    requires other != today
    requires forall i :: 0 <= i < |samples| ==> DateOf(samples[i]) == today || DateOf(samples[i]) == other
    requires Occurs(samples, other)
    ensures |Daily(samples, today, weekday)| == 1
  {
    var keys := Fold(samples, today, weekday).keys;
    FoldDates(samples, today, weekday, other);
    if |keys| > 1 {
      FoldDates(samples, today, weekday, keys[0]);
      FoldDates(samples, today, weekday, keys[1]);
    }
  }

  /** Two samples on one future date give one summary: the first sample's
      weekday, description and icon, the lower minimum and the higher maximum. */
  lemma TwoSamplesOneDate(a: Sample, b: Sample, today: string, weekday: string -> string)
    requires DateOf(a) == DateOf(b) != today
    ensures Daily([a, b], today, weekday)
         == [Summary(weekday(DateOf(a)), Min(a.tempMin, b.tempMin), Max(a.tempMax, b.tempMax), a.description, a.icon)]
  {
    var date := DateOf(a);
    FoldSnoc([], a, today, weekday);
    assert [] + [a] == [a];
    var t0 := Fold([], today, weekday);
    var t1 := Fold([a], today, weekday);
    var seed := Seed(date, a, weekday);
    assert t1 == Table(t0.keys + [date], t0.entries[date := seed]);
    assert t0.keys + [date] == [date];
    FoldSnoc([a], b, today, weekday);
    assert [a] + [b] == [a, b];
    var t2 := Fold([a, b], today, weekday);
    var e := Widen(seed, b);
    assert t2 == Table([date], map[date := e]);
    assert Values(t2) == [e];
  }

  /** (10, 15) then (8, 20) on one future date give min 8 and max 20, with
      the first sample's description and icon. */
  lemma TwoSamplesExample(date: string, today: string, weekday: string -> string)
    requires ' ' !in date && date != today
    ensures var a := Sample(date + " " + "09:00:00", 10.0, 15.0, 12.0, "clear sky", "01d");
      var b := Sample(date + " " + "12:00:00", 8.0, 20.0, 14.0, "light rain", "10d");
      Daily([a, b], today, weekday) == [Summary(weekday(date), 8.0, 20.0, "clear sky", "01d")]
  {
    var a := Sample(date + " " + "09:00:00", 10.0, 15.0, 12.0, "clear sky", "01d");
    var b := Sample(date + " " + "12:00:00", 8.0, 20.0, 14.0, "light rain", "10d");
    DateKeyOfTimestamp(date, "09:00:00");
    DateKeyOfTimestamp(date, "12:00:00");
    TwoSamplesOneDate(a, b, today, weekday);
  }

  /** The daily loop: a `for` over the samples that updates the date-keyed
      dictionary in place, then keeps the first five values. */
  method DailyForecast(samples: seq<Sample>, today: string, weekday: string -> string)
    returns (summaries: seq<Summary>)
    ensures summaries == Daily(samples, today, weekday)
  {
    var keys: seq<string> := [];
    var entries: map<string, Summary> := map[];
    for i := 0 to |samples|
      invariant Table(keys, entries) == Fold(samples[..i], today, weekday)
    {
      FoldSnoc(samples[..i], samples[i], today, weekday);
      assert samples[..i + 1] == samples[..i] + [samples[i]];
      var item := samples[i];
      var date := DateKey(item.dtTxt);
      if date == today {
        continue;
      }
      if date !in entries {
        keys := keys + [date];
        entries := entries[date := Summary(weekday(date), item.tempMin, item.tempMax, item.description, item.icon)];
      } else {
        var e := entries[date];
        entries := entries[date := e.(tempMin := Min(e.tempMin, item.tempMin),
                                      tempMax := Max(e.tempMax, item.tempMax))];
      }
    }
    assert samples[..|samples|] == samples;
    var values := Values(Table(keys, entries));
    summaries := Take(values, DailyLimit);
  }

  /** The hourly loop: the first eight samples, in input order, each
      projected to a display row; no date is skipped. */
  method HourlyForecast(samples: seq<Sample>, timeLabel: string -> string) returns (rows: seq<HourlyRow>)
    ensures |rows| == if |samples| < HourlyLimit then |samples| else HourlyLimit
    ensures forall i :: 0 <= i < |rows| ==>
      && rows[i].time == timeLabel(samples[i].dtTxt)
      && rows[i].temp == samples[i].temp
      && rows[i].description == samples[i].description
      && rows[i].icon == samples[i].icon
  {
    var window := Take(samples, HourlyLimit);
    rows := [];
    for i := 0 to |window|
      invariant |rows| == i
      invariant forall k :: 0 <= k < i ==>
        rows[k] == HourlyRow(timeLabel(window[k].dtTxt), window[k].temp, window[k].description, window[k].icon)
    {
      var item := window[i];
      rows := rows + [HourlyRow(timeLabel(item.dtTxt), item.temp, item.description, item.icon)];
    }
  }
}
