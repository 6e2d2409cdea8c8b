/**
 * The metrics engine: day-over-day percentage changes of the EUR->USD rate,
 * aggregate totals, and the report that carries them.
 *
 * Rates are `real`. Python's `round(x, n)` is not modelled: every operation
 * that rounds takes the rounding function as a parameter `rnd`.
 */
module Calculator {
  import opened Wrappers
  import opened RateData
  import opened StringOrder

  const Base: string := "EUR"
  const Quote: string := "USD"
  /** Decimal places kept for rates and for percentage changes. */
  const RateDigits: nat := 6
  const PctDigits: nat := 4

  /** `round(x, n)`. */
  type Rounding = (real, nat) -> real

  datatype DailyMetric = DailyMetric(date: string, rate: real, pctChange: Option<real>)

  datatype Totals = Totals(startRate: Option<real>, endRate: Option<real>,
                           totalPctChange: Option<real>, meanRate: Option<real>)

  /** The response object; `daily` is `None` when the member is absent. */
  datatype Report = Report(base: string, symbol: string, startDate: Option<string>, endDate: Option<string>,
                           breakdown: string, totals: Totals, daily: Option<seq<DailyMetric>>)

  // ---------------------------------------------------------------------------
  // Percentage change

  /** `_safe_pct_change`: the change from `oldValue` to `newValue` in percent,
      absent instead of a division by zero. */
  function SafePctChange(oldValue: real, newValue: real): (r: Option<real>)
    ensures r.None? <==> oldValue == 0.0
    ensures r.Some? ==> newValue == oldValue + oldValue * r.value / 100.0
  {
    if oldValue == 0.0 then None
    else
      var pct := ((newValue - oldValue) / oldValue) * 100.0;
      assert oldValue * pct / 100.0 == newValue - oldValue;
      Some(pct)
  }

  /** `round(p, 4) if p is not None else None`. */
  function RoundPct(p: Option<real>, rnd: Rounding): Option<real>
  {
    match p
    case None => None
    case Some(x) => Some(rnd(x, PctDigits))
  }

  // ---------------------------------------------------------------------------
  // Daily metrics

  /** The USD rate a date's value carries: the "USD" member of an object,
      a bare number itself, nothing for null. */
  function UsdRate(e: RateEntry): (r: Option<real>)
    ensures r.Some? <==> e.Number? || (e.Bundle? && Quote in e.quotes)
    ensures e.Number? ==> r == Some(e.value)
    ensures e.Bundle? && Quote in e.quotes ==> r == Some(e.quotes[Quote])
  {
    match e
    case Bundle(quotes) => if Quote in quotes then Some(quotes[Quote]) else None
    case Number(v) => Some(v)
    case Null => None
  }

  predicate HasQuote(rates: map<string, RateEntry>, d: string)
  {
    d in rates && UsdRate(rates[d]).Some?
  }

  /** The unrounded USD rate of a date that has one. */
  function RateOn(rates: map<string, RateEntry>, d: string): real
    requires HasQuote(rates, d)
  {
    UsdRate(rates[d]).value
  }

  /** The change reported for a rate, given the previously emitted (unrounded) rate. */
  function ChangeFrom(previous: Option<real>, current: real, rnd: Rounding): Option<real>
  {
    match previous
    case None => None
    case Some(p) => RoundPct(SafePctChange(p, current), rnd)
  }

  /** The metrics emitted for `dates`, in order, when the last emitted rate was `previous`. */
  function MetricsFrom(dates: seq<string>, rates: map<string, RateEntry>, previous: Option<real>,
                       rnd: Rounding): (r: seq<DailyMetric>)
    requires forall d :: d in dates ==> d in rates
    ensures |r| <= |dates|
    decreases |dates|
  {
    if dates == [] then []
    else
      match UsdRate(rates[dates[0]])
      case None => MetricsFrom(dates[1..], rates, previous, rnd)
      case Some(v) =>
        [DailyMetric(dates[0], rnd(v, RateDigits), ChangeFrom(previous, v, rnd))]
        + MetricsFrom(dates[1..], rates, Some(v), rnd)
  }

  /** What `calculate_daily_metrics` returns for a decoded response. */
  ghost function DailyMetrics(data: Payload, rnd: Rounding): (r: seq<DailyMetric>)
    ensures data.rates.None? ==> r == []
    ensures data.rates.Some? ==> |r| <= |data.rates.value|
  {
    if !Truthy(data) || data.rates.None? then []
    else
      assert |data.rates.value.Keys| == |data.rates.value|;
      MetricsFrom(SortedKeys(data.rates.value.Keys), data.rates.value, None, rnd)
  }

  /** `calculate_daily_metrics`: walks the dates in ascending order, skips
      those without a USD rate, and chains each change from the rate emitted
      before it. */
  method CalculateDailyMetrics(data: Payload, rnd: Rounding) returns (daily: seq<DailyMetric>)
    ensures daily == DailyMetrics(data, rnd)
  {
    if !Truthy(data) || data.rates.None? {
      return [];
    }
    var rates := data.rates.value;
    var sortedDates := Sorted(rates.Keys);
    daily := [];
    var previousRate: Option<real> := None;
    for i := 0 to |sortedDates|
      invariant daily + MetricsFrom(sortedDates[i..], rates, previousRate, rnd)
                == MetricsFrom(sortedDates, rates, None, rnd)
    {
      var date := sortedDates[i];
      var currentRate := UsdRate(rates[date]);
      MetricsFromUnfold(sortedDates[i..], rates, previousRate, rnd);
      assert sortedDates[i..][1..] == sortedDates[i + 1..];
      if currentRate.None? {
        continue;
      }
      var pctChange: Option<real> := None;
      if previousRate.Some? {
        pctChange := SafePctChange(previousRate.value, currentRate.value);
      }
      var metric := DailyMetric(date, rnd(currentRate.value, RateDigits),
                                if pctChange.Some? then Some(rnd(pctChange.value, PctDigits)) else None);
      assert metric.pctChange == ChangeFrom(previousRate, currentRate.value, rnd);
      ghost var tail := MetricsFrom(sortedDates[i + 1..], rates, currentRate, rnd);
      assert MetricsFrom(sortedDates[i..], rates, previousRate, rnd) == [metric] + tail;
      AppendAssociative(daily, [metric], tail);
      daily := daily + [metric];
      previousRate := currentRate;
    }
  }

  lemma AppendAssociative(a: seq<DailyMetric>, b: seq<DailyMetric>, c: seq<DailyMetric>)
    ensures a + (b + c) == (a + b) + c
  {
  }

  /** One step of `MetricsFrom`. */
  lemma MetricsFromUnfold(dates: seq<string>, rates: map<string, RateEntry>, previous: Option<real>, rnd: Rounding)
    requires dates != [] && forall d :: d in dates ==> d in rates
    ensures UsdRate(rates[dates[0]]).None? ==>
              MetricsFrom(dates, rates, previous, rnd) == MetricsFrom(dates[1..], rates, previous, rnd)
    ensures UsdRate(rates[dates[0]]).Some? ==>
              var v := UsdRate(rates[dates[0]]).value;
              MetricsFrom(dates, rates, previous, rnd) ==
              [DailyMetric(dates[0], rnd(v, RateDigits), ChangeFrom(previous, v, rnd))]
              + MetricsFrom(dates[1..], rates, Some(v), rnd)
  {
  }

  // ---------------------------------------------------------------------------
  // Properties of the daily metrics

  /** The dates of a list of metrics. */
  function DatesOf(ms: seq<DailyMetric>): (ds: seq<string>)
    ensures |ds| == |ms|
  {
    seq(|ms|, i requires 0 <= i < |ms| => ms[i].date)
  }

  /** xs is obtained from ys by deleting elements. */
  predicate IsSubsequence(xs: seq<string>, ys: seq<string>)
    decreases |ys|
  {
    if xs == [] then true
    else if ys == [] then false
    else if xs[0] == ys[0] then IsSubsequence(xs[1..], ys[1..])
    else IsSubsequence(xs, ys[1..])
  }

  lemma {:induction false} MetricsFromSubsequence(dates: seq<string>, rates: map<string, RateEntry>,
                                                  previous: Option<real>, rnd: Rounding)
    requires forall d :: d in dates ==> d in rates
    ensures IsSubsequence(DatesOf(MetricsFrom(dates, rates, previous, rnd)), dates)
    ensures |MetricsFrom(dates, rates, previous, rnd)| <= |dates|
    decreases |dates|
  {
    if dates != [] {
      var r := MetricsFrom(dates, rates, previous, rnd);
      match UsdRate(rates[dates[0]])
      case None =>
        MetricsFromSubsequence(dates[1..], rates, previous, rnd);
        SubsequenceDropHead(DatesOf(r), dates);
      case Some(v) =>
        var tail := MetricsFrom(dates[1..], rates, Some(v), rnd);
        MetricsFromSubsequence(dates[1..], rates, Some(v), rnd);
        assert DatesOf(r)[1..] == DatesOf(tail);
    }
  }

  /** Skipping the head of ys keeps a subsequence a subsequence. */
  lemma {:induction false} SubsequenceDropHead(xs: seq<string>, ys: seq<string>)
    requires ys != [] && IsSubsequence(xs, ys[1..])
    ensures IsSubsequence(xs, ys)
    decreases |ys|, 0
  {
    if xs != [] && xs[0] == ys[0] {
      SubsequenceDropFirst(xs, ys[1..]);
    }
  }

  /** Dropping the first element of a subsequence keeps it a subsequence. */
  lemma {:induction false} SubsequenceDropFirst(xs: seq<string>, zs: seq<string>)
    requires xs != [] && IsSubsequence(xs, zs)
    ensures IsSubsequence(xs[1..], zs)
    decreases |zs|, 1
  {
    assert zs != [];
    if xs[0] == zs[0] {
      SubsequenceDropHead(xs[1..], zs);
    } else {
      SubsequenceDropFirst(xs, zs[1..]);
      SubsequenceDropHead(xs[1..], zs);
    }
  }

  /** The emitted dates are exactly the given dates that carry a USD rate. */
  lemma {:induction false} MetricsFromDates(dates: seq<string>, rates: map<string, RateEntry>,
                                            previous: Option<real>, rnd: Rounding)
    requires forall d :: d in dates ==> d in rates
    ensures forall d :: d in DatesOf(MetricsFrom(dates, rates, previous, rnd)) <==> d in dates && HasQuote(rates, d)
    decreases |dates|
  {
    if dates != [] {
      var r := MetricsFrom(dates, rates, previous, rnd);
      match UsdRate(rates[dates[0]])
      case None =>
        MetricsFromDates(dates[1..], rates, previous, rnd);
        assert forall d :: d in dates <==> d == dates[0] || d in dates[1..];
      case Some(v) =>
        var tail := MetricsFrom(dates[1..], rates, Some(v), rnd);
        MetricsFromDates(dates[1..], rates, Some(v), rnd);
        assert DatesOf(r) == [dates[0]] + DatesOf(tail);
        assert forall d :: d in dates <==> d == dates[0] || d in dates[1..];
    }
  }

  /** Over ascending dates the emitted dates ascend strictly. */
  lemma {:induction false} MetricsFromAscending(dates: seq<string>, rates: map<string, RateEntry>,
                                                previous: Option<real>, rnd: Rounding)
    requires forall d :: d in dates ==> d in rates
    requires StrictlySorted(dates)
    ensures StrictlySorted(DatesOf(MetricsFrom(dates, rates, previous, rnd)))
    decreases |dates|
  {
    if dates != [] {
      var r := MetricsFrom(dates, rates, previous, rnd);
      match UsdRate(rates[dates[0]])
      case None =>
        MetricsFromAscending(dates[1..], rates, previous, rnd);
      case Some(v) =>
        var tail := MetricsFrom(dates[1..], rates, Some(v), rnd);
        MetricsFromAscending(dates[1..], rates, Some(v), rnd);
        MetricsFromDates(dates[1..], rates, Some(v), rnd);
        var ds := DatesOf(r);
        assert ds == [dates[0]] + DatesOf(tail);
        forall i, j | 0 <= i < j < |ds|
          ensures Less(ds[i], ds[j])
        {
          if i == 0 {
            assert ds[j] in DatesOf(tail);
            var k :| 1 <= k < |dates| && dates[k] == ds[j];
          } else {
            assert ds[i] == DatesOf(tail)[i - 1] && ds[j] == DatesOf(tail)[j - 1];
          }
        }
    }
  }

  /** Each metric carries its date's USD rate, rounded to six places. */
  lemma {:induction false} MetricsFromRates(dates: seq<string>, rates: map<string, RateEntry>,
                                            previous: Option<real>, rnd: Rounding)
    requires forall d :: d in dates ==> d in rates
    ensures var r := MetricsFrom(dates, rates, previous, rnd);
            forall i :: 0 <= i < |r| ==>
              HasQuote(rates, r[i].date) && r[i].rate == rnd(RateOn(rates, r[i].date), RateDigits)
    decreases |dates|
  {
    if dates != [] {
      MetricsFromUnfold(dates, rates, previous, rnd);
      match UsdRate(rates[dates[0]])
      case None =>
        MetricsFromRates(dates[1..], rates, previous, rnd);
      case Some(v) =>
        MetricsFromRates(dates[1..], rates, Some(v), rnd);
    }
  }

  /** The first metric's change is measured from `previous`, every later one
      from the unrounded rate of the metric emitted just before it. */
  lemma {:induction false} MetricsFromChanges(dates: seq<string>, rates: map<string, RateEntry>,
                                              previous: Option<real>, rnd: Rounding)
    requires forall d :: d in dates ==> d in rates
    ensures var r := MetricsFrom(dates, rates, previous, rnd);
            forall i :: 0 <= i < |r| ==> HasQuote(rates, r[i].date)
    ensures var r := MetricsFrom(dates, rates, previous, rnd);
            r != [] ==> r[0].pctChange == ChangeFrom(previous, RateOn(rates, r[0].date), rnd)
    ensures var r := MetricsFrom(dates, rates, previous, rnd);
            forall i :: 0 < i < |r| ==>
              r[i].pctChange == ChangeFrom(Some(RateOn(rates, r[i - 1].date)), RateOn(rates, r[i].date), rnd)
    decreases |dates|
  {
    MetricsFromRates(dates, rates, previous, rnd);
    if dates != [] {
      var r := MetricsFrom(dates, rates, previous, rnd);
      match UsdRate(rates[dates[0]])
      case None =>
        MetricsFromChanges(dates[1..], rates, previous, rnd);
      case Some(v) =>
        var tail := MetricsFrom(dates[1..], rates, Some(v), rnd);
        MetricsFromChanges(dates[1..], rates, Some(v), rnd);
        assert r == [DailyMetric(dates[0], rnd(v, RateDigits), ChangeFrom(previous, v, rnd))] + tail;
        forall i | 0 < i < |r|
          ensures r[i].pctChange == ChangeFrom(Some(RateOn(rates, r[i - 1].date)), RateOn(rates, r[i].date), rnd)
        {
          assert r[i] == tail[i - 1];
          if i > 1 {
            assert r[i - 1] == tail[i - 2];
          }
        }
    }
  }

  // ---------------------------------------------------------------------------
  // The daily metrics of a response

  /** A falsy response, or one without "rates", yields no metrics; otherwise
      the emitted dates are a strictly ascending subsequence of the sorted
      dates, at most one per date, and they are exactly the dates that carry
      a USD rate. */
  lemma DailyMetricsDates(data: Payload, rnd: Rounding)
    ensures data.rates.None? ==> DailyMetrics(data, rnd) == []
    ensures data.rates.Some? ==>
              var rates := data.rates.value;
              var ds := DatesOf(DailyMetrics(data, rnd));
              && |ds| <= |rates|
              && IsSubsequence(ds, SortedKeys(rates.Keys))
              && StrictlySorted(ds)
              && forall d :: d in ds <==> HasQuote(rates, d)
  {
    if data.rates.Some? {
      var rates := data.rates.value;
      var dates := SortedKeys(rates.Keys);
      assert Truthy(data);
      assert |rates.Keys| == |rates|;
      MetricsFromSubsequence(dates, rates, None, rnd);
      MetricsFromAscending(dates, rates, None, rnd);
      MetricsFromDates(dates, rates, None, rnd);
    }
  }

  /** Every metric holds its date's USD rate rounded to six places; the first
      has no change; each later change is measured from the unrounded rate of
      the metric before it, and is absent exactly when that rate is zero. */
  lemma DailyMetricsChanges(data: Payload, rnd: Rounding)
    requires data.rates.Some?
    ensures var rates := data.rates.value;
            var r := DailyMetrics(data, rnd);
            && (forall i :: 0 <= i < |r| ==>
                  HasQuote(rates, r[i].date) && r[i].rate == rnd(RateOn(rates, r[i].date), RateDigits))
            && (r != [] ==> r[0].pctChange == None)
            && (forall i :: 0 < i < |r| ==>
                  r[i].pctChange == RoundPct(SafePctChange(RateOn(rates, r[i - 1].date), RateOn(rates, r[i].date)), rnd))
            && (forall i :: 0 < i < |r| ==> (r[i].pctChange == None <==> RateOn(rates, r[i - 1].date) == 0.0))
  {
    var rates := data.rates.value;
    var dates := SortedKeys(rates.Keys);
    assert Truthy(data);
    MetricsFromRates(dates, rates, None, rnd);
    MetricsFromChanges(dates, rates, None, rnd);
  }

  /** A date whose value is an object without "USD", or null, is skipped;
      a date whose value is a bare number is emitted with that number as its rate. */
  lemma DailyMetricsEntryShapes(data: Payload, rnd: Rounding, d: string)
    requires data.rates.Some? && d in data.rates.value
    ensures var e := data.rates.value[d];
            (e.Null? || (e.Bundle? && Quote !in e.quotes)) ==> d !in DatesOf(DailyMetrics(data, rnd))
    ensures var e := data.rates.value[d];
            var r := DailyMetrics(data, rnd);
            e.Number? ==> d in DatesOf(r) && forall i :: 0 <= i < |r| && r[i].date == d ==> r[i].rate == rnd(e.value, RateDigits)
  {
    DailyMetricsDates(data, rnd);
    DailyMetricsChanges(data, rnd);
  }

  // ---------------------------------------------------------------------------
  // Totals

  /** `sum(xs)`, left to right. */
  function Sum(xs: seq<real>): real
    decreases |xs|
  {
    if xs == [] then 0.0 else Sum(xs[..|xs| - 1]) + xs[|xs| - 1]
  }

  /** The rates of a list of metrics. */
  function RatesOf(daily: seq<DailyMetric>): (rs: seq<real>)
    ensures |rs| == |daily|
  {
    seq(|daily|, i requires 0 <= i < |daily| => daily[i].rate)
  }

  /** The arithmetic mean of the metrics' rates. */
  function MeanRate(daily: seq<DailyMetric>): (m: real)
    requires daily != []
    ensures m * (|daily| as real) == Sum(RatesOf(daily))
  {
    Sum(RatesOf(daily)) / (|daily| as real)
  }

  /** `calculate_totals`. */
  function CalculateTotals(daily: seq<DailyMetric>, rnd: Rounding): (t: Totals)
    ensures daily == [] <==> t == Totals(None, None, None, None)
    ensures daily != [] ==>
              && t.startRate == Some(rnd(daily[0].rate, RateDigits))
              && t.endRate == Some(rnd(daily[|daily| - 1].rate, RateDigits))
              && t.totalPctChange == RoundPct(SafePctChange(daily[0].rate, daily[|daily| - 1].rate), rnd)
              && t.meanRate == Some(rnd(MeanRate(daily), RateDigits))
  {
    if daily == [] then
      Totals(None, None, None, None)
    else
      var startRate := daily[0].rate;
      var endRate := daily[|daily| - 1].rate;
      var totalPctChange := SafePctChange(startRate, endRate);
      var meanRate := MeanRate(daily);
      Totals(Some(rnd(startRate, RateDigits)), Some(rnd(endRate, RateDigits)),
             RoundPct(totalPctChange, rnd), Some(rnd(meanRate, RateDigits)))
  }

  lemma {:induction false} SumBounds(xs: seq<real>, lo: real, hi: real)
    requires forall i :: 0 <= i < |xs| ==> lo <= xs[i] <= hi
    ensures lo * (|xs| as real) <= Sum(xs) <= hi * (|xs| as real)
    decreases |xs|
  {
    if xs != [] {
      SumBounds(xs[..|xs| - 1], lo, hi);
    }
  }

  /** The mean rate lies between the smallest and the largest rate. */
  lemma MeanRateBounds(daily: seq<DailyMetric>, lo: real, hi: real)
    requires daily != []
    requires forall i :: 0 <= i < |daily| ==> lo <= daily[i].rate <= hi
    ensures lo <= MeanRate(daily) <= hi
  {
    var n := |daily| as real;
    SumBounds(RatesOf(daily), lo, hi);
    var s := Sum(RatesOf(daily));
    assert lo * n <= s <= hi * n;
    assert s / n >= lo by {
      assert s / n - lo == (s - lo * n) / n;
    }
    assert s / n <= hi by {
      assert hi - s / n == (hi * n - s) / n;
    }
  }

  /** A series whose rate never moves has that rate as its mean. */
  lemma ConstantSeriesMean(daily: seq<DailyMetric>, c: real)
    requires daily != []
    requires forall i :: 0 <= i < |daily| ==> daily[i].rate == c
    ensures MeanRate(daily) == c
  {
    MeanRateBounds(daily, c, c);
  }

  // ---------------------------------------------------------------------------
  // Report

  /** `format_response`: the totals always, the daily list only for breakdown "day". */
  function FormatResponse(daily: seq<DailyMetric>, totals: Totals, breakdown: string := "day",
                          startDate: Option<string> := None, endDate: Option<string> := None): (r: Report)
    ensures r.base == Base && r.symbol == Quote
    ensures r.startDate == startDate && r.endDate == endDate
    ensures r.breakdown == breakdown && r.totals == totals
    ensures r.daily.Some? <==> breakdown == "day"
    ensures r.daily.Some? ==> r.daily.value == daily
  {
    var response := Report(Base, Quote, startDate, endDate, breakdown, totals, None);
    if breakdown == "day" then response.(daily := Some(daily)) else response
  }

  // ---------------------------------------------------------------------------
  // A worked example

  /** Two days at 1.10 and 1.21, with rounding left out: the second day
      rises by ten percent and the mean is 1.155. */
  lemma TwoDayExample()
    ensures var data: Payload := JsonObject(Some(map["2025-01-01" := Number(1.10), "2025-01-02" := Number(1.21)]), {});
            var rnd := (x: real, n: nat) => x;
            var daily := DailyMetrics(data, rnd);
            && daily == [DailyMetric("2025-01-01", 1.1, None), DailyMetric("2025-01-02", 1.21, Some(10.0))]
            && CalculateTotals(daily, rnd) == Totals(Some(1.1), Some(1.21), Some(10.0), Some(1.155))
  {
    var rates := map["2025-01-01" := Number(1.10), "2025-01-02" := Number(1.21)];
    var rnd := (x: real, n: nat) => x;
    TwoDayDates(rates, rnd);
    var daily := TwoDayMetrics(rates, rnd);
    TwoDayTotals(daily, rnd);
  }

  lemma TwoDayDates(rates: map<string, RateEntry>, rnd: Rounding)
    requires rates == map["2025-01-01" := Number(1.10), "2025-01-02" := Number(1.21)]
    ensures DailyMetrics(JsonObject(Some(rates), {}), rnd) == MetricsFrom(["2025-01-01", "2025-01-02"], rates, None, rnd)
  {
    var data: Payload := JsonObject(Some(rates), {});
    assert Truthy(data);
    assert rates.Keys == {"2025-01-01", "2025-01-02"};
    TwoDatesSorted(rates);
  }

  lemma TwoDatesSorted(rates: map<string, RateEntry>)
    requires rates.Keys == {"2025-01-01", "2025-01-02"}
    ensures SortedKeys(rates.Keys) == ["2025-01-01", "2025-01-02"]
  {
    var d1, d2 := "2025-01-01", "2025-01-02";
    assert d1[..9] == d2[..9];
    LessAtFirstDifference(d1, d2, 9);
    SortedUnique([d1, d2], SortedKeys(rates.Keys));
  }

  lemma TwoDayMetrics(rates: map<string, RateEntry>, rnd: Rounding) returns (daily: seq<DailyMetric>)
    requires rates == map["2025-01-01" := Number(1.10), "2025-01-02" := Number(1.21)]
    requires forall x: real, n: nat :: rnd(x, n) == x
    ensures daily == MetricsFrom(["2025-01-01", "2025-01-02"], rates, None, rnd)
    ensures daily == [DailyMetric("2025-01-01", 1.1, None), DailyMetric("2025-01-02", 1.21, Some(10.0))]
  {
    var d1, d2 := "2025-01-01", "2025-01-02";
    assert [d1, d2][1..] == [d2];
    assert [d2][1..] == [];
    daily := MetricsFrom([d1, d2], rates, None, rnd);
    assert SafePctChange(1.1, 1.21) == Some(10.0);
  }

  lemma TwoDayTotals(daily: seq<DailyMetric>, rnd: Rounding)
    requires daily == [DailyMetric("2025-01-01", 1.1, None), DailyMetric("2025-01-02", 1.21, Some(10.0))]
    requires forall x: real, n: nat :: rnd(x, n) == x
    ensures CalculateTotals(daily, rnd) == Totals(Some(1.1), Some(1.21), Some(10.0), Some(1.155))
  {
    assert RatesOf(daily) == [1.1, 1.21];
    assert [1.1, 1.21][..1] == [1.1];
    assert [1.1][..0] == [];
    assert Sum([1.1, 1.21]) == 2.31;
    assert SafePctChange(1.1, 1.21) == Some(10.0);
  }
}
