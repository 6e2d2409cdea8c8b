# EUR→USD rate summary: a Dafny model of the rate client and the metrics engine

The service answers one question: how did the EUR→USD rate move between two
dates? It fetches the daily rates from an upstream rate provider, computes
day-over-day percentage changes and aggregate totals, and returns a report.
This project models and proves the two parts of the service that hold its logic.

- **The rate client** (`fx_client.py`), in `fx_client.dfy`, module `FxClient`.
  - `FXCache` is a class whose `entries` map is updated in place by `Get`
    (lazy eviction), `Set` and `Clear`.
  - `FXClient` holds the cache and runs one protocol for range and latest
    queries: build the key, look in the cache, call upstream, fall back to the
    local snapshot.
  - Each method is proved against a pure function of the old state:
    `Lookup`/`AfterLookup` for the cache and `Resolve` for the protocol. The
    properties are stated on those functions and in lemmas.
  - Time is an explicit integer `now`, in microseconds.
  - The upstream call is an input `Upstream` (`Ok(data)` or `Fail`).
  - The fallback file is an input `Option<Payload>`; `None` means the file is
    missing or cannot be read.
  - `DataUnavailable` stands for the `ValueError` raised when both upstream
    and the fallback fail.
- **The metrics engine** (`calculator.py`), in `calculator.dfy`, module `Calculator`.
  - `CalculateDailyMetrics` is a method with the source's loop. It is proved
    equal to the recursive specification `DailyMetrics`.
  - Lemmas prove ordering, skipping, the zero guard, the chain of changes
    from the previously emitted rate, the totals and the report shape.
  - Rates are `real`. Python's `round(x, n)` is a parameter `rnd` of every
    operation that rounds.
- **Supporting modules.**
  - `rate_data.dfy` (`RateData`) holds the decoded JSON documents. It also
    defines Python dict truthiness, which the cache-hit test relies on.
  - `string_order.dfy` (`StringOrder`) holds Python's ordering of strings and
    `sorted` over the keys of a dict.
  - `wrappers.dfy` holds `Option`, the model of Python's `None`.

Behaviour of the source that the model keeps and a reader might not expect:
- The quote currency is fixed to `"USD"` and the report's base to `"EUR"`.
- A cached value counts as a hit only if it is truthy. A cached empty object
  therefore makes the client fetch again.
- Any breakdown other than `"day"` omits the daily list, not only `"none"`.
- `get_latest` falls back to the same snapshot file as `get_range`.
- The totals round `start_rate` and `end_rate` a second time, although they
  were already rounded when emitted.

## Model

| member | source | states |
|---|---|---|
| `StringOrder.Less` | calculator.py:29 | Python's string `<`: a proper prefix sorts before the longer string |
| `StringOrder.LessIrreflexive` | calculator.py:29 | no string sorts before itself |
| `StringOrder.LessAsymmetric` | calculator.py:29 | two strings are never each before the other |
| `StringOrder.LessTransitive` | calculator.py:29 | string order is transitive |
| `StringOrder.LessTotal` | calculator.py:29 | any two distinct strings are ordered one way or the other |
| `StringOrder.LessAtFirstDifference` | calculator.py:29 | strings agreeing on a prefix are ordered by the first character where they differ |
| `StringOrder.LeastExists` | calculator.py:29 | every non-empty set of keys has a least element |
| `StringOrder.SortedKeys` | calculator.py:29 | the sorted keys hold each key once, nothing else, in strictly ascending order |
| `StringOrder.SortedUnique` | calculator.py:29 | two strictly ascending sequences with the same elements are equal, so the sorted order is unique |
| `StringOrder.Sorted` | calculator.py:29 | `sorted(rates.keys())` returns exactly the keys in ascending order |
| `RateData.Truthy` | fx_client.py:80 | a decoded object is falsy iff it is the empty object `{}` (the same test is made at fx_client.py:116 and calculator.py:25) |
| `FxClient.Fresh` | fx_client.py:25 | an entry is fresh at the instant it is stored iff the TTL is positive; with a TTL of zero or less it is never fresh from then on |
| `FxClient.Lookup` | fx_client.py:21-31 | `get` returns a value iff the key is present and `now - timestamp < ttl`, and that value is the stored one |
| `FxClient.AfterLookup` | fx_client.py:23-30 | after `get`, the key survives iff it was present and fresh; every other entry is unchanged; nothing is added |
| `FxClient.FXCache.constructor` | fx_client.py:17-19 | a new cache is empty, and its TTL is the given seconds in microseconds |
| `FxClient.FXCache.Get` | fx_client.py:21-31 | returns `Lookup` of the old store and leaves `AfterLookup` of it: a fresh hit or a miss changes nothing, an expired key is evicted |
| `FxClient.FXCache.Set` | fx_client.py:33-36 | maps the key to `(now, value)`, replacing any old entry, and changes no other key |
| `FxClient.FXCache.Clear` | fx_client.py:38-40 | leaves the store empty |
| `FxClient.SetThenGet` | fx_client.py:21-35 | with `ttl > 0`, a value just stored is served back at the same instant |
| `FxClient.RangeKey` | fx_client.py:76 | the key starts with `range:`, ends with the symbols, and its length is that of the four fields plus the prefix and three `:` |
| `FxClient.LatestKey` | fx_client.py:112 | the key starts with `latest:`, ends with the symbols, and its length is that of the two fields plus the prefix and one `:` |
| `FxClient.Hit` | fx_client.py:79-80 | served from cache iff the key is present, its entry is fresh, and its value is truthy (the same test is made at fx_client.py:115-116) |
| `FxClient.LoadFallback` | fx_client.py:137-148 | the snapshot's contents exactly when it is readable; otherwise the `ValueError` outcome |
| `FxClient.Resolve` | fx_client.py:76-99 | only a truthy fresh hit is served from cache, unchanged; otherwise an upstream success is returned and stored under the key at `now`; otherwise the fallback's contents are returned, or `DataUnavailable`, with the store left as `get` left it; no other key is touched |
| `FxClient.FXClient.constructor` | fx_client.py:49-51 | a new client owns a fresh, empty cache with the given TTL |
| `FxClient.FXClient.GetRange` | fx_client.py:57-99 | result and new store are `Resolve` for the key `range:{start}:{end}:{base}:{symbols}` |
| `FxClient.FXClient.GetLatest` | fx_client.py:101-135 | result and new store are `Resolve` for the key `latest:{base}:{symbols}` |
| `FxClient.FXClient.Retrieve` | fx_client.py:79-99 | the cache → upstream → fallback steps shared by both queries, stepping through `Get` and `Set`, match `Resolve` |
| `FxClient.RangeAndLatestKeysDiffer` | fx_client.py:76 | a range key never equals a latest key |
| `FxClient.RangeKeyInjective` | fx_client.py:76 | range keys identify their query when dates and base contain no `:` |
| `FxClient.LatestKeyInjective` | fx_client.py:112 | latest keys identify their query when the base contains no `:` |
| `FxClient.RangeKeyCollision` | fx_client.py:76 | with a `:` inside a date, two different range queries share a key |
| `FxClient.RepeatWithinTtlServedFromCache` | fx_client.py:79-95 | after an upstream success with truthy data, a repeat within the TTL is served from cache with the same data and no change to the store |
| `FxClient.ExpiredEntryRefetched` | fx_client.py:25-30 | once the TTL has elapsed the stale value is not served, and on upstream failure the key is gone |
| `FxClient.EmptyEntryRefetched` | fx_client.py:80-81 | a fresh cached empty object is not served from cache |
| `FxClient.QueriesIsolated` | fx_client.py:76-135 | a range query leaves every latest entry as it was, and a latest query leaves every range entry as it was |
| `Calculator.SafePctChange` | calculator.py:110-117 | absent iff the old value is zero; otherwise `new == old + old * pct / 100`, so it is the change in percent |
| `Calculator.UsdRate` | calculator.py:36-45 | a date has a rate iff its value is a number (the rate itself) or an object with a `USD` member (that member) |
| `Calculator.MetricsFrom` | calculator.py:29-58 | the loop's recursive specification: at most one metric per processed date |
| `Calculator.DailyMetrics` | calculator.py:25-58 | no `rates` gives no metrics; otherwise at most one metric per key of `rates` |
| `Calculator.CalculateDailyMetrics` | calculator.py:15-60 | the loop returns exactly `DailyMetrics` of its input |
| `Calculator.MetricsFromSubsequence` | calculator.py:34-52 | emitted dates are a subsequence of the processed dates, so never more of them |
| `Calculator.MetricsFromDates` | calculator.py:36-45 | a date is emitted iff it carries a USD rate |
| `Calculator.MetricsFromAscending` | calculator.py:29-52 | over ascending dates the emitted dates ascend strictly |
| `Calculator.MetricsFromRates` | calculator.py:36-54 | each metric carries its date's USD rate rounded to six places |
| `Calculator.MetricsFromChanges` | calculator.py:47-58 | the first change is measured from the incoming previous rate, each later one from the unrounded rate emitted just before |
| `Calculator.DailyMetricsDates` | calculator.py:25-52 | no `rates` (including a falsy input) gives no metrics; otherwise emitted dates are a strictly ascending subsequence of the sorted keys, at most one per key, exactly those with a USD rate |
| `Calculator.DailyMetricsChanges` | calculator.py:47-58 | rates rounded to six places; first change absent; each later change is `_safe_pct_change` of the previous emitted unrounded rate and the current one, absent iff that previous rate is zero |
| `Calculator.DailyMetricsEntryShapes` | calculator.py:36-45 | an object without `USD`, or null, is skipped; a bare number is used directly as the rate |
| `Calculator.CalculateTotals` | calculator.py:73-95 | empty input iff all four fields absent; otherwise first and last rate, `_safe_pct_change` between them and the mean rate, each rounded |
| `Calculator.MeanRate` | calculator.py:88-89 | the mean times the number of days is the sum of the rates |
| `Calculator.SumBounds` | calculator.py:88-89 | the sum of n rates lies between n times a lower and n times an upper bound |
| `Calculator.MeanRateBounds` | calculator.py:88-89 | the mean rate lies between any lower and upper bound of the rates |
| `Calculator.ConstantSeriesMean` | calculator.py:88-89 | a series with one constant rate has that rate as its mean |
| `Calculator.FormatResponse` | calculator.py:120-155 | always `EUR`, `USD`, the dates, the breakdown and the totals; `daily` present iff breakdown is `"day"`, and then it is the daily list; the breakdown defaults to `"day"` and the dates to `None` |
| `Calculator.TwoDayExample` | calculator.py:15-96 | rates 1.10 and 1.21 give a `None` change then 10.0, and totals 1.1, 1.21, 10.0, mean 1.155 |

## Left out

- main.py is not part of this model. It holds the web routing, the date and
  breakdown validation, the HTTP status mapping, template rendering and the
  global client wiring.
- generate_sample_data.py is not part of this model. It is a one-off fetch
  that writes the fallback file.
- The HTTP request is not modelled. This covers its URL and parameters, the
  10-second timeout, `raise_for_status` and JSON decoding. Its outcome is the
  input `Upstream`.
- Opening and decoding the fallback file is not modelled. Its outcome is the
  input `Option<Payload>`.
- `FXClient.close` and the HTTP client object are not modelled, because they
  only manage the connection.
- Logging is not modelled. It has no effect on results.
- Concurrent access to the shared cache from async requests is not
  modelled. The cache is sequential.
- Floating point is not modelled: rates are `real`. Python's `round` is an
  arbitrary function parameter, so no decimal rounding result is proved.
- Responses and snapshots are modelled as JSON objects only (`Payload`, an
  object that lists "rates" once). The decoders at fx_client.py:91, :127 and
  :142 can return any JSON value; the client returns it, and caches the
  upstream bodies (:94, :130). A
  cached `[]`, `0`, `""`, `null` or `false` is falsy and counts as a miss; in
  the model the only falsy payload is `{}`.
- A `rates` member that is not an object is not modelled; the source fails
  on it at calculator.py:29.
- Per-date values other than an object, a number or null are not modelled.
  A string makes the source raise `TypeError`: at calculator.py:117 when a
  nonzero rate was emitted before it, otherwise in `round` at :54. A boolean does not fail: Python
  treats `True` as 1 and `False` as 0, and the model has no boolean value.
- A "USD" member of a per-date object that is not a number or null is not
  represented (`Bundle` maps currencies to `real`).
- An object member `"USD": null` is represented as a missing member. The
  source skips both alike.
- `FxClient.Resolve`: the store timestamp is the instant `now` of the lookup.
  The source reads the clock twice, at fx_client.py:25 in the lookup and at
  :35 in the store, after the upstream call returns. The same single `now`
  is used by `FxClient.FXClient.GetRange`, `FxClient.FXClient.GetLatest` and
  `FxClient.FXClient.Retrieve`.
- `FxClient.RangeKeyInjective`: key injectivity is proved only for fields
  without `:`. The key format itself is not injective, as
  `RangeKeyCollision` shows. The service passes validated `YYYY-MM-DD`
  dates and the constants `EUR`/`USD`, so it never builds such a key.
