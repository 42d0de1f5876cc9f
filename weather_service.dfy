/** The weather service: current conditions and the five-day forecast from
    OpenWeather, the grouping of three-hourly forecast items into days, the
    daily summary of each day, the fallbacks when a request fails, and the
    one-line summary handed to the image generator.  The HTTP request is an
    input: a `Fetch` is the decoded response, the error the request
    raised, or a response the service cannot read.  Temperatures are the integers `round()` gives (for
    minimum and maximum rounding first or last gives the same result, since
    rounding is monotone). */
module WeatherService {
  import opened Wrappers
  import opened PyText
  import opened Sequences

  // ---------------------------------------------------------------------
  // Data

  /** The first entry of an item's `weather` list. */
  datatype Condition = Condition(main: string, description: string, icon: string)

  /** One three-hourly forecast item. */
  datatype Item = Item(dtTxt: string, temp: int, condition: Condition)

  /** What `_process_daily_forecast` reports for one day. */
  datatype Summary = Summary(tempMin: int, tempMax: int, description: string, main: string, icon: string)

  datatype DailyForecast = DailyForecast(date: string, summary: Summary)

  /** The outcome of the HTTP request: the decoded body; the error text of
      a failed request; or a decoded body that lacks a key the service
      reads, or has an empty `weather` list, with the text of the KeyError
      or IndexError that reading it raises. */
  datatype Fetch<T> = Fetched(body: T) | RequestFailed(reason: string) | Malformed(reason: string)

  datatype City = City(name: string, country: string)

  datatype ForecastBody = ForecastBody(city: City, items: seq<Item>)

  datatype CurrentBody = CurrentBody(name: string, country: string, temp: int, feelsLike: int,
                                     humidity: int, condition: Condition)

  datatype ForecastReport = ForecastReport(location: string, country: Option<string>,
                                           forecasts: seq<DailyForecast>, error: Option<string>)

  datatype CurrentReport = CurrentReport(location: string, country: Option<string>, temperature: int,
                                         feelsLike: int, humidity: int, description: string,
                                         main: Option<string>, icon: Option<string>, error: Option<string>)

  // ---------------------------------------------------------------------
  // Requests and fallbacks

  /** `_make_request` and the reading of its result: a missing API key
      (unset or empty) fails before the request is made; a failed request
      is re-raised with a prefix; a malformed body raises while the caller
      reads it, and that error reaches the fallback without a prefix. */
  function Request<T>(apiKey: string, response: Fetch<T>): (r: Result<T>)
    ensures r.Success? <==> apiKey != "" && response.Fetched?
    ensures r.Success? ==> r.value == response.body
    ensures apiKey == "" ==> r.error == "OpenWeather API key not configured"
    ensures apiKey != "" && response.RequestFailed? ==>
      r.error == "Weather API request failed: " + response.reason
    ensures apiKey != "" && response.Malformed? ==> r.error == response.reason
  {
    if apiKey == "" then Failure("OpenWeather API key not configured")
    else match response
      case Fetched(body) => Success(body)
      case RequestFailed(reason) => Failure("Weather API request failed: " + reason)
      case Malformed(reason) => Failure(reason)
  }

  /** `get_current_weather`: the reported fields of the response, or the
      fallback with location "Unknown", zero readings and the error text. */
  function GetCurrentWeather(apiKey: string, response: Fetch<CurrentBody>): (r: CurrentReport)
    ensures Request(apiKey, response).Failure? ==>
      r.location == "Unknown" && r.temperature == 0 && r.feelsLike == 0 && r.humidity == 0 &&
      r.description == "Weather data unavailable" && r.error == Some(Request(apiKey, response).error) &&
      r.country.None? && r.main.None? && r.icon.None?
    ensures Request(apiKey, response).Success? ==>
      r.location == response.body.name && r.country == Some(response.body.country) &&
      r.temperature == response.body.temp && r.feelsLike == response.body.feelsLike &&
      r.humidity == response.body.humidity &&
      r.description == Title(response.body.condition.description) &&
      r.main == Some(response.body.condition.main) && r.icon == Some(response.body.condition.icon) &&
      r.error.None?
  {
    match Request(apiKey, response)
    case Failure(e) =>
      CurrentReport("Unknown", None, 0, 0, 0, "Weather data unavailable", None, None, Some(e))
    case Success(b) =>
      CurrentReport(b.name, Some(b.country), b.temp, b.feelsLike, b.humidity,
                    Title(b.condition.description), Some(b.condition.main), Some(b.condition.icon), None)
  }

  // ---------------------------------------------------------------------
  // Most common condition

  /** Number of items whose condition is `m`. */
  function Count(items: seq<Item>, m: string): nat {
    if items == [] then 0
    else Count(items[..|items| - 1], m) + (if items[|items| - 1].condition.main == m then 1 else 0)
  }

  lemma CountSnoc(items: seq<Item>, n: int, m: string)
    requires 0 <= n < |items|
    ensures Count(items[..n + 1], m) == Count(items[..n], m) + if items[n].condition.main == m then 1 else 0
  {
    assert items[..n + 1][..n] == items[..n];
  }

  lemma {:induction false} CountAbsent(items: seq<Item>, m: string)
    requires forall k :: 0 <= k < |items| ==> items[k].condition.main != m
    ensures Count(items, m) == 0
  {
    if items != [] {
      CountAbsent(items[..|items| - 1], m);
    }
  }

  /** Index of the first item whose condition is `m`, or `|items|`. */
  function FirstIndex(items: seq<Item>, m: string): (r: nat)
    ensures r <= |items|
    ensures forall k :: 0 <= k < r ==> items[k].condition.main != m
    ensures r < |items| ==> items[r].condition.main == m
  {
    if items == [] then 0
    else if items[0].condition.main == m then 0
    else 1 + FirstIndex(items[1..], m)
  }

  /** Item `j` carries the day's leading condition: no condition is more
      frequent than its own, and every earlier item's condition is strictly
      less frequent (ties go to the condition seen first). */
  predicate Leader(items: seq<Item>, j: int) {
    0 <= j < |items| &&
    (forall k :: 0 <= k < |items| ==>
       Count(items, items[k].condition.main) <= Count(items, items[j].condition.main)) &&
    (forall k :: 0 <= k < j ==>
       Count(items, items[k].condition.main) < Count(items, items[j].condition.main))
  }

  /** At most one item is the leader. */
  lemma LeaderUnique(items: seq<Item>, j1: int, j2: int)
    requires Leader(items, j1) && Leader(items, j2)
    ensures j1 == j2
  {
    var c1 := Count(items, items[j1].condition.main);
    var c2 := Count(items, items[j2].condition.main);
    assert c1 == c2;
  }

  /** The leader is the first item with its condition. */
  lemma LeaderIsFirst(items: seq<Item>, j: int)
    requires Leader(items, j)
    ensures FirstIndex(items, items[j].condition.main) == j
  {
  }

  /** Reference scan: the first item whose condition's count exceeds that of
      every item before it, from position `k` on with `best` so far. */
  function BestFrom(items: seq<Item>, k: nat, best: nat): (r: nat)
    requires best < k <= |items|
    ensures best <= r < |items|
    decreases |items| - k
  {
    if k == |items| then best
    else if Count(items, items[k].condition.main) > Count(items, items[best].condition.main) then
      BestFrom(items, k + 1, k)
    else
      BestFrom(items, k + 1, best)
  }

  lemma {:induction false} BestFromLeader(items: seq<Item>, k: nat, best: nat)
    requires best < k <= |items|
    requires forall i :: 0 <= i < k ==>
      Count(items, items[i].condition.main) <= Count(items, items[best].condition.main)
    requires forall i :: 0 <= i < best ==>
      Count(items, items[i].condition.main) < Count(items, items[best].condition.main)
    ensures Leader(items, BestFrom(items, k, best))
    decreases |items| - k
  {
    if k < |items| {
      if Count(items, items[k].condition.main) > Count(items, items[best].condition.main) {
        BestFromLeader(items, k + 1, k);
      } else {
        BestFromLeader(items, k + 1, best);
      }
    }
  }

  /** The index of the day's leading condition. */
  function LeaderIndex(items: seq<Item>): (j: nat)
    requires items != []
    ensures j < |items|
  {
    BestFrom(items, 1, 0)
  }

  /** The reference scan finds the leader. */
  lemma LeaderIndexLeads(items: seq<Item>)
    requires items != []
    ensures Leader(items, LeaderIndex(items))
  {
    BestFromLeader(items, 1, 0);
  }

  // ---------------------------------------------------------------------
  // Temperatures

  function MinOf(xs: seq<int>): (m: int)
    requires xs != []
    ensures forall k :: 0 <= k < |xs| ==> m <= xs[k]
    ensures exists k :: 0 <= k < |xs| && xs[k] == m
  {
    if |xs| == 1 then xs[0]
    else
      var rest := MinOf(xs[1..]);
      assert forall k :: 1 <= k < |xs| ==> xs[k] == xs[1..][k - 1];
      if xs[0] <= rest then xs[0] else rest
  }

  function MaxOf(xs: seq<int>): (m: int)
    requires xs != []
    ensures forall k :: 0 <= k < |xs| ==> xs[k] <= m
    ensures exists k :: 0 <= k < |xs| && xs[k] == m
  {
    if |xs| == 1 then xs[0]
    else
      var rest := MaxOf(xs[1..]);
      assert forall k :: 1 <= k < |xs| ==> xs[k] == xs[1..][k - 1];
      if xs[0] >= rest then xs[0] else rest
  }

  function Temps(items: seq<Item>): (ts: seq<int>)
    ensures |ts| == |items| && forall k :: 0 <= k < |items| ==> ts[k] == items[k].temp
  {
    seq(|items|, k requires 0 <= k < |items| => items[k].temp)
  }

  // ---------------------------------------------------------------------
  // Daily summary

  /** The summary of a non-empty day: temperature range and the leading
      condition, its description title-cased. */
  function Summarize(items: seq<Item>): Summary
    requires items != []
  {
    var c := items[LeaderIndex(items)].condition;
    Summary(MinOf(Temps(items)), MaxOf(Temps(items)), Title(c.description), c.main, c.icon)
  }

  function DaySummary(items: seq<Item>): Option<Summary> {
    if items == [] then None else Some(Summarize(items))
  }

  /** A day's summary reports the range of its temperatures and the
      leading condition. */
  lemma SummaryMeaning(items: seq<Item>)
    requires items != []
    ensures var s := Summarize(items);
      s.tempMin <= s.tempMax &&
      (forall k :: 0 <= k < |items| ==> s.tempMin <= items[k].temp <= s.tempMax) &&
      (exists k :: 0 <= k < |items| && items[k].temp == s.tempMin) &&
      (exists k :: 0 <= k < |items| && items[k].temp == s.tempMax) &&
      (exists j :: Leader(items, j) && s.main == items[j].condition.main &&
                   s.icon == items[j].condition.icon &&
                   s.description == Title(items[j].condition.description))
  {
    var ts := Temps(items);
    assert MinOf(ts) <= ts[0] <= MaxOf(ts);
    LeaderIndexLeads(items);
  }

  /** The tally the method keeps is consistent with the items: the counted
      conditions are those seen, in order of first appearance. */
  ghost predicate Tallied(items: seq<Item>, n: int, counts: map<string, nat>, order: seq<string>)
    requires 0 <= n <= |items|
  {
    KeysAgree(counts, order) && CountsAgree(items, n, counts) &&
    Covered(items, n, counts) && FirstSeen(items, n, order)
  }

  ghost predicate KeysAgree(counts: map<string, nat>, order: seq<string>) {
    forall m :: m in counts <==> m in order
  }

  ghost predicate Covered(items: seq<Item>, n: int, counts: map<string, nat>)
    requires 0 <= n <= |items|
  {
    forall k :: 0 <= k < n ==> items[k].condition.main in counts
  }

  ghost predicate CountsAgree(items: seq<Item>, n: int, counts: map<string, nat>)
    requires 0 <= n <= |items|
  {
    forall m :: m in counts ==> counts[m] == Count(items[..n], m)
  }

  /** `order` lists conditions in order of their first appearance, all of
      them among the first `n` items. */
  ghost predicate FirstSeen(items: seq<Item>, n: int, order: seq<string>) {
    (forall a :: 0 <= a < |order| ==> FirstIndex(items, order[a]) < n) &&
    (forall a, b :: 0 <= a < b < |order| ==> FirstIndex(items, order[a]) < FirstIndex(items, order[b]))
  }

  lemma CountsStep(items: seq<Item>, n: int, counts: map<string, nat>)
    requires 0 <= n < |items|
    requires CountsAgree(items, n, counts)
    requires items[n].condition.main !in counts ==> Count(items[..n], items[n].condition.main) == 0
    ensures var m := items[n].condition.main;
      CountsAgree(items, n + 1, counts[m := (if m in counts then counts[m] else 0) + 1])
  {
    var m := items[n].condition.main;
    var counts' := counts[m := (if m in counts then counts[m] else 0) + 1];
    forall x | x in counts' ensures counts'[x] == Count(items[..n + 1], x) {
      CountSnoc(items, n, x);
    }
  }

  lemma FirstSeenStep(items: seq<Item>, n: int, order: seq<string>)
    requires 0 <= n < |items|
    requires FirstSeen(items, n, order)
    requires FirstIndex(items, items[n].condition.main) == n
    ensures FirstSeen(items, n + 1, order + [items[n].condition.main])
  {
    var order' := order + [items[n].condition.main];
    assert forall a :: 0 <= a < |order| ==> order'[a] == order[a];
  }

  /** The first occurrence of a condition not yet counted is the current
      item. */
  lemma NewCondition(items: seq<Item>, n: int, counts: map<string, nat>)
    requires 0 <= n < |items|
    requires Covered(items, n, counts)
    requires items[n].condition.main !in counts
    ensures Count(items[..n], items[n].condition.main) == 0
    ensures FirstIndex(items, items[n].condition.main) == n
  {
    var m := items[n].condition.main;
    forall k | 0 <= k < n ensures items[k].condition.main != m {
      assert items[k].condition.main in counts;
    }
    CountAbsent(items[..n], m);
  }

  lemma KeysStep(counts: map<string, nat>, order: seq<string>, m: string, c: nat)
    requires KeysAgree(counts, order)
    ensures KeysAgree(counts[m := c], if m in counts then order else order + [m])
  {
  }

  lemma CoveredStep(items: seq<Item>, n: int, counts: map<string, nat>, c: nat)
    requires 0 <= n < |items|
    requires Covered(items, n, counts)
    ensures Covered(items, n + 1, counts[items[n].condition.main := c])
  {
  }

  lemma TallyStep(items: seq<Item>, n: int, counts: map<string, nat>, order: seq<string>)
    requires 0 <= n < |items|
    requires Tallied(items, n, counts, order)
    ensures var m := items[n].condition.main;
      var c := if m in counts then counts[m] else 0;
      Tallied(items, n + 1, counts[m := c + 1], if m in counts then order else order + [m])
  {
    var m := items[n].condition.main;
    var c := if m in counts then counts[m] else 0;
    if m !in counts {
      NewCondition(items, n, counts);
      FirstSeenStep(items, n, order);
    }
    CountsStep(items, n, counts);
    KeysStep(counts, order, m, c + 1);
    CoveredStep(items, n, counts, c + 1);
  }

  /** A finished tally counts every condition of the day, at position `u`
      of the key order, which it entered no later than item `k`. */
  lemma TallyEntry(items: seq<Item>, counts: map<string, nat>, order: seq<string>, k: int)
    returns (u: int)
    requires Tallied(items, |items|, counts, order)
    requires 0 <= k < |items|
    ensures 0 <= u < |order| && order[u] == items[k].condition.main
    ensures counts[order[u]] == Count(items, order[u])
    ensures FirstIndex(items, order[u]) <= k
  {
    assert items[..|items|] == items;
    var m := items[k].condition.main;
    assert m in counts;
    assert m in order;
    u :| 0 <= u < |order| && order[u] == m;
  }

  /** No condition of the day is counted more often than the maximal
      entry of a finished tally. */
  lemma TallyMax(items: seq<Item>, counts: map<string, nat>, order: seq<string>, t: int)
    requires Tallied(items, |items|, counts, order)
    requires 0 <= t < |order|
    requires forall u :: 0 <= u < |order| ==> counts[order[u]] <= counts[order[t]]
    ensures forall k :: 0 <= k < |items| ==>
      Count(items, items[k].condition.main) <= counts[order[t]]
  {
    forall k | 0 <= k < |items|
      ensures Count(items, items[k].condition.main) <= counts[order[t]]
    {
      var u := TallyEntry(items, counts, order, k);
    }
  }

  lemma FirstSeenOrdered(items: seq<Item>, n: int, order: seq<string>, a: int, b: int)
    requires FirstSeen(items, n, order)
    requires 0 <= a < b < |order|
    ensures FirstIndex(items, order[a]) < FirstIndex(items, order[b])
  {
  }

  /** Items before the first appearance of the first maximal entry carry
      conditions counted strictly less often. */
  lemma TallyBefore(items: seq<Item>, counts: map<string, nat>, order: seq<string>, t: int)
    requires Tallied(items, |items|, counts, order)
    requires 0 <= t < |order|
    requires forall u :: 0 <= u < t ==> counts[order[u]] < counts[order[t]]
    requires forall u :: 0 <= u < |order| ==> counts[order[u]] <= counts[order[t]]
    ensures forall k :: 0 <= k < FirstIndex(items, order[t]) ==>
      Count(items, items[k].condition.main) < counts[order[t]]
  {
    forall k | 0 <= k < FirstIndex(items, order[t])
      ensures Count(items, items[k].condition.main) < counts[order[t]]
    {
      var u := TallyEntry(items, counts, order, k);
      if t < u {
        FirstSeenOrdered(items, |items|, order, t, u);
        assert false;
      }
      assert u != t;
      assert counts[order[u]] < counts[order[t]];
    }
  }

  /** The first maximal entry of the tally, taken in key order, sits at the
      leading item. */
  lemma TallyLeader(items: seq<Item>, counts: map<string, nat>, order: seq<string>, t: int)
    requires Tallied(items, |items|, counts, order)
    requires 0 <= t < |order|
    requires forall u :: 0 <= u < |order| ==> counts[order[u]] <= counts[order[t]]
    requires forall u :: 0 <= u < t ==> counts[order[u]] < counts[order[t]]
    ensures Leader(items, FirstIndex(items, order[t]))
  {
    var j := FirstIndex(items, order[t]);
    assert j < |items| by {
      assert FirstSeen(items, |items|, order);
    }
    var ut := TallyEntry(items, counts, order, j);
    assert ut == t by {
      assert FirstSeen(items, |items|, order);
    }
    TallyMax(items, counts, order, t);
    TallyBefore(items, counts, order, t);
  }

  /** `max(counts, key=counts.get)`: the position in key order of the first
      key with the largest count. */
  method MaxKey(counts: map<string, nat>, order: seq<string>) returns (t: int)
    requires order != []
    requires forall a :: 0 <= a < |order| ==> order[a] in counts
    ensures 0 <= t < |order|
    ensures forall u :: 0 <= u < |order| ==> counts[order[u]] <= counts[order[t]]
    ensures forall u :: 0 <= u < t ==> counts[order[u]] < counts[order[t]]
  {
    t := 0;
    var u := 1;
    while u < |order|
      invariant 0 <= t < u <= |order|
      invariant forall v :: 0 <= v < u ==> counts[order[v]] <= counts[order[t]]
      invariant forall v :: 0 <= v < t ==> counts[order[v]] < counts[order[t]]
    {
      if counts[order[u]] > counts[order[t]] {
        t := u;
      }
      u := u + 1;
    }
  }

  /** `next(item for item in items if item's condition is m)`, with the first
      item as the default. */
  method FirstWith(items: seq<Item>, m: string) returns (c: Condition)
    requires items != []
    ensures FirstIndex(items, m) < |items| ==> c == items[FirstIndex(items, m)].condition
    ensures FirstIndex(items, m) == |items| ==> c == items[0].condition
  {
    var j := 0;
    while j < |items| && items[j].condition.main != m
      invariant 0 <= j <= FirstIndex(items, m)
    {
      j := j + 1;
    }
    c := if j < |items| then items[j].condition else items[0].condition;
  }

  /** `_process_daily_forecast`: nothing for an empty day; otherwise count
      each condition in a dictionary, take the first most frequent one in
      dictionary order, and report the first item with that condition
      together with the minimum and maximum temperature. */
  method ProcessDailyForecast(dayData: seq<Item>) returns (r: Option<Summary>)
    ensures r == DaySummary(dayData)
  {
    if dayData == [] {
      return None;
    }
    // A Python dictionary remembers the order in which its keys were
    // first inserted: `order` records that order beside the counts.
    var counts: map<string, nat> := map[];
    var order: seq<string> := [];
    var n := 0;
    while n < |dayData|
      invariant 0 <= n <= |dayData|
      invariant Tallied(dayData, n, counts, order)
    {
      var weather := dayData[n].condition.main;
      TallyStep(dayData, n, counts, order);
      if weather !in counts {
        order := order + [weather];
      }
      counts := counts[weather := (if weather in counts then counts[weather] else 0) + 1];
      n := n + 1;
    }
    assert KeysAgree(counts, order) && Covered(dayData, n, counts);
    assert dayData[0].condition.main in order;
    var t := MaxKey(counts, order);
    var mostCommon := order[t];
    TallyLeader(dayData, counts, order, t);
    var weatherItem := FirstWith(dayData, mostCommon);
    LeaderIndexLeads(dayData);
    LeaderUnique(dayData, FirstIndex(dayData, mostCommon), LeaderIndex(dayData));
    var temps := Temps(dayData);
    r := Some(Summary(MinOf(temps), MaxOf(temps), Title(weatherItem.description),
                      weatherItem.main, weatherItem.icon));
  }

  // ---------------------------------------------------------------------
  // Grouping into days

  /** The date part of `dt_txt`: the text before its first space. */
  function DateKey(item: Item): (d: string)
    ensures d <= item.dtTxt && ' ' !in d
  {
    BeforeFirst(item.dtTxt, ' ')
  }

  /** The forecast of one run: its date and its summary. */
  function ForecastOf(run: seq<Item>): DailyForecast
    requires run != []
  {
    DailyForecast(DateKey(run[0]), Summarize(run))
  }

  /** One forecast per run, in order, dated by the run's first item. */
  function Forecasts(runs: seq<seq<Item>>): (fs: seq<DailyForecast>)
    requires forall k :: 0 <= k < |runs| ==> runs[k] != []
    ensures |fs| == |runs|
  {
    seq(|runs|, k requires 0 <= k < |runs| => ForecastOf(runs[k]))
  }

  /** Each forecast is dated by its run's first item and summarizes that
      run. */
  lemma ForecastsAt(runs: seq<seq<Item>>)
    requires forall k :: 0 <= k < |runs| ==> runs[k] != []
    ensures forall k :: 0 <= k < |runs| ==>
      Forecasts(runs)[k].date == DateKey(runs[k][0]) &&
      Forecasts(runs)[k].summary == Summarize(runs[k])
  {
  }

  lemma ForecastsSnoc(runs: seq<seq<Item>>, run: seq<Item>)
    requires forall k :: 0 <= k < |runs| ==> runs[k] != []
    requires run != []
    ensures Forecasts(runs + [run]) == Forecasts(runs) + [ForecastOf(run)]
  {
  }

  /** Summarize a finished day, stamp it with its date and append it to the
      forecasts so far. */
  method CloseDay(forecasts: seq<DailyForecast>, dailyData: seq<Item>, date: string,
                  ghost closed: seq<seq<Item>>)
    returns (forecasts': seq<DailyForecast>)
    requires dailyData != [] && date == DateKey(dailyData[0])
    requires forall k :: 0 <= k < |closed| ==> closed[k] != []
    requires forecasts == Forecasts(closed)
    ensures forecasts' == Forecasts(closed + [dailyData])
  {
    var dailyForecast := ProcessDailyForecast(dailyData);
    forecasts' := forecasts + [DailyForecast(date, dailyForecast.value)];
    ForecastsSnoc(closed, dailyData);
  }

  /** The loop of `get_forecast`: walk the items, close the open day when the
      date changes, and summarize the last open day at the end.  The days
      are the runs of items with equal dates. */
  method GroupForecast(items: seq<Item>) returns (forecasts: seq<DailyForecast>)
    ensures forecasts == Forecasts(Runs(items, DateKey))
  {
    forecasts := [];
    var currentDate: Option<string> := None;
    var dailyData: seq<Item> := [];
    ghost var closed: seq<seq<Item>> := [];
    var i := 0;
    while i < |items|
      invariant 0 <= i <= |items|
      invariant RunsFrom(items[i..], DateKey, closed, dailyData) == Runs(items, DateKey)
      invariant currentDate == if dailyData == [] then None else Some(DateKey(dailyData[0]))
      invariant forall k :: 0 <= k < |closed| ==> closed[k] != []
      invariant forecasts == Forecasts(closed)
    {
      var forecastDate := DateKey(items[i]);
      RunsFromStep(items, i, DateKey, closed, dailyData);
      if currentDate != Some(forecastDate) {
        if dailyData != [] {
          forecasts := CloseDay(forecasts, dailyData, currentDate.value, closed);
          closed := closed + [dailyData];
        }
        currentDate := Some(forecastDate);
        dailyData := [];
        assert dailyData + [items[i]] == [items[i]];
      }
      dailyData := dailyData + [items[i]];
      i := i + 1;
    }
    assert items[i..] == [];
    if dailyData != [] {
      forecasts := CloseDay(forecasts, dailyData, currentDate.value, closed);
    }
  }

  /** `get_forecast`: on success the location, the country and the first
      `days` daily forecasts; on any failure location "Unknown", no
      forecasts and the error text. */
  method GetForecast(apiKey: string, response: Fetch<ForecastBody>, days: int)
    returns (report: ForecastReport)
    ensures Request(apiKey, response).Failure? ==>
      report == ForecastReport("Unknown", None, [], Some(Request(apiKey, response).error))
    ensures Request(apiKey, response).Success? ==>
      report == ForecastReport(response.body.city.name, Some(response.body.city.country),
                               Take(Forecasts(Runs(response.body.items, DateKey)), days), None)
  {
    var data := Request(apiKey, response);
    if data.Failure? {
      return ForecastReport("Unknown", None, [], Some(data.error));
    }
    var forecasts := GroupForecast(data.value.items);
    report := ForecastReport(data.value.city.name, Some(data.value.city.country),
                             Take(forecasts, days), None);
  }

  /** The reported forecasts are the first days of the grouped forecast, in
      order and at most `days` of them; each is dated by its run, every item
      of that run has that date, and no two neighbouring forecasts share a
      date. */
  lemma ForecastDays(items: seq<Item>, days: int)
    ensures var runs := Runs(items, DateKey); var fs := Take(Forecasts(runs), days);
      fs <= Forecasts(runs) &&
      (days >= 0 ==> |fs| <= days) &&
      (forall k, a :: 0 <= k < |fs| && 0 <= a < |runs[k]| ==> DateKey(runs[k][a]) == fs[k].date) &&
      (forall k :: 0 < k < |fs| ==> fs[k - 1].date != fs[k].date)
  {
    var runs := Runs(items, DateKey);
    var all := Forecasts(runs);
    var fs := Take(all, days);
    ForecastsAt(runs);
    forall k | 0 <= k < |fs| ensures fs[k].date == DateKey(runs[k][0]) {
      assert fs[k] == all[k];
    }
    forall k, a | 0 <= k < |fs| && 0 <= a < |runs[k]| ensures DateKey(runs[k][a]) == fs[k].date {
      assert SameKey(runs[k], DateKey);
    }
    forall k | 0 < k < |fs| ensures fs[k - 1].date != fs[k].date {
      assert DateKey(runs[k - 1][0]) != DateKey(runs[k][0]);
    }
  }

  // ---------------------------------------------------------------------
  // Summary for the image generator

  function CurrentLine(current: CurrentReport): string {
    "Current weather in " + current.location + ": " + IntToString(current.temperature) +
    "°C, " + current.description
  }

  function TodayLine(today: DailyForecast): string {
    "Today's forecast: " + IntToString(today.summary.tempMin) + "-" +
    IntToString(today.summary.tempMax) + "°C, " + today.summary.description
  }

  /** `get_weather_summary_for_ai`: the current line, followed by today's
      line when the one-day forecast has a day, joined by ". ".  The
      fallbacks of the two fetches never raise, so the outer error message
      is never produced. */
  function WeatherSummaryForAi(current: CurrentReport, forecast: ForecastReport): (s: string)
    ensures forecast.forecasts == [] ==> s == CurrentLine(current)
    ensures forecast.forecasts != [] ==>
      s == CurrentLine(current) + ". " + TodayLine(forecast.forecasts[0])
  {
    if forecast.forecasts == [] then Join(". ", [CurrentLine(current)])
    else
      var first := CurrentLine(current);
      var today := TodayLine(forecast.forecasts[0]);
      JoinCons(". ", first, [today]);
      Join(". ", [first] + [today])
  }

}
