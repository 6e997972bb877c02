/** The marketing analytics of `number6.py`: a dictionary from channel name to
    a dictionary of metrics, merged in place by `update_metrics`, and the
    totals `summarize_metrics` accumulates over every channel. Numbers are
    Python ints; floats as metric values are not modelled. */
module MarketingMetrics {
  import opened Wrappers

  /** A metric value: an int, a bool (which Python's `isinstance(v, (int,
      float))` also counts as a number, worth 1 or 0) or anything else. */
  datatype Metric = Count(n: int) | Flag(b: bool) | Text(s: string)

  /** A channel's entry: a metrics dictionary, or any other Python value. */
  datatype Entry = Metrics(m: map<string, Metric>) | NotMetrics(description: string)

  predicate IsNumeric(v: Metric) {
    !v.Text?
  }

  /** What a numeric value adds to a total. */
  function NumericValue(v: Metric): int {
    match v
    case Count(n) => n
    case Flag(b) => if b then 1 else 0
    case Text(_) => 0
  }

  datatype MetricsError = NewDataNotDict | ChannelEmpty | ExistingNotDict

  function Message(e: MetricsError): string {
    match e
    case NewDataNotDict => "new_data must be a dictionary"
    case ChannelEmpty => "channel must be a non-empty string"
    case ExistingNotDict => "the existing entry does not support item assignment"
  }

  /** The `marketing_data` dictionary the functions mutate. */
  class MarketingData {
    var channels: map<string, Entry>

    constructor (channels: map<string, Entry>)
      ensures this.channels == channels
    {
      this.channels := channels;
    }
  }

  /** The metrics of `existing` overridden by the first `keys` of `newData`. */
  function Merged(existing: map<string, Metric>, newData: map<string, Metric>, keys: set<string>): map<string, Metric> {
    existing + map k | k in keys && k in newData :: newData[k]
  }

  /** `update_metrics(marketing_data, channel, new_data)`: a non-dict
      `new_data` and then an empty channel name are rejected. A new channel
      gets a copy of `new_data`; an existing metrics dictionary is updated in
      place, one metric at a time, so mentioned metrics take the new value
      and the others keep theirs. Other channels are untouched, and the same
      dictionary is returned. */
  method UpdateMetrics(data: MarketingData, channel: string, newData: Entry) returns (r: Result<MarketingData, MetricsError>)
    modifies data
    ensures newData.NotMetrics? ==> r == Failure(NewDataNotDict) && data.channels == old(data.channels)
    ensures newData.Metrics? && channel == "" ==> r == Failure(ChannelEmpty) && data.channels == old(data.channels)
    ensures newData.Metrics? && channel != "" && channel !in old(data.channels) ==>
              r == Success(data) && data.channels == old(data.channels)[channel := newData]
    ensures newData.Metrics? && channel != "" && channel in old(data.channels) && old(data.channels[channel]).Metrics? ==>
              r == Success(data)
              && data.channels == old(data.channels)[channel := Metrics(old(data.channels[channel]).m + newData.m)]
    ensures newData.Metrics? && channel != "" && channel in old(data.channels) && old(data.channels[channel]).NotMetrics? ==>
              data.channels == old(data.channels)
              && r == (if newData.m == map[] then Success(data) else Failure(ExistingNotDict))
  {
    if newData.NotMetrics? {
      return Failure(NewDataNotDict);
    }
    if channel == "" {
      return Failure(ChannelEmpty);
    }
    if channel !in data.channels {
      data.channels := data.channels[channel := newData];
      return Success(data);
    }
    if data.channels[channel].NotMetrics? {
      if newData.m == map[] {
        return Success(data);
      }
      return Failure(ExistingNotDict);
    }
    MergeMetrics(data, channel, newData.m);
    return Success(data);
  }

  /** The loop of `update_metrics` over `new_data.items()`: each metric is
      written into the channel's dictionary in turn. */
  method MergeMetrics(data: MarketingData, channel: string, newData: map<string, Metric>)
    requires channel in data.channels && data.channels[channel].Metrics?
    modifies data
    ensures data.channels == old(data.channels)[channel := Metrics(old(data.channels[channel]).m + newData)]
  {
    var existing := data.channels[channel].m;
    ghost var before := data.channels;
    var remaining := newData.Keys;
    ghost var done: set<string> := {};
    MergedNone(existing, newData);
    assert before[channel := Metrics(existing)] == before;
    while remaining != {}
      invariant done + remaining == newData.Keys && done !! remaining
      invariant data.channels == before[channel := Metrics(Merged(existing, newData, done))]
      decreases |remaining|
    {
      var metric :| metric in remaining;
      MergedStep(existing, newData, done, metric);
      var current := data.channels[channel].m;
      data.channels := data.channels[channel := Metrics(current[metric := newData[metric]])];
      remaining := remaining - {metric};
      done := done + {metric};
    }
    MergedAll(existing, newData);
  }

  lemma MergedStep(existing: map<string, Metric>, newData: map<string, Metric>, done: set<string>, metric: string)
    requires metric in newData
    ensures Merged(existing, newData, done + {metric}) == Merged(existing, newData, done)[metric := newData[metric]]
  {
  }

  lemma MergedNone(existing: map<string, Metric>, newData: map<string, Metric>)
    ensures Merged(existing, newData, {}) == existing
  {
  }

  lemma MergedAll(existing: map<string, Metric>, newData: map<string, Metric>)
    ensures Merged(existing, newData, newData.Keys) == existing + newData
  {
  }

  /** The three metrics `summarize_metrics` totals under fixed keys. */
  const CoreMetrics: set<string> := {"clicks", "impressions", "conversions"}

  /** What one channel adds to the total of `metric`: its numeric value
      there, or 0 for a missing metric, a non-numeric value or a channel
      that is not a dictionary. */
  function ValueIn(e: Entry, metric: string): int {
    if e.Metrics? && metric in e.m then NumericValue(e.m[metric]) else 0
  }

  /** The sum of `metric` over every channel. */
  ghost function Total(channels: map<string, Entry>, metric: string): int
    decreases |channels|
  {
    if channels == map[] then 0
    else
      var c :| c in channels;
      ValueIn(channels[c], metric) + Total(channels - {c}, metric)
  }

  /** The metrics a dictionary holds as numbers. */
  function NumericKeys(m: map<string, Metric>): set<string> {
    set x | x in m && IsNumeric(m[x])
  }

  /** The metrics held as a number by some channel. */
  ghost function NumericNames(channels: map<string, Entry>): set<string> {
    set c, x | c in channels && channels[c].Metrics? && x in channels[c].m && IsNumeric(channels[c].m[x]) :: x
  }

  /** The channels whose entry is a metrics dictionary. */
  ghost function DictChannels(channels: map<string, Entry>): set<string> {
    set c | c in channels && channels[c].Metrics?
  }

  /** Every metric name that occurs in some metrics dictionary. */
  ghost function MetricNames(channels: map<string, Entry>): set<string> {
    set c, x | c in channels && channels[c].Metrics? && x in channels[c].m :: x
  }

  /** The sum does not depend on the order of the channels: any channel can
      be taken out first. */
  lemma {:induction false} TotalRemove(channels: map<string, Entry>, c: string, metric: string)
    requires c in channels
    ensures Total(channels, metric) == ValueIn(channels[c], metric) + Total(channels - {c}, metric)
    decreases |channels|
  {
    var d :| d in channels && Total(channels, metric) == ValueIn(channels[d], metric) + Total(channels - {d}, metric);
    if d != c {
      TotalRemove(channels - {d}, c, metric);
      TotalRemove(channels - {c}, d, metric);
      assert channels - {d} - {c} == channels - {c} - {d};
    }
  }

  /** Adding a channel adds its value to the sum. */
  lemma TotalAdd(channels: map<string, Entry>, c: string, e: Entry, metric: string)
    requires c !in channels
    ensures Total(channels[c := e], metric) == ValueIn(e, metric) + Total(channels, metric)
  {
    TotalRemove(channels[c := e], c, metric);
    assert channels[c := e] - {c} == channels;
  }

  /** A metric no channel holds as a number sums to 0. */
  lemma {:induction false} TotalZero(channels: map<string, Entry>, metric: string)
    requires metric !in NumericNames(channels)
    ensures Total(channels, metric) == 0
    decreases |channels|
  {
    if channels != map[] {
      var c :| c in channels;
      TotalRemove(channels, c, metric);
      TotalZero(channels - {c}, metric);
    }
  }

  /** The numeric metrics grow by those of the joining channel. */
  lemma NumericNamesAdd(done: map<string, Entry>, c: string, e: Entry)
    requires c !in done
    ensures NumericNames(done[c := e]) == NumericNames(done) + (if e.Metrics? then NumericKeys(e.m) else {})
  {
    var after := done[c := e];
    forall x | x in NumericNames(after)
      ensures x in NumericNames(done) + (if e.Metrics? then NumericKeys(e.m) else {})
    {
      var d :| d in after && after[d].Metrics? && x in after[d].m && IsNumeric(after[d].m[x]);
      if d != c {
        assert d in done && done[d] == after[d];
      }
    }
    forall x | x in NumericNames(done)
      ensures x in NumericNames(after)
    {
      var d :| d in done && done[d].Metrics? && x in done[d].m && IsNumeric(done[d].m[x]);
      assert d in after && after[d] == done[d];
    }
    if e.Metrics? {
      forall x | x in NumericKeys(e.m)
        ensures x in NumericNames(after)
      {
        assert c in after && after[c] == e;
      }
    }
  }

  /** The metric names grow by the names of the joining channel. */
  lemma MetricNamesAdd(done: map<string, Entry>, c: string, e: Entry)
    requires c !in done
    ensures MetricNames(done[c := e]) == MetricNames(done) + (if e.Metrics? then e.m.Keys else {})
  {
    var after := done[c := e];
    forall x | x in MetricNames(after)
      ensures x in MetricNames(done) + (if e.Metrics? then e.m.Keys else {})
    {
      var d :| d in after && after[d].Metrics? && x in after[d].m;
      if d != c {
        assert d in done && done[d] == after[d];
      }
    }
    forall x | x in MetricNames(done)
      ensures x in MetricNames(after)
    {
      var d :| d in done && done[d].Metrics? && x in done[d].m;
      assert d in after && after[d] == done[d];
    }
    if e.Metrics? {
      forall x | x in e.m
        ensures x in MetricNames(after)
      {
        assert c in after && after[c] == e;
      }
    }
  }

  /** The running contents of the `summary` dictionary: a total per metric
      (the fixed three start at 0, any other is created at 0 on first use)
      and the set of metric names seen. */
  datatype Tally = Tally(totals: map<string, int>, found: set<string>)

  /** The tally of the finished channels `done` plus the metrics `partial`
      of the channel being traversed: a total for each of the fixed three
      and for each metric held as a number somewhere, equal to its sum, and
      every metric name seen. */
  ghost function Expected(done: map<string, Entry>, partial: map<string, Metric>): Tally {
    Tally(
      map x | x in CoreMetrics + NumericNames(done) + NumericKeys(partial)
            :: Total(done, x) + ValueIn(Metrics(partial), x),
      MetricNames(done) + partial.Keys)
  }

  /** Before any channel, the summary holds the three fixed totals at 0 and
      no metric names. */
  lemma ExpectedEmpty()
    ensures Expected(map[], map[]) == Tally(map["clicks" := 0, "impressions" := 0, "conversions" := 0], {})
  {
    assert MetricNames(map[]) == {};
    assert NumericNames(map[]) == {};
    assert NumericKeys(map[]) == {};
  }

  /** Counting one more metric adds it to the totalled metrics when it is
      numeric. */
  lemma TallyStepKeys(done: map<string, Entry>, partial: map<string, Metric>, metric: string, value: Metric)
    requires metric !in partial
    ensures Expected(done, partial[metric := value]).totals.Keys
         == Expected(done, partial).totals.Keys + (if IsNumeric(value) then {metric} else {})
  {
    assert NumericKeys(partial[metric := value]) == NumericKeys(partial) + (if IsNumeric(value) then {metric} else {});
  }

  /** Counting one more metric of the current channel keeps the tally exact. */
  lemma TallyStep(t: Tally, r: Tally, done: map<string, Entry>, partial: map<string, Metric>,
                  metric: string, value: Metric)
    requires metric !in partial
    requires t == Expected(done, partial)
    requires r.found == t.found + {metric}
    requires !IsNumeric(value) ==> r.totals == t.totals
    requires IsNumeric(value) ==>
               r.totals == t.totals[metric := (if metric in t.totals then t.totals[metric] else 0) + NumericValue(value)]
    ensures r == Expected(done, partial[metric := value])
  {
    TallyStepTotals(t.totals, r.totals, done, partial, metric, value);
  }

  /** The totals part of `TallyStep`. */
  lemma TallyStepTotals(t: map<string, int>, r: map<string, int>, done: map<string, Entry>,
                        partial: map<string, Metric>, metric: string, value: Metric)
    requires metric !in partial
    requires t == Expected(done, partial).totals
    requires !IsNumeric(value) ==> r == t
    requires IsNumeric(value) ==> r == t[metric := (if metric in t then t[metric] else 0) + NumericValue(value)]
    ensures r == Expected(done, partial[metric := value]).totals
  {
    var e := Expected(done, partial[metric := value]).totals;
    TallyStepKeys(done, partial, metric, value);
    if metric !in t {
      TotalZero(done, metric);
    }
    forall x | x in r
      ensures r[x] == e[x]
    {
      ValueInOther(partial, metric, value, x);
    }
  }

  /** Adding `metric` to a dictionary leaves the value of every other metric. */
  lemma ValueInOther(partial: map<string, Metric>, metric: string, value: Metric, x: string)
    requires metric !in partial
    ensures ValueIn(Metrics(partial[metric := value]), x)
         == ValueIn(Metrics(partial), x) + (if x == metric then NumericValue(value) else 0)
  {
  }

  /** The three fixed totals are always present. */
  lemma ExpectedHasCore(done: map<string, Entry>, partial: map<string, Metric>)
    ensures CoreMetrics <= Expected(done, partial).totals.Keys
  {
  }

  /** A finished channel adds its numeric metrics to the totalled ones. */
  lemma ChannelDoneKeys(done: map<string, Entry>, c: string, e: Entry)
    requires c !in done
    ensures Expected(done, if e.Metrics? then e.m else map[]).totals.Keys == Expected(done[c := e], map[]).totals.Keys
  {
    assert NumericKeys(map[]) == {};
    NumericNamesAdd(done, c, e);
  }

  /** A channel that is not a dictionary contributes like an empty one. */
  lemma ValueInEntry(e: Entry, x: string)
    ensures ValueIn(Metrics(if e.Metrics? then e.m else map[]), x) == ValueIn(e, x)
  {
  }

  /** The totals part of `ChannelDone`. */
  lemma ChannelDoneTotals(t: map<string, int>, done: map<string, Entry>, c: string, e: Entry)
    requires c !in done
    requires t == Expected(done, if e.Metrics? then e.m else map[]).totals
    ensures t == Expected(done[c := e], map[]).totals
  {
    var after := Expected(done[c := e], map[]).totals;
    ChannelDoneKeys(done, c, e);
    forall x | x in t
      ensures t[x] == after[x]
    {
      TotalAdd(done, c, e, x);
      ValueInEntry(e, x);
    }
  }

  /** Once a channel's metrics are all counted, it joins the finished channels. */
  lemma ChannelDone(done: map<string, Entry>, c: string, e: Entry)
    requires c !in done
    ensures Expected(done, if e.Metrics? then e.m else map[]) == Expected(done[c := e], map[])
  {
    ChannelDoneTotals(Expected(done, if e.Metrics? then e.m else map[]).totals, done, c, e);
    MetricNamesAdd(done, c, e);
  }

  /** The dictionary channels grow by `c` exactly when its entry is one. */
  lemma DictChannelsAdd(done: map<string, Entry>, c: string, e: Entry)
    requires c !in done
    ensures |DictChannels(done[c := e])| == |DictChannels(done)| + (if e.Metrics? then 1 else 0)
  {
    if e.Metrics? {
      assert DictChannels(done[c := e]) == DictChannels(done) + {c};
    } else {
      assert DictChannels(done[c := e]) == DictChannels(done);
    }
  }

  /** Taking one more key out of the remaining ones adds its entry to the part
      already traversed. */
  lemma TraversedStep<V>(m: map<string, V>, remaining: set<string>, k: string)
    requires k in remaining && remaining <= m.Keys
    ensures m - (remaining - {k}) == (m - remaining)[k := m[k]]
  {
  }

  /** One pass of the inner loop of `summarize_metrics`: the name joins
      `metrics_found`, and a numeric value is added to the total of its
      metric, which for a metric outside the fixed three is created at 0 on
      first use. */
  method TallyMetric(t: Tally, metric: string, value: Metric,
                     ghost done: map<string, Entry>, ghost partial: map<string, Metric>) returns (r: Tally)
    requires metric !in partial
    requires t == Expected(done, partial)
    ensures r == Expected(done, partial[metric := value])
  {
    ExpectedHasCore(done, partial);
    var totals := t.totals;
    if IsNumeric(value) {
      if metric !in CoreMetrics && metric !in totals {
        totals := totals[metric := 0];
      }
      totals := totals[metric := totals[metric] + NumericValue(value)];
    }
    r := Tally(totals, t.found + {metric});
    TallyStep(t, r, done, partial, metric, value);
  }

  /** The inner loop of `summarize_metrics` over one channel's metrics. */
  method TallyChannel(t: Tally, metrics: map<string, Metric>, ghost done: map<string, Entry>) returns (r: Tally)
    requires t == Expected(done, map[])
    ensures r == Expected(done, metrics)
  {
    r := t;
    var remaining := metrics.Keys;
    assert metrics - remaining == map[];
    while remaining != {}
      invariant remaining <= metrics.Keys
      invariant r == Expected(done, metrics - remaining)
      decreases |remaining|
    {
      var metric :| metric in remaining;
      r := TallyMetric(r, metric, metrics[metric], done, metrics - remaining);
      TraversedStep(metrics, remaining, metric);
      remaining := remaining - {metric};
    }
    assert metrics - remaining == metrics;
  }

  /** The result of `summarize_metrics`: `totals[m]` is the value stored
      under `total_m`. */
  datatype Summary = Summary(
    totals: map<string, int>, channelsAnalyzed: nat, metricsFound: set<string>,
    overallCtr: real, overallConversionRate: real)

  /** The value of `total_m` in a summary, 0 when absent. */
  function TotalOf(s: Summary, metric: string): int {
    if metric in s.totals then s.totals[metric] else 0
  }

  /** One pass of the outer loop of `summarize_metrics`: an entry that is
      not a dictionary is skipped with a warning; a dictionary is counted as
      analysed and has its metrics tallied. */
  method TallyEntry(t: Tally, analyzed: nat, e: Entry, ghost done: map<string, Entry>, ghost c: string)
    returns (t': Tally, analyzed': nat)
    requires c !in done
    requires t == Expected(done, map[]) && analyzed == |DictChannels(done)|
    ensures t' == Expected(done[c := e], map[]) && analyzed' == |DictChannels(done[c := e])|
  {
    t', analyzed' := t, analyzed;
    if e.Metrics? {
      analyzed' := analyzed' + 1;
      t' := TallyChannel(t', e.m, done);
    }
    ChannelDone(done, c, e);
    DictChannelsAdd(done, c, e);
  }

  /** The outer loop of `summarize_metrics` over the channels. */
  method TallyChannels(channels: map<string, Entry>) returns (t: Tally, analyzed: nat)
    ensures t == Expected(channels, map[])
    ensures analyzed == |DictChannels(channels)|
  {
    t := Tally(map["clicks" := 0, "impressions" := 0, "conversions" := 0], {});
    ExpectedEmpty();
    analyzed := 0;
    var remaining := channels.Keys;
    assert channels - remaining == map[];
    while remaining != {}
      invariant remaining <= channels.Keys
      invariant t == Expected(channels - remaining, map[])
      invariant analyzed == |DictChannels(channels - remaining)|
      decreases |remaining|
    {
      var c :| c in remaining;
      t, analyzed := TallyEntry(t, analyzed, channels[c], channels - remaining, c);
      TraversedStep(channels, remaining, c);
      remaining := remaining - {c};
    }
    assert channels - remaining == channels;
  }

  /** `summarize_metrics(marketing_data)`: every numeric metric's total is its
      sum over all dictionary channels, the fixed three always present; only
      dictionary channels are counted as analysed; every metric name is
      recorded; the two ratios are guarded against a zero denominator. */
  method SummarizeMetrics(data: MarketingData) returns (s: Summary)
    ensures s.totals.Keys == CoreMetrics + NumericNames(data.channels)
    ensures forall x :: x in s.totals ==> s.totals[x] == Total(data.channels, x)
    ensures s.channelsAnalyzed == |DictChannels(data.channels)|
    ensures s.metricsFound == MetricNames(data.channels)
    ensures TotalOf(s, "impressions") > 0 ==>
              s.overallCtr == (TotalOf(s, "clicks") as real / TotalOf(s, "impressions") as real) * 100.0
    ensures TotalOf(s, "impressions") <= 0 ==> s.overallCtr == 0.0
    ensures TotalOf(s, "clicks") > 0 ==>
              s.overallConversionRate == (TotalOf(s, "conversions") as real / TotalOf(s, "clicks") as real) * 100.0
    ensures TotalOf(s, "clicks") <= 0 ==> s.overallConversionRate == 0.0
  {
    var t, analyzed := TallyChannels(data.channels);
    ExpectedHasCore(data.channels, map[]);
    assert NumericKeys(map[]) == {};
    var clicks, impressions, conversions := t.totals["clicks"], t.totals["impressions"], t.totals["conversions"];
    var ctr := if impressions > 0 then (clicks as real / impressions as real) * 100.0 else 0.0;
    var conversionRate := if clicks > 0 then (conversions as real / clicks as real) * 100.0 else 0.0;
    s := Summary(t.totals, analyzed, t.found, ctr, conversionRate);
  }
}

/** The scenarios of `demonstrate_functionality` and
    `error_handling_demonstration` in `number6.py`. */
module MarketingDemonstration {
  import opened Wrappers
  import opened MarketingMetrics

  /** Updating `google_ads` replaces its clicks and conversions and keeps
      its other metrics. */
  method MergeDemonstration() returns (data: MarketingData)
    ensures data.channels
         == map["google_ads" := Metrics(map["clicks" := Count(1600), "impressions" := Count(50000),
                                            "conversions" := Count(80), "cost" := Count(3000)])]
  {
    var google := map["clicks" := Count(1500), "impressions" := Count(50000), "conversions" := Count(75), "cost" := Count(3000)];
    var update := map["clicks" := Count(1600), "conversions" := Count(80)];
    data := new MarketingData(map["google_ads" := Metrics(google)]);
    var r := UpdateMetrics(data, "google_ads", Metrics(update));
    assert google + update
        == map["clicks" := Count(1600), "impressions" := Count(50000), "conversions" := Count(80), "cost" := Count(3000)];
  }

  /** A new channel is created from the update; a non-dict update and an
      empty channel name are rejected and change nothing. */
  method ErrorHandlingDemonstration() returns (data: MarketingData)
    ensures data.channels == map["test_channel" := Metrics(map["clicks" := Count(100)])]
  {
    data := new MarketingData(map[]);
    var r := UpdateMetrics(data, "test_channel", Metrics(map["clicks" := Count(100)]));
    assert r.Success?;
    r := UpdateMetrics(data, "channel", NotMetrics("not_a_dict"));
    assert r == Failure(NewDataNotDict);
    r := UpdateMetrics(data, "", Metrics(map["clicks" := Count(100)]));
    assert r == Failure(ChannelEmpty);
  }
}
