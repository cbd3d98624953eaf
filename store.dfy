/**
 The store adapter of pkg/store.go: it answers a federated query engine's
 series, label-name, label-value and info requests from the cloud monitoring
 API. A series request's equality matchers become one upstream monitoring
 request; every data point of the answer becomes one series whose label set is
 the point's dimensions merged with the external labels, sorted by name, and
 whose samples are appended to a single XOR chunk.

 Go's maps are iterated in an unspecified order; every loop over a map below
 picks its next key with `:|`, so the methods are specified up to that order.
 */
module Store {
  import opened Wrappers
  import GoSemantics
  import Config

  /* ---------------------------------------------------------------------------
     Constants
     --------------------------------------------------------------------------- */

  const RegionLabel: string := "region"
  const MetricNameLabel: string := "__name__"
  /** The upstream aggregation period, fixed whatever the query asks. */
  const PeriodSeconds: nat := 60
  const MaxInt64: int := 0x7fff_ffff_ffff_ffff
  /** The regions offered for the `region` label. */
  const SupportedRegions: seq<string> := ["ap-shanghai", "ap-chengdu", "ap-beijing"]

  /* ---------------------------------------------------------------------------
     Data model
     --------------------------------------------------------------------------- */

  datatype MatchType = EQ | NEQ | RE | NRE
  datatype LabelMatcher = LabelMatcher(matchType: MatchType, name: string, value: string)
  /** A series request; the times are milliseconds since the epoch. */
  datatype SeriesRequest = SeriesRequest(minTime: int, maxTime: int, matchers: seq<LabelMatcher>)

  datatype Label = Label(name: string, value: string)

  /** The upstream API's dimension (a key/value attribute of a monitored resource). */
  datatype Dimension = Dimension(name: string, value: string)
  datatype Instance = Instance(dimensions: seq<Dimension>)

  /**
   The upstream monitoring request. `region` is the region the upstream client
   is built for; `startTime` and `endTime` are whole seconds since the epoch
   (the source renders them as RFC 3339 text).
   */
  datatype MonitorRequest = MonitorRequest(
    region: string,
    namespace: string,
    metricName: string,
    period: nat,
    startTime: int,
    endTime: int,
    instances: seq<Instance>)

  /** One upstream result: dimensions plus parallel timestamp (seconds) and value lists. */
  datatype DataPoint = DataPoint(dimensions: seq<Dimension>, timestamps: seq<real>, values: seq<real>)
  datatype MonitorResponse = MonitorResponse(dataPoints: seq<DataPoint>)

  /** What the upstream call gives back: an error, or an envelope whose body may be missing. */
  datatype FetchResult =
    | FetchFailed(cause: string)
    | Fetched(response: Option<MonitorResponse>)

  /** A sample as appended to a chunk: milliseconds and value. */
  datatype Sample = Sample(t: int, v: real)
  datatype ChunkEncoding = XOR
  /** A chunk's payload, kept abstractly as the samples appended to it. */
  datatype Chunk = Chunk(encoding: ChunkEncoding, data: seq<Sample>)
  datatype AggrChunk = AggrChunk(minTime: int, maxTime: int, raw: Chunk)
  datatype Series = Series(labels: seq<Label>, chunks: seq<AggrChunk>)

  /** `storeType` is the protobuf code of the serving component, passed through. */
  datatype InfoResponse = InfoResponse(
    labels: seq<Label>,
    storeType: nat,
    minTime: int,
    maxTime: int,
    labelSets: seq<seq<Label>>)

  datatype QueryError =
    | RegionMissing                    // "region missing"
    | NameMissing                      // "name missing"
    | MetricNotSupported(name: string) // "metric %s not support"
    | GetMetricsFailed(cause: string)  // the upstream error, wrapped as "get metrics failed"
    | ResponseNil                      // "getMetric response nil"
    | SendFailed(cause: string)        // the error returned by the stream's Send

  /* ---------------------------------------------------------------------------
     Shared notions
     --------------------------------------------------------------------------- */

  /** `s` lists every element of `keys` exactly once, in some order. */
  ghost predicate Enumerates<T(!new)>(s: seq<T>, keys: set<T>)
  {
    && (forall i, j :: 0 <= i < j < |s| ==> s[i] != s[j])
    && (forall x :: x in s <==> x in keys)
  }

  /** Go's `m[name] != ""` on the external labels: a missing key reads as "". */
  predicate HasExternalValue(extend: map<string, string>, name: string)
  {
    name in extend && extend[name] != ""
  }

  predicate Reserved(name: string)
  {
    name == RegionLabel || name == MetricNameLabel
  }

  /* ---------------------------------------------------------------------------
     Map iteration in Go's unspecified order
     --------------------------------------------------------------------------- */

  /** `for k := range m { keys = append(keys, k) }` */
  method KeysOf<V>(m: map<string, V>) returns (keys: seq<string>)
    ensures Enumerates(keys, m.Keys)
  {
    keys := [];
    var remaining := m.Keys;
    while remaining != {}
      invariant remaining <= m.Keys
      invariant forall i, j :: 0 <= i < j < |keys| ==> keys[i] != keys[j]
      invariant forall x :: x in keys <==> x in m && x !in remaining
      decreases remaining
    {
      var k :| k in remaining;
      keys := keys + [k];
      remaining := remaining - {k};
    }
  }

  /** The external labels as a set of labels. */
  function ExternalLabelSet(extend: map<string, string>): set<Label>
  {
    set k | k in extend :: Label(k, extend[k])
  }

  /** `for k, v := range extend { ls = append(ls, Label{k, v}) }` */
  method LabelsOf(extend: map<string, string>) returns (ls: seq<Label>)
    ensures Enumerates(ls, ExternalLabelSet(extend))
  {
    ls := [];
    var remaining := extend.Keys;
    while remaining != {}
      invariant remaining <= extend.Keys
      invariant forall i, j :: 0 <= i < j < |ls| ==> ls[i] != ls[j]
      invariant forall i :: 0 <= i < |ls| ==> ls[i].name in extend && ls[i].name !in remaining
      invariant forall l :: l in ls <==> l in ExternalLabelSet(extend) && l.name !in remaining
      decreases remaining
    {
      var k :| k in remaining;
      ls := ls + [Label(k, extend[k])];
      remaining := remaining - {k};
    }
  }

  /* ---------------------------------------------------------------------------
     Query translation
     --------------------------------------------------------------------------- */

  /** The lookup built from the matchers: equality matchers only, a later one replacing an earlier one of the same name. */
  function EqLookup(matchers: seq<LabelMatcher>): map<string, LabelMatcher>
  {
    if |matchers| == 0 then map[]
    else
      var previous := EqLookup(matchers[..|matchers| - 1]);
      var m := matchers[|matchers| - 1];
      if m.matchType == EQ then previous[m.name := m] else previous
  }

  /** labelMatcherToMap */
  method LabelMatcherToMap(matchers: seq<LabelMatcher>) returns (r: map<string, LabelMatcher>)
    ensures r == EqLookup(matchers)
  {
    r := map[];
    for i := 0 to |matchers|
      invariant r == EqLookup(matchers[..i])
    {
      assert matchers[..i + 1][..i] == matchers[..i];
      if matchers[i].matchType == EQ {
        r := r[matchers[i].name := matchers[i]];
      }
    }
    assert matchers[..|matchers|] == matchers;
  }

  /** safeGetValue: the matcher's value, or "" when there is none. */
  function SafeGetValue(m: map<string, LabelMatcher>, key: string): (v: string)
    ensures key !in m ==> v == ""
    ensures v != "" ==> key in m && m[key].value == v
  {
    if key in m then m[key].value else ""
  }

  function InstanceOf(m: LabelMatcher): Instance
  {
    Instance([Dimension(m.name, m.value)])
  }

  /** The keys whose matcher becomes an upstream instance filter. */
  function DimensionKeys(matchers: map<string, LabelMatcher>): set<string>
  {
    set k | k in matchers && !Reserved(matchers[k].name)
  }

  /** `instances` holds one single-dimension instance per dimension key, in some order. */
  ghost predicate InstancesFor(matchers: map<string, LabelMatcher>, instances: seq<Instance>)
  {
    exists order: seq<string> ::
      && Enumerates(order, DimensionKeys(matchers))
      && |order| == |instances|
      && forall i :: 0 <= i < |order| ==> order[i] in matchers && instances[i] == InstanceOf(matchers[order[i]])
  }

  /** makeMonitorInstance */
  method MakeMonitorInstance(matchers: map<string, LabelMatcher>) returns (ret: seq<Instance>)
    ensures InstancesFor(matchers, ret)
    ensures |ret| == |DimensionKeys(matchers)|
  {
    ret := [];
    ghost var order: seq<string> := [];
    var remaining := matchers.Keys;
    while remaining != {}
      invariant remaining <= matchers.Keys
      invariant |order| == |ret|
      invariant forall i, j :: 0 <= i < j < |order| ==> order[i] != order[j]
      invariant forall k :: k in order <==> k in DimensionKeys(matchers) && k !in remaining
      invariant forall i :: 0 <= i < |order| ==> order[i] in matchers && ret[i] == InstanceOf(matchers[order[i]])
      decreases remaining
    {
      var k :| k in remaining;
      var m := matchers[k];
      if !(m.name == RegionLabel || m.name == MetricNameLabel) {
        ret := ret + [InstanceOf(m)];
        order := order + [k];
      }
      remaining := remaining - {k};
    }
    EnumerationSize(order, DimensionKeys(matchers));
  }

  /** `request` is the upstream request for a query with this region, metric and time range. */
  ghost predicate RequestFor(
    request: MonitorRequest, q: SeriesRequest, region: string, metric: Config.TencentMetric)
  {
    && request.region == region
    && request.namespace == metric.namespace
    && request.metricName == metric.metricsName
    && request.period == PeriodSeconds
    && request.startTime == GoSemantics.DivTrunc1000(q.minTime)
    && request.endTime == GoSemantics.DivTrunc1000(q.maxTime)
    && InstancesFor(EqLookup(q.matchers), request.instances)
  }

  /* ---------------------------------------------------------------------------
     Label set builder
     --------------------------------------------------------------------------- */

  /** The dimensions, as labels and in order, that no non-empty external label overrides. */
  function KeptDimensions(dims: seq<Dimension>, extend: map<string, string>): seq<Label>
  {
    if |dims| == 0 then []
    else
      var d := dims[|dims| - 1];
      KeptDimensions(dims[..|dims| - 1], extend) +
        (if HasExternalValue(extend, d.name) then [] else [Label(d.name, d.value)])
  }

  /** Sorted ascending by name, as `sort.Slice` with `lset[i].Name < lset[j].Name` leaves it. */
  predicate SortedByName(ls: seq<Label>)
  {
    forall i, j :: 0 <= i < j < |ls| ==> GoSemantics.LessEq(ls[i].name, ls[j].name)
  }

  /** `lset` is the label set built from `dims` and the external labels. */
  ghost predicate BuiltLabelSet(dims: seq<Dimension>, extend: map<string, string>, lset: seq<Label>)
  {
    && SortedByName(lset)
    && multiset(lset) == multiset(KeptDimensions(dims, extend)) + multiset(ExternalLabelSet(extend))
  }

  /** sort.Slice by name, in place. */
  method SortByName(a: array<Label>)
    modifies a
    ensures SortedByName(a[..])
    ensures multiset(a[..]) == old(multiset(a[..]))
  {
    if a.Length < 2 {
      return;
    }
    for i := 1 to a.Length
      invariant SortedByName(a[..i])
      invariant multiset(a[..]) == old(multiset(a[..]))
    {
      InsertLast(a, i);
    }
    assert a[..a.Length] == a[..];
  }

  /** Moves a[i] left until a[..i+1] is sorted, given that a[..i] is. */
  method InsertLast(a: array<Label>, i: nat)
    requires i < a.Length
    requires SortedByName(a[..i])
    modifies a
    ensures SortedByName(a[..i + 1])
    ensures forall k :: i < k < a.Length ==> a[k] == old(a[k])
    ensures multiset(a[..]) == old(multiset(a[..]))
  {
    var j := i;
    while j > 0 && GoSemantics.Less(a[j].name, a[j - 1].name)
      invariant 0 <= j <= i
      invariant forall p, q :: 0 <= p < q <= i && p != j && q != j ==> GoSemantics.LessEq(a[p].name, a[q].name)
      invariant forall q :: j < q <= i ==> GoSemantics.LessEq(a[j].name, a[q].name)
      invariant forall k :: i < k < a.Length ==> a[k] == old(a[k])
      invariant multiset(a[..]) == old(multiset(a[..]))
    {
      GoSemantics.LessEqOfLess(a[j].name, a[j - 1].name);
      Swap(a, j - 1, j);
      j := j - 1;
    }
    forall p, q | 0 <= p < q <= i
      ensures GoSemantics.LessEq(a[p].name, a[q].name)
    {
      if q == j && p < j - 1 {
        GoSemantics.LessEqTransitive(a[p].name, a[j - 1].name, a[j].name);
      }
    }
  }

  method Swap(a: array<Label>, i: nat, j: nat)
    requires i < j < a.Length
    modifies a
    ensures a[i] == old(a[j]) && a[j] == old(a[i])
    ensures forall k :: 0 <= k < a.Length && k != i && k != j ==> a[k] == old(a[k])
    ensures multiset(a[..]) == old(multiset(a[..]))
  {
    a[i], a[j] := a[j], a[i];
  }

  /** extendLset: appends the external labels and sorts by name. */
  method ExtendLset(lset: seq<Label>, extend: map<string, string>) returns (r: seq<Label>)
    ensures SortedByName(r)
    ensures multiset(r) == multiset(lset) + multiset(ExternalLabelSet(extend))
  {
    var external := LabelsOf(extend);
    EnumerationMultiset(external, ExternalLabelSet(extend));
    var all := lset + external;
    var a := new Label[|all|](i requires 0 <= i < |all| => all[i]);
    assert a[..] == all;
    SortByName(a);
    r := a[..];
  }

  /** `s` enumerating `keys` means they are the same multiset. */
  lemma {:induction false} EnumerationMultiset<T(!new)>(s: seq<T>, keys: set<T>)
    requires Enumerates(s, keys)
    ensures multiset(s) == multiset(keys)
  {
    if |s| == 0 {
      assert keys == {};
    } else {
      var last := s[|s| - 1];
      var front := s[..|s| - 1];
      assert s == front + [last];
      forall x | x in front
        ensures x != last
      {
        var i :| 0 <= i < |front| && front[i] == x;
      }
      EnumerationMultiset(front, keys - {last});
      assert keys == (keys - {last}) + {last};
    }
  }

  /** An enumeration of a set is as long as the set is large. */
  lemma EnumerationSize<T(!new)>(s: seq<T>, keys: set<T>)
    requires Enumerates(s, keys)
    ensures |s| == |keys|
  {
    EnumerationMultiset(s, keys);
    assert |multiset(s)| == |s|;
    assert |multiset(keys)| == |keys|;
  }

  /* ---------------------------------------------------------------------------
     Chunk assembly
     --------------------------------------------------------------------------- */

  /** A timestamp of the upstream API (float seconds) as chunk milliseconds. */
  function MillisOf(t: real): int
  {
    GoSemantics.TruncToInt(t) * 1000
  }

  /** The samples appended to the chunk: one per value, with the timestamp at the same index. */
  function AppendedSamples(dp: DataPoint): seq<Sample>
    requires |dp.values| <= |dp.timestamps|
  {
    seq(|dp.values|, i requires 0 <= i < |dp.values| => Sample(MillisOf(dp.timestamps[i]), dp.values[i]))
  }

  /** The source indexes `Timestamps[i]` for every value when there is any timestamp. */
  predicate Chunkable(dp: DataPoint)
  {
    |dp.timestamps| == 0 || |dp.values| <= |dp.timestamps|
  }

  /** `chks` is what chunkSamples yields for `dp`. */
  ghost predicate ChunkedFrom(dp: DataPoint, chks: seq<AggrChunk>)
    requires Chunkable(dp)
  {
    if |dp.values| == 0 || |dp.timestamps| == 0 then chks == []
    else chks == [AggrChunk(MillisOf(dp.timestamps[0]), MillisOf(dp.timestamps[|dp.timestamps| - 1]),
                            Chunk(XOR, AppendedSamples(dp)))]
  }

  /** The XOR chunk and its appender; the bit-level encoding is kept abstract. */
  class XorChunk {
    var appended: seq<Sample>

    constructor ()
      ensures appended == []
    {
      appended := [];
    }

    method Append(t: int, v: real)
      modifies this
      ensures appended == old(appended) + [Sample(t, v)]
    {
      appended := appended + [Sample(t, v)];
    }

    /** The encoded chunk; decoding it gives back the appended samples in order. */
    function Bytes(): seq<Sample>
      reads this
    {
      appended
    }
  }

  /* ---------------------------------------------------------------------------
     The store
     --------------------------------------------------------------------------- */

  /** One emitted series: its labels are built from `dp` and its chunks chunked from `dp`. */
  ghost predicate SeriesFor(dp: DataPoint, extend: map<string, string>, s: Series)
  {
    && BuiltLabelSet(dp.dimensions, extend, s.labels)
    && Chunkable(dp)
    && ChunkedFrom(dp, s.chunks)
  }

  /** Every data point the upstream can return has a timestamp for each of its values. */
  ghost predicate UpstreamWellFormed(result: FetchResult)
  {
    result.Fetched? && result.response.Some? ==>
      forall dp :: dp in result.response.value.dataPoints ==> Chunkable(dp)
  }

  /**
   `sent` and `err` are the outcome of sending one series per point in order:
   every series sent is built from its point, every Send but the last succeeded,
   and the run ends either after all points or with the error of the Send that failed.
   */
  ghost predicate Emitted(
    points: seq<DataPoint>, extend: map<string, string>, send: (nat, Series) -> Option<string>,
    sent: seq<Series>, err: Option<QueryError>)
  {
    && |sent| <= |points|
    && (forall i :: 0 <= i < |sent| ==> SeriesFor(points[i], extend, sent[i]))
    && (forall i :: 0 <= i < |sent| - 1 ==> send(i, sent[i]).None?)
    && (err.None? ==> |sent| == |points| && forall i :: 0 <= i < |sent| ==> send(i, sent[i]).None?)
    && (err.Some? ==> |sent| > 0 && send(|sent| - 1, sent[|sent| - 1]).Some? &&
                      err == Some(SendFailed(send(|sent| - 1, sent[|sent| - 1]).value)))
  }

  lemma AppendSeries(points: seq<DataPoint>, extend: map<string, string>, send: (nat, Series) -> Option<string>,
    sent: seq<Series>, series: Series)
    requires |sent| < |points|
    requires forall j :: 0 <= j < |sent| ==> SeriesFor(points[j], extend, sent[j])
    requires forall j :: 0 <= j < |sent| ==> send(j, sent[j]).None?
    requires SeriesFor(points[|sent|], extend, series)
    ensures forall j :: 0 <= j < |sent| + 1 ==> SeriesFor(points[j], extend, (sent + [series])[j])
    ensures send(|sent|, series).None? ==> forall j :: 0 <= j < |sent| + 1 ==> send(j, (sent + [series])[j]).None?
    ensures send(|sent|, series).Some? ==> Emitted(points, extend, send, sent + [series], Some(SendFailed(send(|sent|, series).value)))
  {
    var s' := sent + [series];
    assert forall j :: 0 <= j < |sent| ==> s'[j] == sent[j];
  }

  class TencentStore {
    const config: Config.TencentConfig
    const component: nat

    constructor (config: Config.TencentConfig, component: nat)
      ensures this.config == config && this.component == component
    {
      this.config := config;
      this.component := component;
    }

    /** Info: the external labels, the whole time range, and the labels again as one label set. */
    method Info() returns (res: InfoResponse)
      ensures Enumerates(res.labels, ExternalLabelSet(config.externalLabels))
      ensures res.storeType == component
      ensures res.minTime == 0 && res.maxTime == MaxInt64
      ensures res.labelSets == if |res.labels| > 0 then [res.labels] else []
    {
      var labels := LabelsOf(config.externalLabels);
      res := InfoResponse(labels, component, 0, MaxInt64, []);
      if |res.labels| > 0 {
        res := res.(labelSets := res.labelSets + [res.labels]);
      }
    }

    /** chunkSamples: no chunk for an empty series, otherwise one XOR chunk holding every sample. */
    method ChunkSamples(series: DataPoint) returns (chks: seq<AggrChunk>)
      requires Chunkable(series)
      ensures ChunkedFrom(series, chks)
    {
      if |series.values| == 0 || |series.timestamps| == 0 {
        return [];
      }
      var c := new XorChunk();
      for i := 0 to |series.values|
        invariant c.appended == AppendedSamples(series)[..i]
      {
        c.Append(MillisOf(series.timestamps[i]), series.values[i]);
      }
      assert AppendedSamples(series)[..|series.values|] == AppendedSamples(series);
      chks := [AggrChunk(
        MillisOf(series.timestamps[0]),
        MillisOf(series.timestamps[|series.timestamps| - 1]),
        Chunk(XOR, c.Bytes()))];
    }

    /** translateAndExtendLabels */
    method TranslateAndExtendLabels(m: seq<Dimension>, extend: map<string, string>) returns (lset: seq<Label>)
      ensures BuiltLabelSet(m, extend, lset)
    {
      var kept: seq<Label> := [];
      for i := 0 to |m|
        invariant kept == KeptDimensions(m[..i], extend)
      {
        assert m[..i + 1][..i] == m[..i];
        if !(m[i].name in extend && extend[m[i].name] != "") {
          kept := kept + [Label(m[i].name, m[i].value)];
        }
      }
      assert m[..|m|] == m;
      lset := ExtendLset(kept, extend);
    }

    /** LabelNames: the external label names, then `region` and `__name__`. */
    method LabelNames() returns (labels: seq<string>)
      ensures |labels| == |config.externalLabels| + 2
      ensures Enumerates(labels[..|labels| - 2], config.externalLabels.Keys)
      ensures labels[|labels| - 2..] == [RegionLabel, MetricNameLabel]
    {
      var keys := KeysOf(config.externalLabels);
      labels := keys;
      labels := labels + [RegionLabel];
      labels := labels + [MetricNameLabel];
      assert labels[..|labels| - 2] == keys;
      EnumerationSize(keys, config.externalLabels.Keys);
    }

    /** LabelValues: an external value first, then the fixed regions or the metric names, else nothing. */
    method LabelValues(name: string) returns (values: seq<string>)
      ensures HasExternalValue(config.externalLabels, name) ==> values == [config.externalLabels[name]]
      ensures !HasExternalValue(config.externalLabels, name) && name == RegionLabel ==>
                values == SupportedRegions
      ensures !HasExternalValue(config.externalLabels, name) && name == MetricNameLabel ==>
                Enumerates(values, config.metrics.Keys)
      ensures !HasExternalValue(config.externalLabels, name) && !Reserved(name) ==> values == []
    {
      var externalLset := config.externalLabels;
      if name in externalLset && externalLset[name] != "" {
        return [externalLset[name]];
      }
      if name == RegionLabel {
        return SupportedRegions;
      }
      if name == MetricNameLabel {
        values := KeysOf(config.metrics);
        return;
      }
      return [];
    }

    /** The series for one data point: its translated and extended labels and its chunks. */
    method BuildSeries(data: DataPoint) returns (series: Series)
      requires Chunkable(data)
      ensures SeriesFor(data, config.externalLabels, series)
    {
      var lset := TranslateAndExtendLabels(data.dimensions, config.externalLabels);
      var aggregatedChunks := ChunkSamples(data);
      series := Series(lset, aggregatedChunks);
    }

    /**
     The emission loop of queryMonitor: one series per data point, in order,
     stopping at the first Send that fails.
     */
    method SendSeries(points: seq<DataPoint>, send: (nat, Series) -> Option<string>)
      returns (sent: seq<Series>, err: Option<QueryError>)
      requires forall dp :: dp in points ==> Chunkable(dp)
      ensures Emitted(points, config.externalLabels, send, sent, err)
    {
      sent := [];
      for i := 0 to |points|
        invariant |sent| == i
        invariant forall j :: 0 <= j < i ==> SeriesFor(points[j], config.externalLabels, sent[j])
        invariant forall j :: 0 <= j < i ==> send(j, sent[j]).None?
      {
        var data := points[i];
        assert data in points;
        var series := BuildSeries(data);
        var sendErr := send(i, series);
        AppendSeries(points, config.externalLabels, send, sent, series);
        sent := sent + [series];
        if sendErr.Some? {
          err := Some(SendFailed(sendErr.value));
          return;
        }
      }
      err := None;
    }

    /**
     queryMonitor: translates the request, makes one upstream call and sends one
     series per returned data point. `fetch` stands for the upstream call and
     `send(n, s)` for the stream's answer to the n-th Send. `issued` is the
     upstream request, None when none was made; `sent` lists the series handed
     to Send, the last of them being the rejected one when Send failed.
     */
    method QueryMonitor(
      q: SeriesRequest, fetch: MonitorRequest -> FetchResult, send: (nat, Series) -> Option<string>)
      returns (issued: Option<MonitorRequest>, sent: seq<Series>, err: Option<QueryError>)
      requires forall r :: UpstreamWellFormed(fetch(r))
      ensures var region := SafeGetValue(EqLookup(q.matchers), RegionLabel);
              region == "" ==> issued == None && sent == [] && err == Some(RegionMissing)
      ensures var region := SafeGetValue(EqLookup(q.matchers), RegionLabel);
              var name := SafeGetValue(EqLookup(q.matchers), MetricNameLabel);
              region != "" && name == "" ==> issued == None && sent == [] && err == Some(NameMissing)
      ensures var region := SafeGetValue(EqLookup(q.matchers), RegionLabel);
              var name := SafeGetValue(EqLookup(q.matchers), MetricNameLabel);
              region != "" && name != "" && name !in config.metrics ==>
                issued == None && sent == [] && err == Some(MetricNotSupported(name))
      ensures var region := SafeGetValue(EqLookup(q.matchers), RegionLabel);
              var name := SafeGetValue(EqLookup(q.matchers), MetricNameLabel);
              region != "" && name != "" && name in config.metrics ==>
                issued.Some? && RequestFor(issued.value, q, region, config.metrics[name])
      ensures issued.Some? && fetch(issued.value).FetchFailed? ==>
                sent == [] && err == Some(GetMetricsFailed(fetch(issued.value).cause))
      ensures issued.Some? && fetch(issued.value) == Fetched(None) ==>
                sent == [] && err == Some(ResponseNil)
      ensures issued.Some? && fetch(issued.value).Fetched? && fetch(issued.value).response.Some? ==>
                Emitted(fetch(issued.value).response.value.dataPoints, config.externalLabels, send, sent, err)
    {
      var labelMap := LabelMatcherToMap(q.matchers);
      var region := SafeGetValue(labelMap, RegionLabel);
      var name := SafeGetValue(labelMap, MetricNameLabel);
      if region == "" {
        return None, [], Some(RegionMissing);
      }
      if name == "" {
        return None, [], Some(NameMissing);
      }
      if name !in config.metrics {
        return None, [], Some(MetricNotSupported(name));
      }
      var metricConfig := config.metrics[name];

      var instances := MakeMonitorInstance(labelMap);
      var request := MonitorRequest(
        region,
        metricConfig.namespace,
        metricConfig.metricsName,
        PeriodSeconds,
        GoSemantics.DivTrunc1000(q.minTime),
        GoSemantics.DivTrunc1000(q.maxTime),
        instances);
      issued := Some(request);
      var res := fetch(request);
      if res.FetchFailed? {
        return issued, [], Some(GetMetricsFailed(res.cause));
      }
      if res.response.None? {
        return issued, [], Some(ResponseNil);
      }

      var points := res.response.value.dataPoints;
      assert UpstreamWellFormed(res);
      sent, err := SendSeries(points, send);
    }
  }
}
