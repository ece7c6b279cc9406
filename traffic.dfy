/** The traffic analysis view: one fetched snapshot for the selected time range, and the chart data
    the view derives from it without touching the network. */
module Traffic {
  import opened Api
  import JsArray

  /** The time ranges the selector offers. */
  datatype Range = OneHour | OneDay | SevenDays | ThirtyDays

  /** The `<option value>` texts of the selector, in display order. */
  const RangeOptions: seq<string> := ["1h", "24h", "7d", "30d"]

  /** The value a range has in the selector and in the `range` query parameter. */
  function RangeText(r: Range): (text: string)
    ensures text in RangeOptions
  {
    match r
    case OneHour => "1h"
    case OneDay => "24h"
    case SevenDays => "7d"
    case ThirtyDays => "30d"
  }

  /** The range an `<option value>` text selects, if it is one of the options. */
  function ParseRange(s: string): (r: Option<Range>)
    ensures r.Some? <==> s in RangeOptions
    ensures r.Some? ==> RangeText(r.value) == s
  {
    if s == "1h" then Some(OneHour)
    else if s == "24h" then Some(OneDay)
    else if s == "7d" then Some(SevenDays)
    else if s == "30d" then Some(ThirtyDays)
    else None
  }

  /** Each range has its own option text, and parsing that text gives the range back. */
  lemma RangeRoundTrip(r: Range)
    ensures RangeText(OneHour) == "1h" && RangeText(OneDay) == "24h"
    ensures RangeText(SevenDays) == "7d" && RangeText(ThirtyDays) == "30d"
    ensures ParseRange(RangeText(r)) == Some(r)
  {
  }

  datatype TrendPoint = TrendPoint(time: string, total: int, white: int, filtered: int, malicious: int)

  datatype SourceCount = SourceCount(source: string, count: int)

  /** `trafficData`: headline counters as the server reports them, the time series and the sources. */
  datatype Snapshot = Snapshot(
    total: int,
    white: int,
    filtered: int,
    malicious: int,
    trends: seq<TrendPoint>,
    sources: seq<SourceCount>)

  /** The snapshot shown before any fetch has succeeded. */
  const EmptySnapshot := Snapshot(0, 0, 0, 0, [], [])

  /** A chart.js dataset; colours and fill options are not modelled. */
  datatype Dataset = Dataset(title: Option<string>, data: seq<int>)

  datatype ChartData = ChartData(labels: seq<string>, datasets: seq<Dataset>)

  /** Every dataset has one value per label. */
  predicate Aligned(c: ChartData)
  {
    forall d :: d in c.datasets ==> |d.data| == |c.labels|
  }

  datatype Request = AnalysisQuery(range: Range)

  const FetchFailed := "获取流量分析数据失败，请重试"

  function TimeOf(p: TrendPoint): string { p.time }
  function TotalOf(p: TrendPoint): int { p.total }
  function WhiteOf(p: TrendPoint): int { p.white }
  function FilteredOf(p: TrendPoint): int { p.filtered }
  function MaliciousOf(p: TrendPoint): int { p.malicious }
  function SourceOf(c: SourceCount): string { c.source }
  function CountOf(c: SourceCount): int { c.count }

  /** `trendChartData`: the time labels and four series (total, white, filtered, malicious). */
  function TrendChart(s: Snapshot): (c: ChartData)
    ensures Aligned(c) && |c.labels| == |s.trends| && |c.datasets| == 4
  {
    ChartData(
      JsArray.Map(s.trends, TimeOf),
      [ Dataset(Some("总流量"), JsArray.Map(s.trends, TotalOf)),
        Dataset(Some("白流量"), JsArray.Map(s.trends, WhiteOf)),
        Dataset(Some("过滤流量"), JsArray.Map(s.trends, FilteredOf)),
        Dataset(Some("恶意流量"), JsArray.Map(s.trends, MaliciousOf)) ])
  }

  /** `sourceChartData`: one slice per source. */
  function SourceChart(s: Snapshot): (c: ChartData)
    ensures Aligned(c) && |c.labels| == |s.sources| && |c.datasets| == 1
  {
    ChartData(JsArray.Map(s.sources, SourceOf), [Dataset(None, JsArray.Map(s.sources, CountOf))])
  }

  /** `summaryChartData`: the white, filtered and malicious counters. */
  function SummaryChart(s: Snapshot): (c: ChartData)
    ensures Aligned(c) && |c.labels| == 3 && |c.datasets| == 1
  {
    ChartData(["白流量", "过滤流量", "恶意流量"], [Dataset(None, [s.white, s.filtered, s.malicious])])
  }

  /** Point i of the time labels and of every trend series is read from `trends[i]`. */
  lemma TrendChartSeries(s: Snapshot)
    ensures forall i :: 0 <= i < |s.trends| ==>
              var c := TrendChart(s);
              && c.labels[i] == s.trends[i].time
              && c.datasets[0].data[i] == s.trends[i].total
              && c.datasets[1].data[i] == s.trends[i].white
              && c.datasets[2].data[i] == s.trends[i].filtered
              && c.datasets[3].data[i] == s.trends[i].malicious
  {
  }

  /** Slice i of the source chart is labelled and sized by `sources[i]`. */
  lemma SourceChartSlices(s: Snapshot)
    ensures forall i :: 0 <= i < |s.sources| ==>
              SourceChart(s).labels[i] == s.sources[i].source && SourceChart(s).datasets[0].data[i] == s.sources[i].count
  {
  }

  /** The summary chart shows white, filtered and malicious in that order; `total` plays no part. */
  lemma SummaryChartExcludesTotal(s: Snapshot, t: int)
    ensures SummaryChart(s).datasets[0].data == [s.white, s.filtered, s.malicious]
    ensures SummaryChart(s.(total := t)) == SummaryChart(s)
  {
  }

  /** Charts of the empty snapshot have no points and a zero summary. */
  lemma EmptySnapshotCharts()
    ensures TrendChart(EmptySnapshot).labels == [] && SourceChart(EmptySnapshot).labels == []
    ensures forall d :: d in TrendChart(EmptySnapshot).datasets ==> d.data == []
    ensures SummaryChart(EmptySnapshot).datasets[0].data == [0, 0, 0]
  {
  }

  /** The component's state: `trafficData`, `loading`, `error`, `timeRange`. */
  class TrafficAnalysis {
    var trafficData: Snapshot
    var loading: bool
    var error: string
    var timeRange: Range

    /** The state of the first render, before the mount effect's fetch. */
    constructor ()
      ensures trafficData == EmptySnapshot && loading && error == "" && RangeText(timeRange) == "24h"
    {
      trafficData := EmptySnapshot;
      loading := true;
      error := "";
      timeRange := OneDay;
    }

    /** `fetchTrafficData`: run on mount, after a range change and by the refresh button. It asks
        for the current range, replaces the snapshot wholesale on success and keeps it on failure. */
    method FetchTrafficData(reply: Reply<Snapshot>) returns (req: Request)
      modifies this
      ensures req == AnalysisQuery(timeRange) && timeRange == old(timeRange)
      ensures !loading
      ensures reply.Ok? ==> trafficData == reply.payload && error == ""
      ensures reply.Err? ==> trafficData == old(trafficData) && error == FetchFailed
    {
      loading := true;
      req := AnalysisQuery(timeRange);
      if reply.Ok? {
        trafficData := reply.payload;
        error := "";
      } else {
        error := FetchFailed;
      }
      loading := false;
    }

    /** The selector's `onChange`: store the range; the effect on `timeRange` fetches only when the
        value actually changed. */
    method SetTimeRange(r: Range, reply: Reply<Snapshot>) returns (req: Option<Request>)
      modifies this
      ensures timeRange == r
      ensures r == old(timeRange) ==>
                req == None && trafficData == old(trafficData) && error == old(error) && loading == old(loading)
      ensures r != old(timeRange) ==> req == Some(AnalysisQuery(r)) && !loading
      ensures r != old(timeRange) && reply.Ok? ==> trafficData == reply.payload && error == ""
      ensures r != old(timeRange) && reply.Err? ==> trafficData == old(trafficData) && error == FetchFailed
    {
      if r == timeRange {
        req := None;
      } else {
        timeRange := r;
        var sent := FetchTrafficData(reply);
        req := Some(sent);
      }
    }
  }
}
