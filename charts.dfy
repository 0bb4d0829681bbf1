/** The charts of the statistics dashboard (static/js/statistics.js):
    createChart, which draws a chart when it has data and the "No data
    available" placeholder otherwise, and initCharts, which draws the five
    histograms and the time-on-page line chart.

    Chart.js and the canvas are not modelled: a drawing is the value that
    says what ends up on one canvas. */
module Charts {
  import opened Histogram

  datatype ChartKind = Pie | Bar | Line

  /** What one canvas shows: a chart with its labels, data and title, or
      the "No data available" text. */
  datatype Drawing<L, V> =
    | Chart(kind: ChartKind, labels: seq<L>, values: seq<V>, title: string)
    | NoDataMessage

  /** createChart(ctx, type, labels, data, title): a chart exactly when there
      is at least one data point, and then with the given labels, data and
      title; the placeholder otherwise. */
  function CreateChart<L, V>(kind: ChartKind, labels: seq<L>, values: seq<V>, title: string): (d: Drawing<L, V>)
    ensures d.NoDataMessage? <==> |values| == 0
    ensures d.Chart? ==> d == Chart(kind, labels, values, title)
  {
    if |values| > 0 then Chart(kind, labels, values, title) else NoDataMessage
  }

  /** `Object.keys(acc)`: every key once. The order (insertion order, with
      integer-like keys first) is not modelled: any enumeration will do. */
  ghost function KeysOf(acc: map<string, nat>): (ks: seq<string>)
    ensures |ks| == |acc|
    ensures forall k :: k in acc <==> k in ks
    ensures forall i, j :: 0 <= i < j < |ks| ==> ks[i] != ks[j]
    decreases |acc|
  {
    if acc == map[] then []
    else
      var k :| k in acc;
      [k] + KeysOf(acc - {k})
  }

  /** The counts of the keys ks, in that order. */
  function CountsAt(acc: map<string, nat>, ks: seq<string>): (vs: seq<nat>)
    requires forall k :: k in ks ==> k in acc
    ensures |vs| == |ks|
    ensures forall i :: 0 <= i < |ks| ==> vs[i] == acc[ks[i]]
  {
    if ks == [] then [] else [acc[ks[0]]] + CountsAt(acc, ks[1..])
  }

  /** `Object.values(acc)`, in the order of KeysOf. */
  ghost function ValuesOf(acc: map<string, nat>): (vs: seq<nat>)
    ensures |vs| == |acc|
  {
    CountsAt(acc, KeysOf(acc))
  }

  function Sum(vs: seq<nat>): nat {
    if vs == [] then 0 else vs[0] + Sum(vs[1..])
  }

  /** Listing every key once, in any order, the counts add up to the total
      of the counting object. */
  lemma {:induction false} SumCountsAt(acc: map<string, nat>, ks: seq<string>)
    requires forall k :: k in acc <==> k in ks
    requires forall i, j :: 0 <= i < j < |ks| ==> ks[i] != ks[j]
    ensures Sum(CountsAt(acc, ks)) == Total(acc)
    decreases |ks|
  {
    if ks == [] {
      assert acc == map[];
    } else {
      var k, tail := ks[0], ks[1..];
      var rest := acc - {k};
      forall x ensures x in rest <==> x in tail {
        if x in tail {
          var j :| 0 <= j < |tail| && tail[j] == x;
          assert ks[j + 1] == x;
        }
      }
      SumCountsAt(rest, tail);
      assert CountsAt(acc, tail) == CountsAt(rest, tail);
      TotalRemove(acc, k);
    }
  }

  /** The chart of one counting object: its keys as labels, its counts as data. */
  ghost function HistogramChart(kind: ChartKind, acc: map<string, nat>, title: string): Drawing<string, nat> {
    CreateChart(kind, KeysOf(acc), ValuesOf(acc), title)
  }

  /** A histogram chart is the placeholder exactly when nothing was counted;
      otherwise its labels are the counted keys, each once, each bar is the
      count of its label, and the bars add up to the number of things counted. */
  lemma HistogramChartShape(kind: ChartKind, acc: map<string, nat>, title: string)
    ensures HistogramChart(kind, acc, title).NoDataMessage? <==> acc == map[]
    ensures HistogramChart(kind, acc, title).Chart? ==>
              var d := HistogramChart(kind, acc, title);
              d.kind == kind && d.title == title && |d.labels| == |d.values| &&
              (forall k :: k in acc <==> k in d.labels) &&
              (forall i :: 0 <= i < |d.labels| ==> d.values[i] == acc[d.labels[i]]) &&
              Sum(d.values) == Total(acc)
  {
    if acc != map[] {
      var k :| k in acc;
      assert |acc| > 0;
    }
    SumCountsAt(acc, KeysOf(acc));
  }

  /** One entry of chartsConfig. */
  datatype ChartConfig = ChartConfig(field: string, kind: ChartKind, title: string, canvasId: string, isPlugins: bool)

  const ChartsConfig: seq<ChartConfig> := [
    ChartConfig("platform", Pie, "User Platform Distribution", "userChart", false),
    ChartConfig("isp", Bar, "ISP Distribution", "ispChart", false),
    ChartConfig("device_type", Pie, "Device Type Distribution", "deviceChart", false),
    ChartConfig("browser_name", Bar, "Browser Distribution", "browserChart", false),
    ChartConfig(PluginsField, Bar, "Installed Plugins Distribution", "installedPluginsChart", true)
  ]

  const TimeOnPageField := "time_on_page"

  /** What a configured chart counts: the plugin names for the plugin chart,
      the values of its field for the others. */
  ghost function ChartData(users: seq<UserRecord>, c: ChartConfig): map<string, nat>
    requires PluginsAreText(users)
  {
    if c.isPlugins then Counts(PluginTokens(users)) else Counts(FieldKeys(users, c.field))
  }

  /** The time-on-page chart: a line through the records' time on page, in
      record order, labelled 1, 2, ..., n. */
  function TimeOnPageChart(users: seq<UserRecord>): (d: Drawing<nat, FieldValue>)
    ensures d.NoDataMessage? <==> users == []
    ensures d.Chart? ==>
              d.kind == Line && d.title == "Time on Page Distribution" &&
              |d.labels| == |d.values| == |users| &&
              forall i :: 0 <= i < |users| ==> d.labels[i] == i + 1 && d.values[i] == Get(users[i], TimeOnPageField)
  {
    var timeOnPage := seq(|users|, i requires 0 <= i < |users| => Get(users[i], TimeOnPageField));
    CreateChart(Line, seq(|timeOnPage|, i requires 0 <= i < |timeOnPage| => (i + 1) as nat), timeOnPage, "Time on Page Distribution")
  }

  /** The dashboard's charts: one drawing per configured canvas, in
      configuration order, and the time-on-page drawing. */
  datatype Page = Page(charts: seq<(string, Drawing<string, nat>)>, timeOnPage: Drawing<nat, FieldValue>)

  /** initCharts(userInfo). */
  ghost function InitCharts(users: seq<UserRecord>): (p: Page)
    requires PluginsAreText(users)
    ensures |p.charts| == |ChartsConfig|
    ensures forall j :: 0 <= j < |ChartsConfig| ==> p.charts[j].0 == ChartsConfig[j].canvasId
  {
    Page(seq(|ChartsConfig|, j requires 0 <= j < |ChartsConfig| =>
              var c := ChartsConfig[j];
              (c.canvasId, HistogramChart(c.kind, ChartData(users, c), c.title))),
         TimeOnPageChart(users))
  }

  /** A field chart is the placeholder exactly when no record has a truthy
      value of its field. */
  lemma FieldChartEmptyIff(users: seq<UserRecord>, j: nat)
    requires PluginsAreText(users)
    requires j < |ChartsConfig| && !ChartsConfig[j].isPlugins
    ensures InitCharts(users).charts[j].1.NoDataMessage? <==>
            forall i :: 0 <= i < |users| ==> !Truthy(Get(users[i], ChartsConfig[j].field))
  {
    var c := ChartsConfig[j];
    var acc := ChartData(users, c);
    HistogramChartShape(c.kind, acc, c.title);
    AggregateDataCounts(users, c.field);
    if i :| 0 <= i < |users| && Truthy(Get(users[i], c.field)) {
      assert Carries(users, c.field, PropertyKey(Get(users[i], c.field)));
    }
  }

  /** The bars of a field chart add up to the number of records with a
      truthy value of the field, and the bars of the plugin chart to the
      number of plugin names listed over all records. */
  lemma ChartBarsAddUp(users: seq<UserRecord>, j: nat)
    requires PluginsAreText(users)
    requires j < |ChartsConfig| && InitCharts(users).charts[j].1.Chart?
    ensures !ChartsConfig[j].isPlugins ==>
              Sum(InitCharts(users).charts[j].1.values) == TruthyCount(users, ChartsConfig[j].field)
    ensures ChartsConfig[j].isPlugins ==>
              Sum(InitCharts(users).charts[j].1.values) == |PluginTokens(users)|
  {
    var c := ChartsConfig[j];
    HistogramChartShape(c.kind, ChartData(users, c), c.title);
    if c.isPlugins {
      PluginCounts(users);
    } else {
      AggregateDataCounts(users, c.field);
    }
  }

  /** The plugin chart is the placeholder exactly when no record has a
      non-empty plugin string. */
  lemma PluginChartEmptyIff(users: seq<UserRecord>)
    requires PluginsAreText(users)
    ensures InitCharts(users).charts[4].1.NoDataMessage? <==>
            forall i :: 0 <= i < |users| ==> !Truthy(Get(users[i], PluginsField))
  {
    var c := ChartsConfig[4];
    var tokens := PluginTokens(users);
    HistogramChartShape(c.kind, Counts(tokens), c.title);
    PluginTokensEmptyIff(users);
    CountsAreMultiplicities(tokens);
    if tokens != [] {
      assert tokens[0] in Counts(tokens);
    }
  }

  /** With no records every canvas shows the placeholder, the time-on-page
      chart included. */
  lemma NoRecordsNoCharts()
    ensures forall j :: 0 <= j < |ChartsConfig| ==> InitCharts([]).charts[j].1.NoDataMessage?
    ensures InitCharts([]).timeOnPage.NoDataMessage?
  {
    forall j | 0 <= j < |ChartsConfig| ensures InitCharts([]).charts[j].1.NoDataMessage? {
      var c := ChartsConfig[j];
      assert ChartData([], c) == map[];
      HistogramChartShape(c.kind, map[], c.title);
    }
  }
}
