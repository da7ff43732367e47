/** How `showMetrics` turns the grouped samples into charts and lays the charts out in
    rows of `width`, in merge mode (one chart per metric, one series per asset) and
    otherwise (one chart per asset and metric). */
module Layout {
  import opened Seqs
  import opened Grouping
  import MenuChart

  /** What a chart is drawn from: its metric, the series names, the series, and the
      series count handed to the chart's menu. */
  datatype ChartSpec = ChartSpec(metric: string, names: seq<string>, series: seq<seq<Sample>>, numSeries: nat)

  /** Rows of at most `width` items: every row but the last is full. */
  function Chunk<T>(xs: seq<T>, width: nat): (r: seq<seq<T>>)
    requires width > 0
    ensures forall k :: 0 <= k < |r| ==> 1 <= |r[k]| <= width
    ensures forall k :: 0 <= k < |r| - 1 ==> |r[k]| == width
    decreases |xs|
  {
    if xs == [] then []
    else if |xs| <= width then [xs]
    else [xs[..width]] + Chunk(xs[width..], width)
  }

  /** Reading the rows in order gives back the items. */
  lemma {:induction false} ChunkConcat<T>(xs: seq<T>, width: nat)
    requires width > 0
    ensures Concat(Chunk(xs, width)) == xs
    decreases |xs|
  {
    if xs != [] && |xs| > width {
      ChunkConcat(xs[width..], width);
      ConcatAppend([xs[..width]], Chunk(xs[width..], width));
      assert xs == xs[..width] + xs[width..];
    }
  }

  /** Every row holds only items of the chunked sequence. */
  lemma {:induction false} ChunkMembers<T>(xs: seq<T>, width: nat, row: seq<T>, x: T)
    requires width > 0
    requires row in Chunk(xs, width) && x in row
    ensures x in xs
    decreases |xs|
  {
    if |xs| > width && row != xs[..width] {
      ChunkMembers(xs[width..], width, row, x);
    }
  }

  function Min(a: int, b: int): int { if a <= b then a else b }

  /** `for (i = 0; i < n; i += width) rows.push(xs.slice(i, i + width))`. */
  method ChunkRows<T>(xs: seq<T>, width: nat) returns (rows: seq<seq<T>>)
    requires width > 0
    ensures rows == Chunk(xs, width)
  {
    rows := [];
    var i := 0;
    while i < |xs|
      invariant 0 <= i
      invariant Chunk(xs, width) == rows + Chunk(xs[Min(i, |xs|)..], width)
      decreases |xs| - i
    {
      var rest := xs[i..];
      if |rest| <= width {
        assert xs[i..Min(i + width, |xs|)] == rest;
        assert xs[Min(i + width, |xs|)..] == [];
      } else {
        assert xs[i..Min(i + width, |xs|)] == rest[..width];
        assert xs[Min(i + width, |xs|)..] == rest[width..];
      }
      rows := rows + [xs[i..Min(i + width, |xs|)]];
      i := i + width;
    }
    assert xs[Min(i, |xs|)..] == [];
  }

  /** `data.get(a).get(m)`, empty when either key is missing. */
  function SeriesOr(d: Data, a: string, m: string): seq<Sample>
  {
    if a in d.entries && m in d.entries[a].entries then d.entries[a].entries[m] else []
  }

  /** The metric keys of asset `a`, in insertion order. */
  function MetricKeys(d: Data, a: string): seq<string>
  {
    if a in d.entries then d.entries[a].keys else []
  }

  /** Merge mode: one chart per metric of the first asset, with one series per asset. */
  function MergedCharts(d: Data): seq<ChartSpec>
  {
    if d.keys == [] then []
    else
      var metrics := Distinct(MetricKeys(d, d.keys[0]));
      seq(|metrics|, k requires 0 <= k < |metrics| =>
        ChartSpec(metrics[k], d.keys,
                  seq(|d.keys|, j requires 0 <= j < |d.keys| => SeriesOr(d, d.keys[j], metrics[k])),
                  |d.keys|))
  }

  /** In merge mode the charts follow the metrics the FIRST asset reported, in order,
      whatever the other assets reported; every chart names all assets and draws, for
      each, the samples of that asset and metric in buffer order. */
  lemma MergedChartsFromFirstAsset(occs: seq<Occurrence>)
    ensures var d := GroupAll(occs);
            var r := MergedCharts(d);
            (occs == [] ==> r == []) &&
            (occs != [] ==>
               d.keys != [] &&
               |r| == |Distinct(MetricsOf(occs, d.keys[0]))| &&
               forall k :: 0 <= k < |r| ==>
                 r[k].metric == Distinct(MetricsOf(occs, d.keys[0]))[k] &&
                 r[k].names == Distinct(AssetsOf(occs)) &&
                 r[k].numSeries == |r[k].series| == |r[k].names| &&
                 forall j :: 0 <= j < |r[k].names| ==> r[k].series[j] == SamplesOf(occs, r[k].names[j], r[k].metric))
  {
    var d := GroupAll(occs);
    GroupAssets(occs);
    if occs != [] {
      assert AssetsOf(occs)[0] in d.keys;
      var first := d.keys[0];
      GroupMetrics(occs, first);
      var metrics := Distinct(MetricKeys(d, first));
      DistinctOfNoDup(d.entries[first].keys);
      assert metrics == Distinct(MetricsOf(occs, first));
      var r := MergedCharts(d);
      forall k | 0 <= k < |r|
        ensures forall j :: 0 <= j < |r[k].names| ==> r[k].series[j] == SamplesOf(occs, r[k].names[j], r[k].metric)
      {
        MergedChartSeries(occs, r[k]);
      }
    }
  }

  /** A merged chart draws, for each asset, that asset's samples of the chart's metric. */
  lemma MergedChartSeries(occs: seq<Occurrence>, c: ChartSpec)
    requires c in MergedCharts(GroupAll(occs))
    ensures forall j :: 0 <= j < |c.names| ==> c.series[j] == SamplesOf(occs, c.names[j], c.metric)
  {
    var d := GroupAll(occs);
    forall j | 0 <= j < |c.names|
      ensures c.series[j] == SamplesOf(occs, c.names[j], c.metric)
    {
      GroupSeries(occs, d.keys[j], c.metric);
    }
  }

  /** One asset's charts as `showMetrics` builds them outside merge mode: the series
      count handed on is the number of SAMPLES of the one series. */
  function AssetChartsAsWritten(d: Data, a: string): seq<ChartSpec>
  {
    var metrics := MetricKeys(d, a);
    seq(|metrics|, k requires 0 <= k < |metrics| =>
      ChartSpec(metrics[k], [a], [SeriesOr(d, a, metrics[k])], |SeriesOr(d, a, metrics[k])|))
  }

  /** One asset's charts outside merge mode, handing on the series count, one. */
  function AssetCharts(d: Data, a: string): seq<ChartSpec>
  {
    var metrics := MetricKeys(d, a);
    seq(|metrics|, k requires 0 <= k < |metrics| =>
      ChartSpec(metrics[k], [a], [SeriesOr(d, a, metrics[k])], 1))
  }

  /** The state the chart's menu opens in; only the series count matters here. */
  function MenuFor(c: ChartSpec): MenuChart.MenuState
  {
    MenuChart.MenuState(MenuChart.AreaChart, false, true, true, c.numSeries, false)
  }

  /** As written, a chart of a single asset offers the pie chart once its one series
      holds two samples. */
  lemma AsWrittenOffersPieForOneSeries()
    ensures var s := Sample("10:00:00", 1);
            var d := OrderedMap(["pod"], map["pod" := OrderedMap(["cpu"], map["cpu" := [s, s]])]);
            var c := AssetChartsAsWritten(d, "pod")[0];
            |c.series| == 1 && !MenuChart.Items(MenuFor(c))[3].disabled
  {
    var s := Sample("10:00:00", 1);
    var d := OrderedMap(["pod"], map["pod" := OrderedMap(["cpu"], map["cpu" := [s, s]])]);
    assert SeriesOr(d, "pod", "cpu") == [s, s];
    MenuChart.DisabledItems(MenuFor(AssetChartsAsWritten(d, "pod")[0]));
  }

  /** With the series count corrected, the pie chart is withheld from every chart of a
      single asset, and each such chart draws exactly that asset's series. */
  lemma PieWithheldPerAsset(occs: seq<Occurrence>, a: string)
    ensures var d := GroupAll(occs);
            var cs := AssetCharts(d, a);
            |cs| == |Distinct(MetricsOf(occs, a))| &&
            forall k :: 0 <= k < |cs| ==>
              MenuChart.Items(MenuFor(cs[k]))[3].disabled &&
              cs[k].metric == Distinct(MetricsOf(occs, a))[k] &&
              cs[k].names == [a] && cs[k].series == [SamplesOf(occs, a, cs[k].metric)]
  {
    var d := GroupAll(occs);
    GroupMetrics(occs, a);
    var cs := AssetCharts(d, a);
    forall k | 0 <= k < |cs|
      ensures MenuChart.Items(MenuFor(cs[k]))[3].disabled
      ensures cs[k].series == [SamplesOf(occs, a, cs[k].metric)]
    {
      MenuChart.DisabledItems(MenuFor(cs[k]));
      GroupSeries(occs, a, cs[k].metric);
    }
  }

  /** As written, each chart of one asset follows the asset's distinct metrics, draws
      exactly its samples of that metric, and hands on their number as the series
      count. */
  lemma AssetChartsFromSamples(occs: seq<Occurrence>, a: string)
    ensures var d := GroupAll(occs);
            var cs := AssetChartsAsWritten(d, a);
            |cs| == |Distinct(MetricsOf(occs, a))| &&
            forall k :: 0 <= k < |cs| ==>
              cs[k].metric == Distinct(MetricsOf(occs, a))[k] &&
              cs[k].names == [a] && cs[k].series == [SamplesOf(occs, a, cs[k].metric)] &&
              cs[k].numSeries == |SamplesOf(occs, a, cs[k].metric)|
  {
    var d := GroupAll(occs);
    GroupMetrics(occs, a);
    var cs := AssetChartsAsWritten(d, a);
    forall k | 0 <= k < |cs|
      ensures cs[k].series == [SamplesOf(occs, a, cs[k].metric)]
    {
      GroupSeries(occs, a, cs[k].metric);
    }
  }

  /** The rows of each asset's charts, asset by asset. */
  function AssetRows(d: Data, width: nat): (r: seq<seq<seq<ChartSpec>>>)
    requires width > 0
    ensures |r| == |d.keys|
    ensures forall i :: 0 <= i < |d.keys| ==> r[i] == Chunk(AssetChartsAsWritten(d, d.keys[i]), width)
  {
    seq(|d.keys|, i requires 0 <= i < |d.keys| => Chunk(AssetChartsAsWritten(d, d.keys[i]), width))
  }

  /** The rows outside merge mode: each asset's charts are chunked on their own. */
  function SeparateRows(d: Data, width: nat): seq<seq<ChartSpec>>
    requires width > 0
  {
    Concat(AssetRows(d, width))
  }

  /** The row loops outside merge mode, one asset's charts after another. */
  method LayoutSeparate(d: Data, width: nat) returns (rows: seq<seq<ChartSpec>>)
    requires width > 0
    ensures rows == SeparateRows(d, width)
  {
    ghost var parts := AssetRows(d, width);
    rows := [];
    for i := 0 to |d.keys|
      invariant rows == Concat(parts[..i])
    {
      var assetRows := ChunkRows(AssetChartsAsWritten(d, d.keys[i]), width);
      ConcatPrefixStep(parts, i);
      rows := rows + assetRows;
    }
    assert parts[..|d.keys|] == parts;
  }

  /** Outside merge mode no row mixes two assets, and every row holds between one and
      `width` charts; each chart draws one series and, as written, hands on its sample
      count as the series count. */
  lemma NoRowMixesAssets(d: Data, width: nat)
    requires width > 0
    ensures var rows := SeparateRows(d, width);
            forall k :: 0 <= k < |rows| ==>
              1 <= |rows[k]| <= width &&
              exists i :: 0 <= i < |d.keys| && forall c: ChartSpec :: c in rows[k] ==>
                c.names == [d.keys[i]] && |c.series| == 1 && c.numSeries == |c.series[0]|
  {
    var parts := AssetRows(d, width);
    var rows := SeparateRows(d, width);
    forall k | 0 <= k < |rows|
      ensures 1 <= |rows[k]| <= width
      ensures exists i :: 0 <= i < |d.keys| && forall c: ChartSpec :: c in rows[k] ==>
                c.names == [d.keys[i]] && |c.series| == 1 && c.numSeries == |c.series[0]|
    {
      InConcat(parts, rows[k]);
      var i :| 0 <= i < |parts| && rows[k] in parts[i];
      forall c: ChartSpec | c in rows[k]
        ensures c.names == [d.keys[i]] && |c.series| == 1 && c.numSeries == |c.series[0]|
      {
        ChunkMembers(AssetChartsAsWritten(d, d.keys[i]), width, rows[k], c);
      }
    }
  }

  /** The rows in merge mode: the merged charts chunked by `width`. */
  method LayoutMerged(d: Data, width: nat) returns (rows: seq<seq<ChartSpec>>)
    requires width > 0
    ensures rows == Chunk(MergedCharts(d), width)
    ensures Concat(rows) == MergedCharts(d)
    ensures forall k :: 0 <= k < |rows| ==> 1 <= |rows[k]| <= width
  {
    var charts := MergedCharts(d);
    rows := ChunkRows(charts, width);
    ChunkConcat(charts, width);
  }
}
