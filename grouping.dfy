/** How `showMetrics` groups the buffered metrics messages into one sample series per
    asset and metric before any chart is drawn. */
module Grouping {
  import opened Kwirth
  import opened Seqs

  /** One point of a series: the formatted time of its message and the value. */
  datatype Sample = Sample(timestamp: string, value: int)

  /** A JavaScript `Map`: its keys in insertion order and its entries. */
  datatype OrderedMap<K, V> = OrderedMap(keys: seq<K>, entries: map<K, V>)

  /** `m.set(k, v)`: a new key goes to the end of the key order, an existing key keeps
      its place. */
  function Set<K, V>(m: OrderedMap<K, V>, k: K, v: V): OrderedMap<K, V>
  {
    OrderedMap(if k in m.entries then m.keys else m.keys + [k], m.entries[k := v])
  }

  /** The grouped data: asset name -> metric name -> samples. */
  type Data = OrderedMap<string, OrderedMap<string, seq<Sample>>>

  /** One metric value of one asset in one message, where the grouping pushes a sample. */
  datatype Occurrence = Occurrence(asset: string, metric: string, sample: Sample)

  /** The occurrences of one asset's values, in order. */
  function ValueOccs(asset: string, values: seq<MetricValue>, ts: string): seq<Occurrence>
  {
    seq(|values|, k requires 0 <= k < |values| =>
      Occurrence(asset, values[k].metricName, Sample(ts, values[k].metricValue)))
  }

  /** The occurrences of one message's assets, in order. */
  function AssetOccs(assets: seq<AssetMetrics>, ts: string): seq<Occurrence>
  {
    if assets == [] then []
    else
      var last := assets[|assets| - 1];
      AssetOccs(assets[..|assets| - 1], ts) + ValueOccs(last.assetName, last.values, ts)
  }

  /** Every occurrence in the buffer, oldest message first; `clock` formats a message
      timestamp as the time of day. */
  function Occurrences(messages: seq<MetricsMessage>, clock: int -> string): seq<Occurrence>
  {
    if messages == [] then []
    else
      var last := messages[|messages| - 1];
      Occurrences(messages[..|messages| - 1], clock) + AssetOccs(last.assets, clock(last.timestamp))
  }

  /** The data after the sample of one occurrence is pushed: the asset and the metric
      are created on first sight. */
  function Add(d: Data, o: Occurrence): Data
  {
    var inner := if o.asset in d.entries then d.entries[o.asset] else OrderedMap([], map[]);
    var samples := if o.metric in inner.entries then inner.entries[o.metric] else [];
    Set(d, o.asset, Set(inner, o.metric, samples + [o.sample]))
  }

  /** The data after pushing a run of occurrences onto `d`. */
  function Fold(d: Data, occs: seq<Occurrence>): Data
  {
    if occs == [] then d else Add(Fold(d, occs[..|occs| - 1]), occs[|occs| - 1])
  }

  function GroupAll(occs: seq<Occurrence>): Data
  {
    Fold(OrderedMap([], map[]), occs)
  }

  /** The assets of the occurrences, in order. */
  function AssetsOf(occs: seq<Occurrence>): (r: seq<string>)
    ensures |r| == |occs|
  {
    if occs == [] then [] else AssetsOf(occs[..|occs| - 1]) + [occs[|occs| - 1].asset]
  }

  /** The metrics of asset `a`'s occurrences, in order. */
  function MetricsOf(occs: seq<Occurrence>, a: string): seq<string>
  {
    if occs == [] then []
    else
      var o := occs[|occs| - 1];
      MetricsOf(occs[..|occs| - 1], a) + (if o.asset == a then [o.metric] else [])
  }

  /** The samples of asset `a` and metric `m`, in order. */
  function SamplesOf(occs: seq<Occurrence>, a: string, m: string): seq<Sample>
  {
    if occs == [] then []
    else
      var o := occs[|occs| - 1];
      SamplesOf(occs[..|occs| - 1], a, m) + (if o.asset == a && o.metric == m then [o.sample] else [])
  }

  /** The occurrences of one more value end with that value's occurrence. */
  lemma ValueOccsStep(asset: string, values: seq<MetricValue>, k: nat, ts: string)
    requires k < |values|
    ensures ValueOccs(asset, values[..k + 1], ts) ==
            ValueOccs(asset, values[..k], ts) + [Occurrence(asset, values[k].metricName, Sample(ts, values[k].metricValue))]
  {
    var l := ValueOccs(asset, values[..k + 1], ts);
    var r := ValueOccs(asset, values[..k], ts) + [Occurrence(asset, values[k].metricName, Sample(ts, values[k].metricValue))];
    assert |l| == |r|;
    forall i | 0 <= i < |l| ensures l[i] == r[i] {
      assert values[..k + 1][i] == values[i];
    }
  }

  lemma LastSplit<T>(s: seq<T>, x: T)
    ensures (s + [x])[..|s|] == s
  {
  }

  /** The assets of the grouped data are those that had at least one value, in order of
      first appearance. */
  lemma {:induction false} GroupAssets(occs: seq<Occurrence>)
    ensures GroupAll(occs).keys == Distinct(AssetsOf(occs))
    ensures forall a :: a in GroupAll(occs).entries <==> a in AssetsOf(occs)
  {
    if occs != [] {
      var init := occs[..|occs| - 1];
      var o := occs[|occs| - 1];
      GroupAssets(init);
      assert AssetsOf(occs) == AssetsOf(init) + [o.asset];
      LastSplit(AssetsOf(init), o.asset);
    }
  }

  /** The metrics of each asset are those it reported, in order of first appearance. */
  lemma {:induction false} GroupMetrics(occs: seq<Occurrence>, a: string)
    ensures a in GroupAll(occs).entries ==>
              GroupAll(occs).entries[a].keys == Distinct(MetricsOf(occs, a)) &&
              forall m :: m in GroupAll(occs).entries[a].entries <==> m in MetricsOf(occs, a)
    ensures a !in GroupAll(occs).entries ==> MetricsOf(occs, a) == []
  {
    if occs != [] {
      var init := occs[..|occs| - 1];
      var o := occs[|occs| - 1];
      GroupMetrics(init, a);
      var g := GroupAll(init);
      assert GroupAll(occs) == Add(g, o);
      if o.asset == a {
        var ms := MetricsOf(init, a);
        assert MetricsOf(occs, a) == ms + [o.metric];
        var inner := if a in g.entries then g.entries[a] else OrderedMap([], map[]);
        var v := (if o.metric in inner.entries then inner.entries[o.metric] else []) + [o.sample];
        AddMetric(inner, ms, o.metric, v);
        assert GroupAll(occs).entries[a] == Set(inner, o.metric, v);
      } else {
        assert MetricsOf(occs, a) == MetricsOf(init, a);
      }
    }
  }

  /** Setting a metric in an inner map that lists the metrics `ms` lists `ms + [m]`. */
  lemma AddMetric(inner: OrderedMap<string, seq<Sample>>, ms: seq<string>, m: string, v: seq<Sample>)
    requires inner.keys == Distinct(ms)
    requires forall x :: x in inner.entries <==> x in ms
    ensures Set(inner, m, v).keys == Distinct(ms + [m])
    ensures forall x :: x in Set(inner, m, v).entries <==> x in ms + [m]
  {
    LastSplit(ms, m);
  }

  /** Each series holds one sample per occurrence of its asset and metric, in buffer
      order. */
  lemma {:induction false} GroupSeries(occs: seq<Occurrence>, a: string, m: string)
    ensures a in GroupAll(occs).entries && m in GroupAll(occs).entries[a].entries ==>
              GroupAll(occs).entries[a].entries[m] == SamplesOf(occs, a, m)
    ensures !(a in GroupAll(occs).entries && m in GroupAll(occs).entries[a].entries) ==>
              SamplesOf(occs, a, m) == []
  {
    if occs != [] {
      var init := occs[..|occs| - 1];
      GroupSeries(init, a, m);
    }
  }

  /** Setting a key twice keeps the second value and the first placement. */
  lemma SetTwice<K, V>(m: OrderedMap<K, V>, k: K, v: V, w: V)
    ensures Set(Set(m, k, v), k, w) == Set(m, k, w)
  {
    assert m.entries[k := v][k := w] == m.entries[k := w];
  }

  /** The steps of the inner loop body: `set` the asset if new, `set` the metric if
      new, then push the sample. */
  method Push(d: Data, o: Occurrence) returns (r: Data)
    ensures r == Add(d, o)
  {
    var empty: OrderedMap<string, seq<Sample>> := OrderedMap([], map[]);
    r := d;
    if o.asset !in r.entries {
      r := Set(r, o.asset, empty);
    }
    ghost var r1 := r;
    if o.metric !in r.entries[o.asset].entries {
      r := Set(r, o.asset, Set(r.entries[o.asset], o.metric, []));
    }
    var inner := r.entries[o.asset];
    ghost var inner0 := r1.entries[o.asset];
    assert inner == if o.metric in inner0.entries then inner0 else Set(inner0, o.metric, []);
    r := Set(r, o.asset, Set(inner, o.metric, inner.entries[o.metric] + [o.sample]));
    if o.metric !in inner0.entries {
      SetTwice(inner0, o.metric, [], [o.sample]);
      assert [] + [o.sample] == [o.sample];
    }
    if o.asset in d.entries {
      assert r1 == d;
      if o.metric !in inner0.entries {
        SetTwice(d, o.asset, Set(inner0, o.metric, []), Set(inner, o.metric, inner.entries[o.metric] + [o.sample]));
      }
    } else {
      assert inner0 == empty;
      SetTwice(d, o.asset, empty, Set(empty, o.metric, []));
      SetTwice(d, o.asset, empty, Set(inner, o.metric, inner.entries[o.metric] + [o.sample]));
    }
  }

  /** Pushing two runs one after the other is pushing their concatenation. */
  lemma {:induction false} FoldAppend(d: Data, a: seq<Occurrence>, b: seq<Occurrence>)
    ensures Fold(d, a + b) == Fold(Fold(d, a), b)
    decreases |b|
  {
    if b == [] {
      assert a + b == a;
    } else {
      var b0 := b[..|b| - 1];
      FoldAppend(d, a, b0);
      assert (a + b)[..|a + b| - 1] == a + b0;
    }
  }

  /** The innermost loop: push every value of one asset. */
  method PushValues(d0: Data, assetName: string, values: seq<MetricValue>, timestamp: string) returns (d: Data)
    ensures d == Fold(d0, ValueOccs(assetName, values, timestamp))
  {
    d := d0;
    for k := 0 to |values|
      invariant d == Fold(d0, ValueOccs(assetName, values[..k], timestamp))
    {
      var o := Occurrence(assetName, values[k].metricName, Sample(timestamp, values[k].metricValue));
      d := Push(d, o);
      ValueOccsStep(assetName, values, k, timestamp);
      LastSplit(ValueOccs(assetName, values[..k], timestamp), o);
    }
    assert values[..|values|] == values;
  }

  /** The middle loop: push every asset of one message. */
  method PushAssets(d0: Data, assets: seq<AssetMetrics>, timestamp: string) returns (d: Data)
    ensures d == Fold(d0, AssetOccs(assets, timestamp))
  {
    d := d0;
    for j := 0 to |assets|
      invariant d == Fold(d0, AssetOccs(assets[..j], timestamp))
    {
      d := PushValues(d, assets[j].assetName, assets[j].values, timestamp);
      assert assets[..j + 1][..j] == assets[..j];
      FoldAppend(d0, AssetOccs(assets[..j], timestamp), ValueOccs(assets[j].assetName, assets[j].values, timestamp));
    }
    assert assets[..|assets|] == assets;
  }

  /** The three nested loops of `showMetrics` over messages, assets and values. */
  method GroupSamples(messages: seq<MetricsMessage>, clock: int -> string) returns (d: Data)
    ensures d == GroupAll(Occurrences(messages, clock))
  {
    d := OrderedMap([], map[]);
    for i := 0 to |messages|
      invariant d == GroupAll(Occurrences(messages[..i], clock))
    {
      var timestamp := clock(messages[i].timestamp);
      d := PushAssets(d, messages[i].assets, timestamp);
      assert messages[..i + 1][..i] == messages[..i];
      FoldAppend(OrderedMap([], map[]), Occurrences(messages[..i], clock), AssetOccs(messages[i].assets, timestamp));
    }
    assert messages[..|messages|] == messages;
  }
}
