/** Entities shared by the metrics viewer: clusters and their pods, access keys,
    status lines and the instance-message envelope that travels over the stream. */
module Kwirth {

  datatype Option<T> = None | Some(value: T)

  /** Severity of a signal message and of the status line it produces. */
  datatype Level = Info | Warning | Error | OtherLevel(name: string)

  /** One line of the status log. Every line the viewer adds has message type SIGNAL,
      so the type is not stored. */
  datatype StatusLine = StatusLine(level: Level, text: string)

  /** Scopes an access key can be negotiated for. */
  datatype Scope = StreamScope | RestartScope | OtherScope(name: string)

  /** An opaque access key; only its serialised form and its resource list are used. */
  datatype AccessKey = AccessKey(id: string, resources: string)

  datatype Pod = Pod(name: string, namespace: string, containers: seq<string>)

  /** A cluster the entity runs in, as returned by the access negotiation. The newer
      viewer calls the pod list `pods`, the older one `data`; both are `pods` here. */
  datatype Cluster = Cluster(
    name: string,
    title: string,
    pods: seq<Pod>,
    metrics: seq<string>,
    accessKeys: map<Scope, AccessKey>,
    url: string)

  /** One metric reading of one asset; the numeric value is kept opaque as an int. */
  datatype MetricValue = MetricValue(metricName: string, metricValue: int)
  datatype AssetMetrics = AssetMetrics(assetName: string, values: seq<MetricValue>)

  /** The payload of a DATA message on the metrics channel. Timestamp 0 marks the
      initial values of a freshly started stream. */
  datatype MetricsMessage = MetricsMessage(timestamp: int, assets: seq<AssetMetrics>)

  datatype Channel = MetricsChannel | OpsChannel | OtherChannel(name: string)
  datatype MessageType = DataType | SignalType | OtherType(name: string)
  datatype Flow = Request | Response | Immediate | OtherFlow(name: string)
  datatype Action = StartAction | StopAction | CommandAction | RouteAction | OtherAction(name: string)

  /** A parsed inbound envelope: the header fields every message has, and the payload
      fields each kind of message uses (a SIGNAL its level and text, a DATA message its
      metrics, an operations response its `data.data`). */
  datatype InstanceMessage = InstanceMessage(
    channel: Channel,
    msgType: MessageType,
    flow: Flow,
    action: Action,
    instance: string,
    level: Level,
    text: string,
    metrics: MetricsMessage,
    opsData: Option<string>)

  /** `clusters.find(c => c.name === name)`: the first cluster with that name. */
  function FindCluster(clusters: seq<Cluster>, name: string): (r: Option<Cluster>)
    ensures r.None? <==> forall c :: c in clusters ==> c.name != name
    ensures r.Some? ==> r.value.name == name
    ensures r.Some? ==> exists i :: 0 <= i < |clusters| && clusters[i] == r.value &&
                                   forall k :: 0 <= k < i ==> clusters[k].name != name
  {
    if clusters == [] then None
    else if clusters[0].name == name then Some(clusters[0])
    else
      var r := FindCluster(clusters[1..], name);
      assert r.Some? ==> exists i :: 0 <= i < |clusters| && clusters[i] == r.value &&
                                     forall k :: 0 <= k < i ==> clusters[k].name != name by {
        if r.Some? {
          var i :| 0 <= i < |clusters[1..]| && clusters[1..][i] == r.value &&
                   forall k :: 0 <= k < i ==> clusters[1..][k].name != name;
          assert clusters[i + 1] == r.value;
          forall k | 0 <= k < i + 1 ensures clusters[k].name != name {
            if k > 0 { assert clusters[k] == clusters[1..][k - 1]; }
          }
        }
      }
      r
  }

  /** `pods.filter(p => namespaces.includes(p.namespace))`, in cluster order. */
  function PodsIn(pods: seq<Pod>, namespaces: seq<string>): (r: seq<Pod>)
    ensures forall p :: p in r <==> p in pods && p.namespace in namespaces
    ensures |r| <= |pods|
  {
    if pods == [] then []
    else
      var rest := PodsIn(pods[..|pods| - 1], namespaces);
      var p := pods[|pods| - 1];
      assert pods == pods[..|pods| - 1] + [p];
      if p.namespace in namespaces then rest + [p] else rest
  }

  /** The filter distributes over concatenation: the kept pods keep their cluster
      order and their multiplicity. */
  lemma {:induction false} PodsInAppend(a: seq<Pod>, b: seq<Pod>, namespaces: seq<string>)
    ensures PodsIn(a + b, namespaces) == PodsIn(a, namespaces) + PodsIn(b, namespaces)
    decreases |b|
  {
    if b == [] {
      assert a + b == a;
    } else {
      var b0 := b[..|b| - 1];
      assert (a + b)[..|a + b| - 1] == a + b0;
      PodsInAppend(a, b0, namespaces);
    }
  }

  /** One pod is kept exactly when its namespace is selected. */
  lemma PodsInSingle(p: Pod, namespaces: seq<string>)
    ensures PodsIn([p], namespaces) == if p.namespace in namespaces then [p] else []
  {
    assert [p][..0] == [];
  }

  /** When every pod lies in a selected namespace, the filter returns the whole list. */
  lemma {:induction false} PodsInAll(pods: seq<Pod>, namespaces: seq<string>)
    requires forall i :: 0 <= i < |pods| ==> pods[i].namespace in namespaces
    ensures PodsIn(pods, namespaces) == pods
  {
    if pods != [] {
      var init := pods[..|pods| - 1];
      PodsInAll(init, namespaces);
      assert pods == init + [pods[|pods| - 1]];
    }
  }

  /** The names of a list of pods, in the same order. */
  function PodNames(pods: seq<Pod>): (r: seq<string>)
    ensures |r| == |pods| && forall i :: 0 <= i < |pods| ==> r[i] == pods[i].name
  {
    seq(|pods|, i requires 0 <= i < |pods| => pods[i].name)
  }

  /** The namespaces of a list of pods, in pod order. */
  function NamespacesOf(pods: seq<Pod>): (r: seq<string>)
    ensures |r| == |pods| && forall i :: 0 <= i < |pods| ==> r[i] == pods[i].namespace
  {
    seq(|pods|, i requires 0 <= i < |pods| => pods[i].namespace)
  }
}
