/** The streaming protocol as the metrics viewer speaks it: what an inbound message
    does to the viewer, the start request sent when the socket opens, the restart
    route messages, and the status-log filter. Both viewer variants share these
    definitions; `legacy` selects the older variant where the two differ. */
module StreamProtocol {
  import opened Kwirth
  import opened Seqs
  import SampleWindow

  datatype Result<T> = Ok(value: T) | Err(error: string)

  const OpsPrefix := "Operations message: "
  const InvalidTypePrefix := "Invalid message type received: "

  // ---------------------------------------------------------------- status log

  /** `statusMessages.filter(m => m.level !== level)`, in log order. */
  function ClearLevel(lines: seq<StatusLine>, level: Level): seq<StatusLine>
  {
    if lines == [] then []
    else
      var init, last := lines[..|lines| - 1], lines[|lines| - 1];
      var rest := ClearLevel(init, level);
      if last.level != level then rest + [last] else rest
  }

  /** Clearing keeps exactly the lines of the other levels, and only lines of the log. */
  lemma {:induction false} ClearLevelKeeps(lines: seq<StatusLine>, level: Level)
    ensures var r := ClearLevel(lines, level);
            (forall i :: 0 <= i < |r| ==> r[i].level != level && r[i] in lines) &&
            (forall i :: 0 <= i < |lines| && lines[i].level != level ==> lines[i] in r)
  {
    if lines != [] {
      var init, last := lines[..|lines| - 1], lines[|lines| - 1];
      assert lines == init + [last];
      ClearLevelKeeps(init, level);
      var rest, r := ClearLevel(init, level), ClearLevel(lines, level);
      assert r == if last.level != level then rest + [last] else rest;
      forall i | 0 <= i < |r| ensures r[i].level != level && r[i] in lines {
        if i < |rest| {
          assert r[i] == rest[i] && rest[i] in init;
        }
      }
      forall i | 0 <= i < |lines| && lines[i].level != level ensures lines[i] in r {
        if i < |init| {
          assert lines[i] == init[i] && init[i] in rest;
        }
      }
    }
  }

  /** The lines of one level, which the status dialog lists. */
  function OfLevel(lines: seq<StatusLine>, level: Level): seq<StatusLine>
  {
    if lines == [] then []
    else
      var init, last := lines[..|lines| - 1], lines[|lines| - 1];
      var rest := OfLevel(init, level);
      if last.level == level then rest + [last] else rest
  }

  /** Clearing a level loses exactly the lines of that level: what is kept and what
      the dialog showed together make up the log. */
  lemma {:induction false} ClearLevelSplitsLog(lines: seq<StatusLine>, level: Level)
    ensures multiset(ClearLevel(lines, level)) + multiset(OfLevel(lines, level)) == multiset(lines)
  {
    if lines != [] {
      var init, last := lines[..|lines| - 1], lines[|lines| - 1];
      assert lines == init + [last];
      ClearLevelSplitsLog(init, level);
    }
  }

  /** Clearing is order-preserving: the log of two parts clears part by part. */
  lemma {:induction false} ClearLevelAppend(a: seq<StatusLine>, b: seq<StatusLine>, level: Level)
    ensures ClearLevel(a + b, level) == ClearLevel(a, level) + ClearLevel(b, level)
    decreases |b|
  {
    if b == [] {
      assert a + b == a;
    } else {
      var b0 := b[..|b| - 1];
      assert (a + b)[..|a + b| - 1] == a + b0;
      ClearLevelAppend(a, b0, level);
    }
  }

  /** Clearing the same level twice is the same as clearing it once. */
  lemma {:induction false} ClearLevelIdempotent(lines: seq<StatusLine>, level: Level)
    ensures ClearLevel(ClearLevel(lines, level), level) == ClearLevel(lines, level)
  {
    if lines != [] {
      var init, last := lines[..|lines| - 1], lines[|lines| - 1];
      ClearLevelIdempotent(init, level);
      var rest := ClearLevel(init, level);
      if last.level != level {
        assert (rest + [last])[..|rest + [last]| - 1] == rest;
      }
    }
  }

  // ----------------------------------------------------------- inbound messages

  /** What one inbound message does to the viewer's state. */
  datatype Effect =
    | NoEffect
    | ResetBuffer(first: MetricsMessage)
    | SlideBuffer(msg: MetricsMessage)
    | SetInstance(instance: string)
    | AddLine(line: StatusLine)

  /** `processMetricsMessage`: dispatch of a metrics-channel message on its type. */
  function MetricsEffect(legacy: bool, m: InstanceMessage, now: int): (e: Effect)
    ensures e.ResetBuffer? <==> m.msgType == DataType && m.metrics.timestamp == 0
    ensures e.ResetBuffer? ==> e.first == m.metrics.(timestamp := now)
    ensures e.SlideBuffer? <==> m.msgType == DataType && m.metrics.timestamp != 0
    ensures e.SlideBuffer? ==> e.msg == m.metrics
    ensures e.SetInstance? <==>
              m.msgType == SignalType && m.flow == Response && m.action == StartAction && m.instance != ""
    ensures e.SetInstance? ==> e.instance == m.instance
    ensures m.msgType == SignalType && !(m.flow == Response && m.action == StartAction) ==>
              (e.AddLine? <==> legacy || m.text != "")
    ensures m.msgType == SignalType && m.flow == Response && m.action == StartAction && m.instance == "" ==>
              e == NoEffect
    ensures m.msgType == SignalType && e.AddLine? ==> e.line == StatusLine(m.level, m.text)
    ensures m.msgType.OtherType? ==> e == AddLine(StatusLine(Error, InvalidTypePrefix + m.msgType.name))
  {
    match m.msgType
    case DataType =>
      if m.metrics.timestamp == 0 then ResetBuffer(m.metrics.(timestamp := now))
      else SlideBuffer(m.metrics)
    case SignalType =>
      if m.flow == Response && m.action == StartAction then
        if m.instance != "" then SetInstance(m.instance) else NoEffect
      else if legacy || m.text != "" then AddLine(StatusLine(m.level, m.text))
      else NoEffect
    case OtherType(name) =>
      AddLine(StatusLine(Error, InvalidTypePrefix + name))
  }

  /** The text of the status line an operations-channel message produces. */
  function OpsText(m: InstanceMessage, stringify: InstanceMessage -> string): (r: string)
    ensures |r| >= |OpsPrefix| && r[..|OpsPrefix|] == OpsPrefix
    ensures r[|OpsPrefix|..] == if m.opsData.Some? && m.opsData.value != "" then m.opsData.value else stringify(m)
  {
    if m.opsData.Some? && m.opsData.value != "" then OpsPrefix + m.opsData.value
    else OpsPrefix + stringify(m)
  }

  /** `websocketOnChunk`: parse the payload, then dispatch on the channel. */
  function ChunkEffect(legacy: bool, parsed: Option<InstanceMessage>, now: int,
                       stringify: InstanceMessage -> string): (e: Effect)
    ensures parsed.None? ==> e == NoEffect
    ensures parsed.Some? && parsed.value.channel.OtherChannel? ==> e == NoEffect
    ensures parsed.Some? && parsed.value.channel == OpsChannel ==>
              e.AddLine? && e.line.level == Warning &&
              |e.line.text| >= |OpsPrefix| && e.line.text[..|OpsPrefix|] == OpsPrefix &&
              e.line.text[|OpsPrefix|..] ==
                (if parsed.value.opsData.Some? && parsed.value.opsData.value != ""
                 then parsed.value.opsData.value else stringify(parsed.value))
    ensures parsed.Some? && parsed.value.channel == MetricsChannel ==>
              e == MetricsEffect(legacy, parsed.value, now)
  {
    match parsed
    case None => NoEffect
    case Some(m) =>
      match m.channel
      case MetricsChannel => MetricsEffect(legacy, m, now)
      case OpsChannel => AddLine(StatusLine(Warning, OpsText(m, stringify)))
      case OtherChannel(_) => NoEffect
  }

  /** The sample buffer after an effect, for the window depth and pause flag in force. */
  function BufferAfter(buf: seq<MetricsMessage>, depth: nat, paused: bool, e: Effect): seq<MetricsMessage>
  {
    match e
    case ResetBuffer(first) => [first]
    case SlideBuffer(msg) => SampleWindow.Window(buf, depth, paused, msg)
    case _ => buf
  }

  function LinesAfter(lines: seq<StatusLine>, e: Effect): seq<StatusLine>
  {
    if e.AddLine? then lines + [e.line] else lines
  }

  function InstanceAfter(instance: Option<string>, e: Effect): Option<string>
  {
    if e.SetInstance? then Some(e.instance) else instance
  }

  /** Every inbound message adds at most one status line and, when it adds none,
      leaves the log as it was; the buffer stays within `depth + 1` messages. */
  lemma EffectBounds(legacy: bool, parsed: Option<InstanceMessage>, now: int,
                     stringify: InstanceMessage -> string,
                     buf: seq<MetricsMessage>, lines: seq<StatusLine>, depth: nat, paused: bool)
    requires |buf| <= depth + 1
    ensures var e := ChunkEffect(legacy, parsed, now, stringify);
            |BufferAfter(buf, depth, paused, e)| <= depth + 1 &&
            LinesAfter(lines, e)[..|lines|] == lines &&
            |LinesAfter(lines, e)| <= |lines| + 1
  {
  }

  /** While paused, a non-initial DATA message only trims: nothing is appended. */
  lemma PausedDataAppendsNothing(legacy: bool, m: InstanceMessage, now: int,
                                 stringify: InstanceMessage -> string,
                                 buf: seq<MetricsMessage>, depth: nat)
    requires m.channel == MetricsChannel && m.msgType == DataType && m.metrics.timestamp != 0
    ensures var after := BufferAfter(buf, depth, true, ChunkEffect(legacy, Some(m), now, stringify));
            after == SampleWindow.Trim(buf, depth) && |after| <= |buf|
  {
  }

  // ------------------------------------------------------------- start request

  datatype View = PodView | ContainerView

  /** The configuration sent when the socket opens. Fields the source fills with
      fixed values (objects PODS, mode STREAM) are left out of the record. */
  datatype StartRequest = StartRequest(
    channel: Channel,
    action: Action,
    flow: Flow,
    msgType: MessageType,
    instance: string,
    accessKey: string,
    scope: Scope,
    view: View,
    namespace: string,
    group: string,
    pod: string,
    container: string,
    aggregate: bool,
    metrics: seq<string>,
    interval: int)

  /** The containers of one pod, each written `pod+container`. */
  function PodRow(pod: string, containers: seq<string>): (r: seq<string>)
    ensures |r| == |containers|
    ensures forall j :: 0 <= j < |containers| ==> r[j] == pod + "+" + containers[j]
  {
    seq(|containers|, j requires 0 <= j < |containers| => pod + "+" + containers[j])
  }

  /** The pod-major cross product of pods and containers. */
  function Pairs(pods: seq<string>, containers: seq<string>): seq<string>
  {
    if pods == [] then [] else Pairs(pods[..|pods| - 1], containers) + PodRow(pods[|pods| - 1], containers)
  }

  /** Entry `i * |containers| + j` of the cross product is pod `i` with container `j`. */
  lemma {:induction false} PairsAt(pods: seq<string>, containers: seq<string>, i: nat, j: nat)
    requires i < |pods| && j < |containers|
    ensures |Pairs(pods, containers)| == |pods| * |containers|
    ensures i * |containers| + j < |Pairs(pods, containers)|
    ensures Pairs(pods, containers)[i * |containers| + j] == pods[i] + "+" + containers[j]
  {
    var n, c := |pods|, |containers|;
    var init := pods[..n - 1];
    var front := Pairs(init, containers);
    PairsLength(pods, containers);
    PairsLength(init, containers);
    MulStep(n - 1, c);
    assert |front| == (n - 1) * c;
    var k := i * c + j;
    if i < n - 1 {
      MulStep(i, c);
      MulLe(i + 1, n - 1, c);
      assert k < |front|;
      PairsAt(init, containers, i, j);
      assert init[i] == pods[i];
    } else {
      assert k == |front| + j;
    }
  }

  lemma MulStep(a: nat, c: nat)
    ensures (a + 1) * c == a * c + c
  {
  }

  lemma {:induction false} MulLe(a: nat, b: nat, c: nat)
    requires a <= b
    ensures a * c <= b * c
    decreases b - a
  {
    if a < b {
      MulLe(a + 1, b, c);
      MulStep(a, c);
    }
  }

  lemma {:induction false} PairsLength(pods: seq<string>, containers: seq<string>)
    ensures |Pairs(pods, containers)| == |pods| * |containers|
  {
    if pods != [] {
      PairsLength(pods[..|pods| - 1], containers);
      MulStep(|pods| - 1, |containers|);
    }
  }

  /** The nested loops that build the container list. */
  method CrossProduct(pods: seq<string>, containers: seq<string>) returns (r: seq<string>)
    ensures r == Pairs(pods, containers)
  {
    r := [];
    for i := 0 to |pods|
      invariant r == Pairs(pods[..i], containers)
    {
      assert pods[..i + 1][..i] == pods[..i];
      for j := 0 to |containers|
        invariant r == Pairs(pods[..i], containers) + PodRow(pods[i], containers[..j])
      {
        assert PodRow(pods[i], containers[..j + 1]) == PodRow(pods[i], containers[..j]) + [pods[i] + "+" + containers[j]];
        r := r + [pods[i] + "+" + containers[j]];
      }
      assert containers[..|containers|] == containers;
    }
    assert pods[..|pods|] == pods;
  }

  /** The container field: the cross product when a container is selected, else empty. */
  function ContainerField(podNames: seq<string>, containerNames: seq<string>): seq<string>
  {
    if |containerNames| > 0 then Pairs(podNames, containerNames) else []
  }

  /** `websocketOnOpen`: the request, or the status line that replaces it. */
  function StartOutcome(cluster: Option<Cluster>, namespaces: seq<string>, podNames: seq<string>,
                        containerNames: seq<string>, metrics: seq<string>, aggregate: bool,
                        interval: int, serialize: AccessKey -> string): (r: Result<StartRequest>)
    ensures cluster.None? ==> r == Err("Cluster not found")
    ensures cluster.Some? && PodsIn(cluster.value.pods, namespaces) == [] ==> r == Err("Pod not found")
    ensures (cluster.Some? && PodsIn(cluster.value.pods, namespaces) != [] &&
             StreamScope !in cluster.value.accessKeys) ==> r == Err("AccessKey has not been obtained")
    ensures r.Ok? <==> cluster.Some? && PodsIn(cluster.value.pods, namespaces) != [] &&
                       StreamScope in cluster.value.accessKeys
    ensures r.Ok? ==> (r.value.view == ContainerView <==> |containerNames| > 0)
    ensures r.Ok? ==> r.value.accessKey == serialize(cluster.value.accessKeys[StreamScope])
    ensures r.Ok? && |containerNames| == 0 ==> r.value.container == ""
    ensures r.Ok? ==> r.value.namespace == Join(namespaces, ",") && r.value.pod == Join(podNames, ",") &&
                      r.value.metrics == metrics && r.value.aggregate == aggregate &&
                      r.value.interval == interval
    ensures r.Ok? ==> r.value.channel == MetricsChannel && r.value.action == StartAction &&
                      r.value.flow == Request && r.value.msgType == SignalType &&
                      r.value.instance == "" && r.value.scope == StreamScope && r.value.group == ""
  {
    if cluster.None? then Err("Cluster not found")
    else if PodsIn(cluster.value.pods, namespaces) == [] then Err("Pod not found")
    else if StreamScope !in cluster.value.accessKeys then Err("AccessKey has not been obtained")
    else
      Ok(StartRequest(
        channel := MetricsChannel,
        action := StartAction,
        flow := Request,
        msgType := SignalType,
        instance := "",
        accessKey := serialize(cluster.value.accessKeys[StreamScope]),
        scope := StreamScope,
        view := if |containerNames| > 0 then ContainerView else PodView,
        namespace := Join(namespaces, ","),
        group := "",
        pod := Join(podNames, ","),
        container := Join(ContainerField(podNames, containerNames), ","),
        aggregate := aggregate,
        metrics := metrics,
        interval := interval))
  }

  ghost predicate CommaFree(names: seq<string>) {
    forall i :: 0 <= i < |names| ==> ',' !in names[i]
  }

  /** The container field of a start request lists exactly the pod-major pairs
      `pod+container`, as a reader splitting it on commas recovers them. */
  lemma StartContainers(cluster: Option<Cluster>, namespaces: seq<string>, podNames: seq<string>,
                        containerNames: seq<string>, metrics: seq<string>, aggregate: bool,
                        interval: int, serialize: AccessKey -> string)
    requires |podNames| > 0 && |containerNames| > 0
    requires CommaFree(podNames) && CommaFree(containerNames)
    requires StartOutcome(cluster, namespaces, podNames, containerNames, metrics, aggregate, interval, serialize).Ok?
    ensures var req := StartOutcome(cluster, namespaces, podNames, containerNames, metrics, aggregate,
                                    interval, serialize).value;
            Split(req.container, ',') == Pairs(podNames, containerNames) &&
            |Pairs(podNames, containerNames)| == |podNames| * |containerNames|
  {
    var ps := Pairs(podNames, containerNames);
    PairsAt(podNames, containerNames, 0, 0);
    forall k | 0 <= k < |ps| ensures ',' !in ps[k] {
      PairsCommaFree(podNames, containerNames, k);
    }
    SplitJoin(ps, ',');
  }

  /** The namespace and pod fields of a start request list exactly the selected
      namespaces and pods, in order, as a reader splitting them on commas recovers them. */
  lemma StartSelection(cluster: Option<Cluster>, namespaces: seq<string>, podNames: seq<string>,
                       containerNames: seq<string>, metrics: seq<string>, aggregate: bool,
                       interval: int, serialize: AccessKey -> string)
    requires |podNames| > 0
    requires CommaFree(namespaces) && CommaFree(podNames)
    requires StartOutcome(cluster, namespaces, podNames, containerNames, metrics, aggregate, interval, serialize).Ok?
    ensures var req := StartOutcome(cluster, namespaces, podNames, containerNames, metrics, aggregate,
                                    interval, serialize).value;
            Split(req.namespace, ',') == namespaces && Split(req.pod, ',') == podNames
  {
    var pods := cluster.value.pods;
    assert PodsIn(pods, namespaces) != [];
    assert PodsIn(pods, namespaces)[0].namespace in namespaces;
    SplitJoin(namespaces, ',');
    SplitJoin(podNames, ',');
  }

  lemma {:induction false} PairsCommaFree(pods: seq<string>, containers: seq<string>, k: nat)
    requires CommaFree(pods) && CommaFree(containers)
    requires k < |Pairs(pods, containers)|
    ensures ',' !in Pairs(pods, containers)[k]
  {
    var init := pods[..|pods| - 1];
    var front := Pairs(init, containers);
    if k >= |front| {
      var p := pods[|pods| - 1];
      var j := k - |front|;
      assert Pairs(pods, containers)[k] == p + "+" + containers[j];
      assert ',' !in p && ',' !in containers[j];
    } else {
      PairsCommaFree(init, containers, k);
    }
  }

  // ----------------------------------------------------------------- restart

  /** The operations command carried inside a route message. */
  datatype OpsMessage = OpsMessage(
    msgtype: string,
    action: Action,
    flow: Flow,
    msgType: MessageType,
    channel: Channel,
    instance: string,
    id: string,
    accessKey: string,
    command: string,
    namespace: string,
    group: string,
    pod: string,
    container: string)

  /** A message the server routes from the metrics channel to the operations channel. */
  datatype RouteMessage = RouteMessage(
    msgtype: string,
    accessKey: string,
    destChannel: Channel,
    action: Action,
    flow: Flow,
    msgType: MessageType,
    channel: Channel,
    instance: string,
    data: OpsMessage)

  const RestartPodCommand := "restartpod"

  /** The route message that asks the operations channel to restart one pod. */
  function RestartRoute(pod: Pod, key: string, instance: string): (r: RouteMessage)
    ensures r.destChannel == OpsChannel && r.channel == MetricsChannel && r.instance == instance
    ensures r.data.command == RestartPodCommand && r.data.pod == pod.name && r.data.namespace == pod.namespace
  {
    var om := OpsMessage("opsmessage", CommandAction, Immediate, DataType, OpsChannel, "", "1",
                         key, RestartPodCommand, pod.namespace, "", pod.name, "");
    RouteMessage("routemessage", key, OpsChannel, RouteAction, Immediate, SignalType, MetricsChannel,
                 instance, om)
  }

  /** `onClickRestart`: the route messages to send, or the status line that replaces them.
      The checks run in the order cluster, restart key, instance. */
  function RestartOutcome(cluster: Option<Cluster>, namespaces: seq<string>, instance: Option<string>,
                          serialize: AccessKey -> string): (r: Result<seq<RouteMessage>>)
    ensures cluster.None? ==> r == Err("No cluster selected")
    ensures cluster.Some? && RestartScope !in cluster.value.accessKeys ==> r == Err("No access key present")
    ensures (cluster.Some? && RestartScope in cluster.value.accessKeys &&
             (instance.None? || instance.value == "")) ==> r == Err("No instance has been established")
    ensures r.Ok? ==> cluster.Some? && RestartScope in cluster.value.accessKeys && instance.Some?
    ensures r.Ok? ==>
              var pods := PodsIn(cluster.value.pods, namespaces);
              |r.value| == |pods| &&
              forall k :: 0 <= k < |pods| ==>
                r.value[k] == RestartRoute(pods[k], serialize(cluster.value.accessKeys[RestartScope]), instance.value)
  {
    if cluster.None? then Err("No cluster selected")
    else if RestartScope !in cluster.value.accessKeys then Err("No access key present")
    else if instance.None? || instance.value == "" then Err("No instance has been established")
    else
      Ok(RestartRoutes(PodsIn(cluster.value.pods, namespaces),
                       serialize(cluster.value.accessKeys[RestartScope]), instance.value))
  }

  /** One restart route message per pod, in pod order. */
  function RestartRoutes(pods: seq<Pod>, key: string, instance: string): (r: seq<RouteMessage>)
    ensures |r| == |pods| && forall k :: 0 <= k < |pods| ==> r[k] == RestartRoute(pods[k], key, instance)
  {
    seq(|pods|, k requires 0 <= k < |pods| => RestartRoute(pods[k], key, instance))
  }

  /** A restart reaches exactly the pods of the selected namespaces: each such pod
      gets a RESTARTPOD command, and every command names such a pod. */
  lemma RestartCoversSelectedPods(cluster: Option<Cluster>, namespaces: seq<string>,
                                  instance: Option<string>, serialize: AccessKey -> string)
    requires RestartOutcome(cluster, namespaces, instance, serialize).Ok?
    ensures var msgs := RestartOutcome(cluster, namespaces, instance, serialize).value;
            (forall p :: p in cluster.value.pods && p.namespace in namespaces ==>
               exists k :: 0 <= k < |msgs| && msgs[k].data.pod == p.name && msgs[k].data.namespace == p.namespace) &&
            (forall k :: 0 <= k < |msgs| ==>
               msgs[k].data.command == RestartPodCommand && msgs[k].data.namespace in namespaces &&
               exists p :: p in cluster.value.pods && p.name == msgs[k].data.pod)
  {
    var msgs := RestartOutcome(cluster, namespaces, instance, serialize).value;
    var pods := PodsIn(cluster.value.pods, namespaces);
    forall p | p in cluster.value.pods && p.namespace in namespaces
      ensures exists k :: 0 <= k < |msgs| && msgs[k].data.pod == p.name && msgs[k].data.namespace == p.namespace
    {
      var k :| 0 <= k < |pods| && pods[k] == p;
      assert msgs[k].data.pod == p.name;
    }
    forall k | 0 <= k < |msgs|
      ensures msgs[k].data.command == RestartPodCommand && msgs[k].data.namespace in namespaces &&
              exists p :: p in cluster.value.pods && p.name == msgs[k].data.pod
    {
      assert pods[k] in pods;
    }
  }
}
