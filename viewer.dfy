/** The metrics viewer component (EntityKwirthMetricsContent) as a class whose fields
    are the component's state variables and refs. `legacy` selects the older variant
    of the component (EntityKwirthMetricsContent/EntityKwirthMetricsContent.tsx).
    The socket is abstracted: opening it, sending on it and closing it are recorded,
    in order, in `outbox`. */
module MetricsContent {
  import opened Kwirth
  import opened Seqs
  import opened StreamProtocol
  import opened Playback
  import SampleWindow
  import OptionsPanel

  /** What the viewer asks of the socket. */
  datatype Outbound =
    | OpenSocket(url: string)
    | SendStart(request: StartRequest)
    | SendRoute(route: RouteMessage)
    | CloseSocket

  /** The metrics offered before a cluster is selected. */
  const DefaultMetrics: seq<string> := [
    "kwirth_container_memory_percentage",
    "kwirth_container_cpu_percentage",
    "kwirth_container_transmit_percentage",
    "kwirth_container_receive_percentage",
    "kwirth_container_transmit_mbps",
    "kwirth_container_receive_mbps"]

  /** The options a viewer starts with: the older variant has fixed values, the newer
      one takes width, depth, interval and chart from its props when given. */
  function InitialOptions(legacy: bool, width: Option<nat>, depth: Option<nat>, interval: Option<int>,
                          chart: Option<string>): (r: OptionsPanel.MetricsOptions)
    ensures !r.aggregate && !r.merge && !r.stack
    ensures legacy ==> r.width == 3 && r.depth == 10 && r.interval == 10 && r.chart == "area"
    ensures !legacy ==> r.width == (if width.Some? then width.value else 3)
    ensures !legacy ==> r.depth == (if depth.Some? then depth.value else 10)
    ensures !legacy ==> r.interval == (if interval.Some? then interval.value else 15)
    ensures !legacy ==> r.chart == (if chart.Some? then chart.value else "area")
  {
    if legacy then OptionsPanel.MetricsOptions(3, 10, 10, "area", false, false, false)
    else
      OptionsPanel.MetricsOptions(
        if width.Some? then width.value else 3,
        if depth.Some? then depth.value else 10,
        if interval.Some? then interval.value else 15,
        if chart.Some? then chart.value else "area",
        false, false, false)
  }

  /** As written, the newer viewer opens with an interval that its own interval
      select does not offer. */
  lemma DefaultIntervalNotOffered()
    ensures var o := InitialOptions(false, None, None, None, None);
            o.interval == 15 && o.interval !in {5, 10, 30, 60} && !OptionsPanel.InRange(o)
  {
  }

  /** The newer viewer's defaults with the interval the select offers and the older
      viewer uses, 10. */
  function IntendedInitialOptions(width: Option<nat>, depth: Option<nat>, interval: Option<int>,
                                  chart: Option<string>): (r: OptionsPanel.MetricsOptions)
    ensures r.interval == (if interval.Some? then interval.value else 10)
    ensures r == InitialOptions(false, width, depth, interval, chart).(interval := r.interval)
  {
    InitialOptions(false, width, depth, interval, chart).(interval := if interval.Some? then interval.value else 10)
  }

  /** With the corrected default, a viewer opened without props starts within the
      values the panel offers, and so stays there through any choice of the selects;
      its defaults are then those of the older viewer. */
  lemma IntendedDefaultsOffered(cs: seq<OptionsPanel.Change>)
    requires forall i :: 0 <= i < |cs| ==> OptionsPanel.Offered(cs[i])
    ensures var o := IntendedInitialOptions(None, None, None, None);
            o == InitialOptions(true, None, None, None, None) &&
            OptionsPanel.InRange(OptionsPanel.ApplyAll(o, cs))
  {
    var o := IntendedInitialOptions(None, None, None, None);
    assert OptionsPanel.InRange(o);
    OptionsPanel.OfferedStaysInRange(o, cs);
  }

  /** The route sends of a restart, one per route message. */
  function RouteSends(msgs: seq<RouteMessage>): (r: seq<Outbound>)
    ensures |r| == |msgs| && forall k :: 0 <= k < |msgs| ==> r[k] == SendRoute(msgs[k])
  {
    seq(|msgs|, k requires 0 <= k < |msgs| => SendRoute(msgs[k]))
  }

  datatype Selection = Selection(namespaces: seq<string>, podNames: seq<string>, containerNames: seq<string>)

  /** The selection made on choosing a cluster whose pods all lie in one namespace:
      that namespace, the pods the library lists for it and their containers. */
  function AutoSelection(pods: seq<Pod>,
                         podList: (seq<Pod>, seq<string>) -> seq<Pod>,
                         containerList: (seq<Pod>, seq<string>, seq<string>, seq<string>) -> seq<string>,
                         excludeContainers: seq<string>): (r: Option<Selection>)
    ensures r.Some? <==> |Distinct(NamespacesOf(pods))| == 1
    ensures r.Some? ==> |r.value.namespaces| == 1 && r.value.namespaces[0] == pods[0].namespace &&
                        r.value.podNames == PodNames(podList(pods, r.value.namespaces)) &&
                        r.value.containerNames ==
                          containerList(pods, r.value.namespaces, r.value.podNames, excludeContainers)
  {
    var ns := Distinct(NamespacesOf(pods));
    if |ns| == 1 then
      assert NamespacesOf(pods)[0] in ns;
      var names := PodNames(podList(pods, ns));
      Some(Selection(ns, names, containerList(pods, ns, names, excludeContainers)))
    else None
  }

  /** The namespace, pod and container selections after choosing a cluster (newer
      variant): the auto-selection when there is one, otherwise no pods and no
      containers, and no namespace either unless the cluster is unknown. */
  function SelectionAfter(c: Option<Cluster>, oldNamespaces: seq<string>,
                          podList: (seq<Pod>, seq<string>) -> seq<Pod>,
                          containerList: (seq<Pod>, seq<string>, seq<string>, seq<string>) -> seq<string>,
                          excludeContainers: seq<string>): Selection
  {
    if c.None? then Selection(oldNamespaces, [], [])
    else
      var auto := AutoSelection(c.value.pods, podList, containerList, excludeContainers);
      if auto.Some? then auto.value else Selection([], [], [])
  }

  class Viewer {
    const legacy: bool
    const excludeContainers: seq<string>
    const clusters: seq<Cluster>
    var selectedClusterName: string
    var selectedNamespaces: seq<string>
    var selectedPodNames: seq<string>
    var selectedContainerNames: seq<string>
    var selectedMetrics: seq<string>
    var started: bool
    var stopped: bool
    var paused: bool
    var metricsMessages: seq<MetricsMessage>
    var statusMessages: seq<StatusLine>
    var instance: Option<string>
    var options: OptionsPanel.MetricsOptions
    var allMetrics: seq<string>
    /** The url of the socket created by the last start, if any; it is never reset. */
    var socket: Option<string>
    var outbox: seq<Outbound>

    /** The play controls never leave the viewer running and paused at once. */
    predicate Valid()
      reads this
    {
      !(started && paused)
    }

    function FlagsOf(): Flags
      reads this
    {
      Flags(started, stopped, paused)
    }

    /** A viewer once the cluster list has arrived. */
    constructor(legacy: bool, clusters: seq<Cluster>, options: OptionsPanel.MetricsOptions,
                defaultMetrics: Option<seq<string>>, excludeContainers: seq<string>)
      ensures Valid() && FlagsOf() == Initial
      ensures this.legacy == legacy && this.clusters == clusters && this.options == options
      ensures this.excludeContainers == excludeContainers
      ensures selectedClusterName == "" && selectedNamespaces == [] && selectedPodNames == []
      ensures selectedContainerNames == []
      ensures selectedMetrics == if !legacy && defaultMetrics.Some? then defaultMetrics.value else []
      ensures metricsMessages == [] && statusMessages == [] && instance.None?
      ensures allMetrics == DefaultMetrics && socket.None? && outbox == []
    {
      this.legacy := legacy;
      this.clusters := clusters;
      this.options := options;
      this.excludeContainers := excludeContainers;
      selectedClusterName := "";
      selectedNamespaces := [];
      selectedPodNames := [];
      selectedContainerNames := [];
      selectedMetrics := if !legacy && defaultMetrics.Some? then defaultMetrics.value else [];
      started := false;
      stopped := true;
      paused := false;
      metricsMessages := [];
      statusMessages := [];
      instance := None;
      allMetrics := DefaultMetrics;
      socket := None;
      outbox := [];
    }

    /** `addMessage`: append one status line. */
    method AddMessage(level: Level, text: string)
      modifies this`statusMessages
      ensures statusMessages == old(statusMessages) + [StatusLine(level, text)]
    {
      statusMessages := statusMessages + [StatusLine(level, text)];
    }

    /** `statusClear`: drop every status line of one level. */
    method StatusClear(level: Level)
      modifies this`statusMessages
      ensures statusMessages == ClearLevel(old(statusMessages), level)
    {
      statusMessages := ClearLevel(statusMessages, level);
    }

    /** `startMetricsViewer`: look the selected cluster up and open a socket to it.
        `opens` says whether the socket constructor accepted the cluster's url. */
    method StartMetricsViewer(opens: bool)
      modifies this`statusMessages, this`socket, this`outbox
      ensures var c := FindCluster(clusters, selectedClusterName);
              if c.None? then
                statusMessages == old(statusMessages) + [StatusLine(Error, "Cluster not found")] &&
                socket == old(socket) && outbox == old(outbox)
              else if opens then
                statusMessages == old(statusMessages) && socket == Some(c.value.url) &&
                outbox == old(outbox) + [OpenSocket(c.value.url)]
              else
                statusMessages == old(statusMessages) + [StatusLine(Error, "Error starting websocket")] &&
                socket == old(socket) && outbox == old(outbox)
    {
      var cluster := FindCluster(clusters, selectedClusterName);
      if cluster.None? {
        AddMessage(Error, "Cluster not found");
        return;
      }
      if opens {
        socket := Some(cluster.value.url);
        outbox := outbox + [OpenSocket(cluster.value.url)];
      } else {
        AddMessage(Error, "Error starting websocket");
      }
    }

    /** `clickStart`: start a fresh stream, or resume a paused one. */
    method ClickStart(opens: bool)
      requires Valid()
      modifies this`started, this`stopped, this`paused, this`metricsMessages, this`statusMessages,
               this`socket, this`outbox
      ensures Valid() && FlagsOf() == Step(old(FlagsOf()), Play)
      ensures old(paused) ==> metricsMessages == old(metricsMessages) &&
                              statusMessages == old(statusMessages) && outbox == old(outbox) && socket == old(socket)
      ensures !old(paused) ==>
                metricsMessages == [] &&
                var c := FindCluster(clusters, selectedClusterName);
                if c.None? then
                  statusMessages == old(statusMessages) + [StatusLine(Error, "Cluster not found")] &&
                  socket == old(socket) && outbox == old(outbox)
                else if opens then
                  statusMessages == old(statusMessages) && socket == Some(c.value.url) &&
                  outbox == old(outbox) + [OpenSocket(c.value.url)]
                else
                  statusMessages == old(statusMessages) + [StatusLine(Error, "Error starting websocket")] &&
                  socket == old(socket) && outbox == old(outbox)
    {
      if !paused {
        metricsMessages := [];
        started := true;
        paused := false;
        stopped := false;
        StartMetricsViewer(opens);
      } else {
        paused := false;
        started := true;
      }
    }

    /** `clickPause`. */
    method ClickPause()
      modifies this`started, this`paused
      ensures Valid() && FlagsOf() == Step(old(FlagsOf()), Pause)
    {
      started := false;
      paused := true;
    }

    /** `stopMetricsViewer`: close the socket if one was ever created. */
    method StopMetricsViewer()
      modifies this`outbox
      ensures outbox == old(outbox) + (if socket.Some? then [CloseSocket] else [])
    {
      if socket.Some? {
        outbox := outbox + [CloseSocket];
      }
    }

    /** `onClickStop` (`clickStop` in the older variant). */
    method OnClickStop()
      modifies this`started, this`stopped, this`paused, this`outbox
      ensures Valid() && FlagsOf() == Step(old(FlagsOf()), Stop)
      ensures outbox == old(outbox) + (if socket.Some? then [CloseSocket] else [])
    {
      started := false;
      stopped := true;
      paused := false;
      StopMetricsViewer();
    }

    /** `websocketOnClose`: the server closed the stream. */
    method WebsocketOnClose()
      modifies this`started, this`stopped, this`paused
      ensures Valid() && FlagsOf() == Step(old(FlagsOf()), SocketClosed)
    {
      started := false;
      paused := false;
      stopped := true;
    }

    /** `processMetricsMessage`: apply a metrics-channel message. */
    method ProcessMetricsMessage(m: InstanceMessage, now: int)
      modifies this`metricsMessages, this`statusMessages, this`instance
      ensures var e := MetricsEffect(legacy, m, now);
              metricsMessages == BufferAfter(old(metricsMessages), options.depth, paused, e) &&
              statusMessages == LinesAfter(old(statusMessages), e) &&
              instance == InstanceAfter(old(instance), e)
    {
      match m.msgType
      case DataType =>
        ProcessData(m, now);
      case SignalType =>
        ProcessSignal(m, now);
      case OtherType(name) =>
        assert MetricsEffect(legacy, m, now) == AddLine(StatusLine(Error, InvalidTypePrefix + name));
        AddMessage(Error, InvalidTypePrefix + name);
    }

    /** The DATA branch: an initial message restarts the buffer, stamped with the
        current time; any other slides the window. */
    method ProcessData(m: InstanceMessage, now: int)
      requires m.msgType == DataType
      modifies this`metricsMessages
      ensures metricsMessages == BufferAfter(old(metricsMessages), options.depth, paused, MetricsEffect(legacy, m, now))
    {
      if m.metrics.timestamp == 0 {
        metricsMessages := [m.metrics.(timestamp := now)];
      } else {
        metricsMessages := SampleWindow.NextWindow(metricsMessages, options.depth, paused, m.metrics);
      }
    }

    /** The SIGNAL branch: a start response sets the instance; any other signal with
        text (any at all in the older variant) is logged. */
    method ProcessSignal(m: InstanceMessage, now: int)
      requires m.msgType == SignalType
      modifies this`statusMessages, this`instance
      ensures var e := MetricsEffect(legacy, m, now);
              statusMessages == LinesAfter(old(statusMessages), e) && instance == InstanceAfter(old(instance), e)
    {
      if m.flow == Response && m.action == StartAction {
        if m.instance != "" {
          instance := Some(m.instance);
        }
      } else if legacy || m.text != "" {
        AddMessage(m.level, m.text);
      }
    }

    /** `websocketOnChunk`: parse an inbound payload and dispatch it on its channel. */
    method WebsocketOnChunk(payload: string, parse: string -> Option<InstanceMessage>, now: int,
                            stringify: InstanceMessage -> string)
      modifies this`metricsMessages, this`statusMessages, this`instance
      ensures var e := ChunkEffect(legacy, parse(payload), now, stringify);
              metricsMessages == BufferAfter(old(metricsMessages), options.depth, paused, e) &&
              statusMessages == LinesAfter(old(statusMessages), e) &&
              instance == InstanceAfter(old(instance), e)
    {
      var parsed := parse(payload);
      if parsed.None? {
        return;
      }
      var m := parsed.value;
      match m.channel
      case MetricsChannel =>
        ProcessMetricsMessage(m, now);
      case OpsChannel =>
        if m.opsData.Some? && m.opsData.value != "" {
          AddMessage(Warning, OpsPrefix + m.opsData.value);
        } else {
          AddMessage(Warning, OpsPrefix + stringify(m));
        }
      case OtherChannel(_) =>
    }

    /** `websocketOnOpen`: send the start request, or report why it cannot be built. */
    method WebsocketOnOpen(serialize: AccessKey -> string)
      modifies this`statusMessages, this`outbox
      ensures match StartOutcome(FindCluster(clusters, selectedClusterName), selectedNamespaces,
                                 selectedPodNames, selectedContainerNames, selectedMetrics,
                                 options.aggregate, options.interval, serialize)
              case Ok(req) => outbox == old(outbox) + [SendStart(req)] && statusMessages == old(statusMessages)
              case Err(text) => outbox == old(outbox) &&
                                statusMessages == old(statusMessages) + [StatusLine(Error, text)]
    {
      var cluster := FindCluster(clusters, selectedClusterName);
      if cluster.None? {
        AddMessage(Error, "Cluster not found");
        return;
      }
      var pods := PodsIn(cluster.value.pods, selectedNamespaces);
      if |pods| == 0 {
        AddMessage(Error, "Pod not found");
        return;
      }
      if StreamScope in cluster.value.accessKeys {
        var containers := [];
        if |selectedContainerNames| > 0 {
          containers := CrossProduct(selectedPodNames, selectedContainerNames);
        }
        var request := StartRequest(
          channel := MetricsChannel,
          action := StartAction,
          flow := Request,
          msgType := SignalType,
          instance := "",
          accessKey := serialize(cluster.value.accessKeys[StreamScope]),
          scope := StreamScope,
          view := if |selectedContainerNames| > 0 then ContainerView else PodView,
          namespace := Join(selectedNamespaces, ","),
          group := "",
          pod := Join(selectedPodNames, ","),
          container := Join(containers, ","),
          aggregate := options.aggregate,
          metrics := selectedMetrics,
          interval := options.interval);
        outbox := outbox + [SendStart(request)];
      } else {
        AddMessage(Error, "AccessKey has not been obtained");
      }
    }

    /** `onClickRestart`: ask the operations channel to restart every pod of the
        selected namespaces. Without a socket the sends are dropped. */
    method OnClickRestart(serialize: AccessKey -> string)
      modifies this`statusMessages, this`outbox
      ensures match RestartOutcome(FindCluster(clusters, selectedClusterName), selectedNamespaces,
                                   instance, serialize)
              case Ok(msgs) => statusMessages == old(statusMessages) &&
                               outbox == old(outbox) + (if socket.Some? then RouteSends(msgs) else [])
              case Err(text) => outbox == old(outbox) &&
                                statusMessages == old(statusMessages) + [StatusLine(Error, text)]
    {
      var cluster := FindCluster(clusters, selectedClusterName);
      if cluster.None? {
        AddMessage(Error, "No cluster selected");
        return;
      }
      if RestartScope !in cluster.value.accessKeys {
        AddMessage(Error, "No access key present");
        return;
      }
      if instance.None? || instance.value == "" {
        AddMessage(Error, "No instance has been established");
        return;
      }
      var key := serialize(cluster.value.accessKeys[RestartScope]);
      var pods := PodsIn(cluster.value.pods, selectedNamespaces);
      SendRestarts(pods, key, instance.value);
    }

    /** The sending loop of `onClickRestart`: one route message per pod, each sent
        only if a socket exists. */
    method SendRestarts(pods: seq<Pod>, key: string, inst: string)
      modifies this`outbox
      ensures outbox == old(outbox) + (if socket.Some? then RouteSends(RestartRoutes(pods, key, inst)) else [])
    {
      ghost var msgs := RestartRoutes(pods, key, inst);
      for k := 0 to |pods|
        invariant outbox == old(outbox) + (if socket.Some? then RouteSends(msgs[..k]) else [])
      {
        var rm := RestartRoute(pods[k], key, inst);
        if socket.Some? {
          assert RouteSends(msgs[..k + 1]) == RouteSends(msgs[..k]) + [SendRoute(rm)];
          outbox := outbox + [SendRoute(rm)];
        }
      }
      assert msgs[..|pods|] == msgs;
    }

    /** `onSelectCluster` of the newer variant: stop a running stream, then take the
        cluster (see `ChooseCluster`). */
    method OnSelectCluster(clusterName: string,
                           podList: (seq<Pod>, seq<string>) -> seq<Pod>,
                           containerList: (seq<Pod>, seq<string>, seq<string>, seq<string>) -> seq<string>,
                           sortMetrics: seq<string> -> seq<string>)
      requires Valid() && !legacy
      modifies this`started, this`stopped, this`paused, this`outbox, this`selectedClusterName,
               this`selectedNamespaces, this`selectedPodNames, this`selectedContainerNames,
               this`statusMessages, this`allMetrics
      ensures Valid()
      ensures old(started) ==>
                FlagsOf() == Initial && outbox == old(outbox) + (if socket.Some? then [CloseSocket] else [])
      ensures !old(started) ==> FlagsOf() == old(FlagsOf()) && outbox == old(outbox)
      ensures clusterName == "" ==>
                selectedClusterName == old(selectedClusterName) && selectedNamespaces == old(selectedNamespaces) &&
                selectedPodNames == old(selectedPodNames) && selectedContainerNames == old(selectedContainerNames) &&
                statusMessages == old(statusMessages) && allMetrics == old(allMetrics)
      ensures clusterName != "" ==>
                selectedClusterName == clusterName && statusMessages == [] &&
                var c := FindCluster(clusters, clusterName);
                allMetrics == (if c.Some? then sortMetrics(c.value.metrics) else old(allMetrics)) &&
                Selection(selectedNamespaces, selectedPodNames, selectedContainerNames) ==
                  SelectionAfter(c, old(selectedNamespaces), podList, containerList, excludeContainers)
    {
      if started {
        OnClickStop();
      }
      ChooseCluster(clusterName, podList, containerList, sortMetrics);
    }

    /** The selection part of the newer `onSelectCluster`: clear the pod, container
        and status selections, order the cluster's metrics with the library sort
        `sortMetrics`, and when the cluster's pods lie in a single namespace select it
        with its pods and containers (through the library's `getPodList` and
        `getContainerList`). An empty name changes nothing. */
    method ChooseCluster(clusterName: string,
                         podList: (seq<Pod>, seq<string>) -> seq<Pod>,
                         containerList: (seq<Pod>, seq<string>, seq<string>, seq<string>) -> seq<string>,
                         sortMetrics: seq<string> -> seq<string>)
      modifies this`selectedClusterName, this`selectedNamespaces, this`selectedPodNames,
               this`selectedContainerNames, this`statusMessages, this`allMetrics
      ensures clusterName == "" ==>
                selectedClusterName == old(selectedClusterName) && selectedNamespaces == old(selectedNamespaces) &&
                selectedPodNames == old(selectedPodNames) && selectedContainerNames == old(selectedContainerNames) &&
                statusMessages == old(statusMessages) && allMetrics == old(allMetrics)
      ensures clusterName != "" ==>
                selectedClusterName == clusterName && statusMessages == [] &&
                var c := FindCluster(clusters, clusterName);
                allMetrics == (if c.Some? then sortMetrics(c.value.metrics) else old(allMetrics)) &&
                Selection(selectedNamespaces, selectedPodNames, selectedContainerNames) ==
                  SelectionAfter(c, old(selectedNamespaces), podList, containerList, excludeContainers)
    {
      if clusterName != "" {
        selectedClusterName := clusterName;
        selectedPodNames := [];
        selectedContainerNames := [];
        statusMessages := [];
        var cluster := FindCluster(clusters, clusterName);
        if cluster.Some? {
          allMetrics := sortMetrics(cluster.value.metrics);
          var auto := AutoSelection(cluster.value.pods, podList, containerList, excludeContainers);
          if auto.Some? {
            selectedNamespaces := auto.value.namespaces;
            selectedPodNames := auto.value.podNames;
            selectedContainerNames := auto.value.containerNames;
          } else {
            selectedNamespaces := [];
          }
        }
      }
    }

    /** `onSelectCluster` of the older variant: clear the namespace, pod, container,
        sample and status state, stop unconditionally, and order the cluster's
        metrics with the library sort `sortMetrics`. */
    method OnSelectClusterLegacy(clusterName: string, sortMetrics: seq<string> -> seq<string>)
      requires Valid() && legacy
      modifies this`started, this`stopped, this`paused, this`outbox, this`selectedClusterName,
               this`selectedNamespaces, this`selectedPodNames, this`selectedContainerNames,
               this`metricsMessages, this`statusMessages, this`allMetrics
      ensures Valid()
      ensures clusterName == "" ==>
                FlagsOf() == old(FlagsOf()) && outbox == old(outbox) &&
                selectedClusterName == old(selectedClusterName) && selectedNamespaces == old(selectedNamespaces) &&
                selectedPodNames == old(selectedPodNames) && selectedContainerNames == old(selectedContainerNames) &&
                metricsMessages == old(metricsMessages) && statusMessages == old(statusMessages) &&
                allMetrics == old(allMetrics)
      ensures clusterName != "" ==>
                FlagsOf() == Initial && outbox == old(outbox) + (if socket.Some? then [CloseSocket] else []) &&
                selectedClusterName == clusterName && selectedNamespaces == [] && selectedPodNames == [] &&
                selectedContainerNames == [] && metricsMessages == [] && statusMessages == [] &&
                var c := FindCluster(clusters, clusterName);
                allMetrics == (if c.Some? then sortMetrics(c.value.metrics) else old(allMetrics))
    {
      if clusterName != "" {
        selectedClusterName := clusterName;
        selectedNamespaces := [];
        selectedPodNames := [];
        selectedContainerNames := [];
        metricsMessages := [];
        statusMessages := [];
        OnClickStop();
        var cluster := FindCluster(clusters, clusterName);
        if cluster.Some? {
          allMetrics := sortMetrics(cluster.value.metrics);
        }
      }
    }

    /** `onSelectObject`: take over the selector's selections. */
    method OnSelectObject(namespaces: seq<string>, podNames: seq<string>, containerNames: seq<string>)
      modifies this`selectedNamespaces, this`selectedPodNames, this`selectedContainerNames
      ensures selectedNamespaces == namespaces && selectedPodNames == podNames
      ensures selectedContainerNames == containerNames
    {
      selectedNamespaces := namespaces;
      selectedPodNames := podNames;
      selectedContainerNames := containerNames;
    }

    /** `onChangeOptions`: take over the options panel's record. */
    method OnChangeOptions(o: OptionsPanel.MetricsOptions)
      modifies this`options
      ensures options == o
    {
      options := o;
    }
  }

  /** Selecting a cluster whose pods all lie in one namespace selects exactly that
      namespace (the newer variant). */
  lemma SingleNamespaceAutoSelected(pods: seq<Pod>, ns: string)
    requires pods != [] && forall i :: 0 <= i < |pods| ==> pods[i].namespace == ns
    ensures Distinct(NamespacesOf(pods)) == [ns]
  {
    DistinctConstant(NamespacesOf(pods), ns);
  }
}
