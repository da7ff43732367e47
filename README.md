# Kwirth metrics viewer, modelled in Dafny

This project models the Kwirth metrics plugin for Backstage. The plugin is a viewer
that streams live Kubernetes metrics over a WebSocket and draws them as charts. The
user works through four pieces:

- a cluster list;
- an object selector, which picks namespaces, pods and containers;
- an options panel, which sets chart width, sample depth, interval, chart type, and
  the aggregate, merge and stack switches;
- play, pause and stop buttons.

The viewer sends a start request for the selected objects. It keeps a sliding window
of the DATA messages it receives. It groups their samples by asset and metric, and
lays one chart per metric (in merge mode) or per asset and metric out in rows. Each
chart has a menu that switches the chart type, toggles stacking, tooltips and labels,
or exports the data as CSV.

## Modules

| File | Module | What it covers |
|---|---|---|
| `kwirth.dfy` | `Kwirth` | Shared entities: clusters, pods, access keys, inbound messages, and cluster and pod lookups. |
| `seqs.dfy` | `Seqs` | Sequence helpers: `Array.from(new Set(...))`, `join`, `split` and `includes`. |
| `window.dfy` | `SampleWindow` | The bounded window of DATA messages. |
| `stream.dfy` | `StreamProtocol` | The effect of each inbound message, the start request, the restart route messages, and status-log clearing. |
| `playback.dfy` | `Playback` | The started, paused and stopped flags. |
| `options.dfy` | `OptionsPanel` | The options record and the panel that edits it. |
| `menu_chart.dfy` | `MenuChart` | The chart types and the per-chart menu. |
| `viewer.dfy` | `MetricsContent` | The viewer component as a class whose fields are its state. It covers both the newer and the older (`legacy`) variant. |
| `grouping.dfy` | `Grouping` | The asset → metric → samples map that `showMetrics` builds. |
| `layout.dfy` | `Layout` | The charts built from the grouped samples and their rows. |
| `chart.dfy` | `Chart` | One chart card: merged rows, CSV export, the title, and the menu's actions. |
| `object_selector.dfy` | `ObjectSelector` | The namespace, pod and container selector. |
| `cluster_list.dfy` | `ClusterList` | The cluster list. |

Some calls into code outside the model are parameters of the operations that use
them:

- JSON parsing and serialisation: `parse`, `stringify`, `serialize`;
- the clock and `Date` formatting: `now`, `clock`;
- number-to-text conversion: `show`;
- the library's `parseResources`, `getPodList`, `getContainerList` and metric
  sort: `namespacesOf`, `podList`, `containerList`, `sortMetrics`.

The socket is reduced to an ordered record, `outbox`, of what the viewer asks of it:
open, send a start request, send a route message, close.

## Model

Paths are relative to the repository root. "newer" is
`src/components/EntityKwirthMetricsContent.tsx`. "older" is
`src/components/EntityKwirthMetricsContent/EntityKwirthMetricsContent.tsx`. Both
appear in full in the source column.

| member | source | states |
|---|---|---|
| Kwirth.FindCluster | src/components/EntityKwirthMetricsContent.tsx:253 | None exactly when no cluster has the name; otherwise the first cluster of that name |
| Kwirth.PodsIn | src/components/EntityKwirthMetricsContent.tsx:258 | A pod is kept iff it is in the list and its namespace is selected; never longer than the list |
| Kwirth.PodsInAppend | src/components/EntityKwirthMetricsContent.tsx:258 | The filter distributes over concatenation, so kept pods stay in cluster order with their multiplicity |
| Kwirth.PodsInSingle | src/components/EntityKwirthMetricsContent.tsx:258 | A single pod is kept iff its namespace is selected |
| Kwirth.PodsInAll | src/components/EntityKwirthMetricsContent.tsx:258 | With every pod's namespace selected, the filter returns the whole list |
| Kwirth.PodNames | src/components/EntityKwirthMetricsContent.tsx:153 | One name per pod, in order |
| Seqs.Distinct | src/components/ObjectSelector/ObjectSelector.tsx:22 | `Array.from(new Set(xs))`: no duplicates, the same members as the input, no longer than it |
| Seqs.DistinctPrefix | src/components/EntityKwirthMetricsContent.tsx:437 | Appending items never reorders the distinct items already seen |
| Seqs.DistinctOfNoDup | src/components/EntityKwirthMetricsContent.tsx:437 | Deduplicating a list without duplicates returns it unchanged |
| Seqs.DistinctOfDistinct | src/components/ObjectSelector/ObjectSelector.tsx:90 | Deduplicating a prefix first leaves the distinct elements of the whole unchanged |
| Seqs.SplitJoin | src/components/Chart.tsx:162 | Splitting a join on a separator absent from the parts gives the parts back |
| Seqs.IncludesAt | src/components/Options/Options.tsx:85 | `includes` holds iff the needle occurs at some offset |
| SampleWindow.Trim | src/components/EntityKwirthMetricsContent.tsx:174-176 | The trimming loop keeps the newest `depth` elements, in order |
| SampleWindow.Window | src/components/EntityKwirthMetricsContent.tsx:173-181 | At most depth+1 messages. When not paused, the new message is last. The kept part is the newest suffix of the old buffer |
| SampleWindow.NextWindow | src/components/EntityKwirthMetricsContent/EntityKwirthMetricsContent.tsx:186-194 | The `while`/`splice` loop followed by the append computes `Window` |
| SampleWindow.WindowSlides | src/components/EntityKwirthMetricsContent.tsx:173-181 | One unpaused step is the (depth+1)-window over the old buffer plus the message |
| SampleWindow.FeedKeepsNewest | src/components/EntityKwirthMetricsContent.tsx:173-181 | After any run of unpaused messages, the buffer is exactly the newest depth+1 of everything received, in arrival order |
| SampleWindow.FeedForgetsOld | src/components/EntityKwirthMetricsContent.tsx:173-181 | After depth+1 messages, nothing from before the run remains |
| SampleWindow.NegativeDepthNeverSettles | src/components/EntityKwirthMetricsContent.tsx:174-176 | As written: with a negative depth the trimming loop finishes within no number of rounds |
| SampleWindow.TrimLoopSettles | src/components/EntityKwirthMetricsContent.tsx:174-176 | Corrected: with a depth that is not negative, the loop finishes within the buffer's length of rounds and leaves `Trim` |
| StreamProtocol.ClearLevelKeeps | src/components/EntityKwirthMetricsContent.tsx:401-404 | Keeps exactly the lines of other levels, and only lines of the log |
| StreamProtocol.ClearLevelSplitsLog | src/components/EntityKwirthMetricsContent.tsx:402 | Kept lines and cleared lines together are the log (as multisets) |
| StreamProtocol.ClearLevelAppend | src/components/EntityKwirthMetricsContent.tsx:402 | Clearing preserves log order: it distributes over concatenation |
| StreamProtocol.ClearLevelIdempotent | src/components/EntityKwirthMetricsContent.tsx:402 | Clearing a level twice is clearing it once |
| StreamProtocol.MetricsEffect | src/components/EntityKwirthMetricsContent.tsx:163-221 | Dispatch on message type. DATA with timestamp 0 resets the buffer, stamped with `now`. Other DATA slides the window. A start response with an instance sets it; one without an instance has no effect. Other signals with text add a status line of their level. Any other type adds "Invalid message type received: " + type |
| StreamProtocol.OpsText | src/components/EntityKwirthMetricsContent.tsx:240-243 | "Operations message: " followed by the message's non-empty ops data, or else by the stringified message |
| StreamProtocol.ChunkEffect | src/components/EntityKwirthMetricsContent.tsx:223-250 | An unparsable payload or an unknown channel has no effect. Metrics messages go to `MetricsEffect`. Operations messages add a warning line with the `OpsText` text |
| StreamProtocol.EffectBounds | src/components/EntityKwirthMetricsContent.tsx:223-250 | One inbound message adds at most one status line. The buffer stays within depth+1 |
| StreamProtocol.PausedDataAppendsNothing | src/components/EntityKwirthMetricsContent.tsx:177-178 | While paused, a DATA message only trims the buffer |
| StreamProtocol.PodRow | src/components/EntityKwirthMetricsContent.tsx:270-272 | Each container of one pod, written `pod+container` |
| StreamProtocol.PairsAt | src/components/EntityKwirthMetricsContent.tsx:267-274 | Entry i·C+j of the cross product is pod i with container j; its length is P·C |
| StreamProtocol.CrossProduct | src/components/EntityKwirthMetricsContent.tsx:267-274 | The nested loops build exactly the pod-major cross product |
| StreamProtocol.StartOutcome | src/components/EntityKwirthMetricsContent.tsx:252-302 | Errors: "Cluster not found"; "Pod not found" when no pod is in the selected namespaces; "AccessKey has not been obtained". Otherwise a request with the container view iff containers are selected, the serialised stream key, and an empty container field when none are selected. The request asks for the joined namespaces and pods, the selected metrics, the aggregate flag and the interval, as a metrics-channel START request of type SIGNAL with stream scope, an empty instance and an empty group |
| StreamProtocol.StartContainers | src/components/EntityKwirthMetricsContent.tsx:267-287 | The container field splits back into exactly the pod-major `pod+container` pairs |
| StreamProtocol.StartSelection | src/components/EntityKwirthMetricsContent.tsx:284-286 | With comma-free names, the namespace and pod fields split back into exactly the selected namespaces and pods, in order |
| StreamProtocol.PairsCommaFree | src/components/EntityKwirthMetricsContent.tsx:287 | No pair contains the separator when the names do not |
| StreamProtocol.RestartRoute | src/components/EntityKwirthMetricsContent.tsx:519-546 | A route message from the metrics channel to the operations channel, carrying a restart-pod command for that pod and namespace |
| StreamProtocol.RestartOutcome | src/components/EntityKwirthMetricsContent.tsx:501-549 | Errors: "No cluster selected"; "No access key present"; "No instance has been established". Otherwise one route message per pod of the selected namespaces |
| StreamProtocol.RestartRoutes | src/components/EntityKwirthMetricsContent.tsx:520-548 | One route message per pod, in pod order |
| StreamProtocol.RestartCoversSelectedPods | src/components/EntityKwirthMetricsContent.tsx:519 | The restart reaches a pod iff the pod lies in a selected namespace |
| Playback.Step | src/components/EntityKwirthMetricsContent.tsx:110-134 | Unpaused Play starts a fresh stream. Paused Play resumes. Pause stops running and sets paused. Stop and socket close return to the initial flags |
| Playback.NeverStartedAndPaused | src/components/EntityKwirthMetricsContent.tsx:110-134 | No sequence of controls leaves the viewer running and paused at once |
| Playback.PauseThenPlayResumes | src/components/EntityKwirthMetricsContent.tsx:118-127 | Pause then Play restores the running flags without starting a new stream |
| Playback.StopForgetsPause | src/components/EntityKwirthMetricsContent.tsx:129-134 | After Stop or close, Play starts fresh until Pause is pressed again |
| Playback.PlayKeepsUnpaused | src/components/EntityKwirthMetricsContent.tsx:324-329 | Without Pause, an unpaused viewer stays unpaused |
| OptionsPanel.Apply | src/components/Options/Options.tsx:20 | `{...options, ...change}` overrides exactly the changed field |
| OptionsPanel.ApplyLaws | src/components/Options/Options.tsx:19-23 | A change applied twice is applied once; changes to different fields commute |
| OptionsPanel.Panel.constructor | src/components/Options/Options.tsx:17 | The panel starts with the viewer's options and has emitted nothing |
| OptionsPanel.Panel.HandleChange | src/components/Options/Options.tsx:19-23 | Stores the updated record and emits that same record |
| OptionsPanel.MultiAssets | src/components/Options/Options.tsx:25-33 | False when any list is missing; otherwise true iff more than one pod or container is selected |
| OptionsPanel.OfferedMergeCharts | src/components/Options/Options.tsx:73-88 | Among the offered charts, merge and stack accept area and bar, not value or line |
| OptionsPanel.MergeTestIsSubstring | src/components/Options/Options.tsx:85 | The test is a substring test: it also accepts "" and "a bar" |
| OptionsPanel.AggregateMergeExclusive | src/components/Options/Options.tsx:82-85 | Through enabled controls, aggregate and merge are never both on |
| OptionsPanel.OfferedStaysInRange | src/components/Options/Options.tsx:41-78 | After any choices from the selects, width, interval, depth and chart are each one of the offered values or still the starting value; options that start in range stay in range |
| OptionsPanel.StackOutlivesMerge | src/components/Options/Options.tsx:85-88 | Switching merge off leaves stack on, with its control now disabled |
| MenuChart.ParseChartType | src/components/MenuChart.tsx:5-12 | A parsed name names that type; None only when no type has that name |
| MenuChart.ChartNameRoundTrip | src/components/MenuChart.tsx:5-12 | Every chart type's name parses back to it |
| MenuChart.Items | src/components/MenuChart.tsx:40-53 | 11 items, or 12 with set-default. The six chart items come first in menu order; export is next to last; remove is last and inert; "chartdefault" is present iff `setDefault` |
| MenuChart.ExactlyOneChartSelected | src/components/MenuChart.tsx:40-45 | Exactly one chart item is selected, and each reports its own type |
| MenuChart.DisabledItems | src/components/MenuChart.tsx:43-53 | Pie is disabled iff numSeries < 2. Stack is disabled iff the chart is neither area nor bar. Remove is always disabled; nothing else is |
| MenuChart.OnlyRemoveInert | src/components/MenuChart.tsx:40-53 | An item has no click action iff it is the remove item |
| MetricsContent.InitialOptions | src/components/EntityKwirthMetricsContent.tsx:78-86 | Newer: width 3, depth 10, interval 15 and chart area unless props say otherwise. Older: fixed 3/10/10/area. Aggregate, merge and stack off |
| MetricsContent.DefaultIntervalNotOffered | src/components/EntityKwirthMetricsContent.tsx:81 | As written: the newer viewer's default interval 15 is not one of the select's values |
| MetricsContent.IntendedInitialOptions | src/components/EntityKwirthMetricsContent.tsx:78-86 | Corrected: the newer defaults with interval 10; only the interval differs |
| MetricsContent.IntendedDefaultsOffered | src/components/EntityKwirthMetricsContent.tsx:78-86 | Corrected: default options are the older viewer's and stay among the offered values through any choices from the selects |
| MetricsContent.RouteSends | src/components/EntityKwirthMetricsContent.tsx:547 | One send per route message, in order |
| MetricsContent.AutoSelection | src/components/EntityKwirthMetricsContent.tsx:149-155 | Selects iff the cluster's pods span exactly one namespace. Then it picks that namespace, the listed pods and their containers |
| MetricsContent.SingleNamespaceAutoSelected | src/components/EntityKwirthMetricsContent.tsx:149-151 | Pods all in namespace `ns` give exactly the namespace list [ns] |
| MetricsContent.Viewer.constructor | src/components/EntityKwirthMetricsContent.tsx:64-100 | Empty selections, buffer, log and outbox; no socket or instance; the default metric list; the default metrics from props (newer only) |
| MetricsContent.Viewer.AddMessage | src/components/EntityKwirthMetricsContent.tsx:493-499 | Appends one status line |
| MetricsContent.Viewer.StatusClear | src/components/EntityKwirthMetricsContent.tsx:401-404 | The log becomes `ClearLevel` of the old log |
| MetricsContent.Viewer.StartMetricsViewer | src/components/EntityKwirthMetricsContent.tsx:304-322 | "Cluster not found", or open the cluster's url, or "Error starting websocket" |
| MetricsContent.Viewer.ClickStart | src/components/EntityKwirthMetricsContent.tsx:110-122 | Flags follow `Step(Play)`. When paused nothing else changes; otherwise the buffer is emptied and the viewer is started |
| MetricsContent.Viewer.ClickPause | src/components/EntityKwirthMetricsContent.tsx:124-127 | Flags follow `Step(Pause)` |
| MetricsContent.Viewer.StopMetricsViewer | src/components/EntityKwirthMetricsContent.tsx:331-333 | Closes the socket if one was created |
| MetricsContent.Viewer.OnClickStop | src/components/EntityKwirthMetricsContent.tsx:129-134 | Flags follow `Step(Stop)` and the socket is closed |
| MetricsContent.Viewer.WebsocketOnClose | src/components/EntityKwirthMetricsContent.tsx:324-329 | Flags follow `Step(SocketClosed)` |
| MetricsContent.Viewer.ProcessMetricsMessage | src/components/EntityKwirthMetricsContent.tsx:163-221 | Buffer, log and instance become what `MetricsEffect` prescribes for the depth and pause in force |
| MetricsContent.Viewer.ProcessData | src/components/EntityKwirthMetricsContent.tsx:166-183 | The DATA branch: an initial message restarts the buffer, stamped with `now`; any other slides the window |
| MetricsContent.Viewer.ProcessSignal | src/components/EntityKwirthMetricsContent.tsx:184-215 | The SIGNAL branch: a start response sets a non-empty instance; any other signal with text is logged |
| MetricsContent.Viewer.WebsocketOnChunk | src/components/EntityKwirthMetricsContent.tsx:223-250 | Buffer, log and instance become what `ChunkEffect` prescribes |
| MetricsContent.Viewer.WebsocketOnOpen | src/components/EntityKwirthMetricsContent.tsx:252-302 | Sends the `StartOutcome` request, or logs its error text |
| MetricsContent.Viewer.OnClickRestart | src/components/EntityKwirthMetricsContent.tsx:501-549 | Sends the `RestartOutcome` route messages (when a socket exists), or logs its error text |
| MetricsContent.Viewer.SendRestarts | src/components/EntityKwirthMetricsContent.tsx:520-548 | The send loop emits one route per pod, in order |
| MetricsContent.Viewer.OnSelectCluster | src/components/EntityKwirthMetricsContent.tsx:136-161 | Stops a running stream. For a non-empty name: selects it, empties the log, sorts the cluster's metrics, and sets the selection to `SelectionAfter` |
| MetricsContent.Viewer.ChooseCluster | src/components/EntityKwirthMetricsContent.tsx:138-160 | The selection part of `onSelectCluster` |
| MetricsContent.Viewer.OnSelectClusterLegacy | src/components/EntityKwirthMetricsContent/EntityKwirthMetricsContent.tsx:159-174 | For a non-empty name: clears selections, buffer and log, stops, and sorts the cluster's metrics. An empty name changes nothing |
| MetricsContent.Viewer.OnSelectObject | src/components/EntityKwirthMetricsContent.tsx:487-491 | Takes the selector's three lists |
| MetricsContent.Viewer.OnChangeOptions | src/components/EntityKwirthMetricsContent.tsx:335-339 | Takes the panel's record |
| Grouping.AssetsOf | src/components/EntityKwirthMetricsContent.tsx:419-431 | One asset name per sample occurrence |
| Grouping.GroupAssets | src/components/EntityKwirthMetricsContent.tsx:419-431 | The map's assets are the distinct assets in order of first appearance; an asset is present iff it reported something |
| Grouping.GroupMetrics | src/components/EntityKwirthMetricsContent.tsx:426-427 | Each asset's metrics are its distinct metrics in order of first appearance |
| Grouping.GroupSeries | src/components/EntityKwirthMetricsContent.tsx:428 | Each (asset, metric) series is exactly that pair's samples, in buffer order |
| Grouping.FoldAppend | src/components/EntityKwirthMetricsContent.tsx:420-431 | Grouping a concatenation continues from the grouping of the first part |
| Grouping.Push | src/components/EntityKwirthMetricsContent.tsx:426-428 | The set, set, push steps add one occurrence (`Add`) |
| Grouping.PushValues | src/components/EntityKwirthMetricsContent.tsx:425-429 | The innermost loop folds one asset's values |
| Grouping.PushAssets | src/components/EntityKwirthMetricsContent.tsx:423-430 | The middle loop folds one message's assets |
| Grouping.GroupSamples | src/components/EntityKwirthMetricsContent/EntityKwirthMetricsContent.tsx:563-575 | The three nested loops build `GroupAll` of all occurrences |
| Layout.Chunk | src/components/EntityKwirthMetricsContent.tsx:449-452 | Every row holds 1..width items; all rows but the last are full |
| Layout.ChunkConcat | src/components/EntityKwirthMetricsContent.tsx:449-452 | The rows read in order give back the items |
| Layout.ChunkMembers | src/components/EntityKwirthMetricsContent.tsx:471-476 | A row holds only items of the chunked list |
| Layout.ChunkRows | src/components/EntityKwirthMetricsContent/EntityKwirthMetricsContent.tsx:612-616 | The slicing loop computes `Chunk` |
| Layout.MergedChartsFromFirstAsset | src/components/EntityKwirthMetricsContent.tsx:434-447 | Merge mode gives one chart per distinct metric of the FIRST asset. Each chart names every asset and draws that asset's samples of the metric |
| Layout.MergedChartSeries | src/components/EntityKwirthMetricsContent.tsx:441-443 | A merged chart's series j is asset j's samples of the chart's metric |
| Layout.AsWrittenOffersPieForOneSeries | src/components/EntityKwirthMetricsContent.tsx:466 | As written: a single-asset chart with two samples enables the pie item |
| Layout.PieWithheldPerAsset | src/components/EntityKwirthMetricsContent.tsx:462-468 | Corrected: each chart of one asset withholds the pie, follows the asset's distinct metrics and draws exactly its samples |
| Layout.AssetChartsFromSamples | src/components/EntityKwirthMetricsContent.tsx:462-468 | As written, each chart of one asset follows its distinct metrics, draws exactly its samples, and passes their number as `numSeries` |
| Layout.LayoutSeparate | src/components/EntityKwirthMetricsContent.tsx:471-476 | The per-asset chunking loops compute `SeparateRows`, the chunked as-written charts |
| Layout.NoRowMixesAssets | src/components/EntityKwirthMetricsContent.tsx:462-476 | Outside merge mode, every row has 1..width charts of a single asset; each chart draws one series and passes its sample count as `numSeries` |
| Layout.LayoutMerged | src/components/EntityKwirthMetricsContent.tsx:449-452 | Merge-mode rows are `Chunk` of the merged charts: 1..width charts each, all full but the last, and they read back as the merged charts |
| Chart.MergeSeries | src/components/Chart.tsx:92-118 | Empty names give no rows; otherwise one row per sample of the first series, each the row the nested loops build |
| Chart.MergedRow | src/components/EntityKwirthMetricsContent/EntityKwirthMetricsContent.tsx:435-450 | A row has the timestamp of series 0. Name n is present iff series n has that sample, and holds its value. There are no other keys |
| Chart.Cells | src/components/Chart.tsx:158 | One cell per series |
| Chart.Lines | src/components/Chart.tsx:156-160 | One line per timestamp of the first series |
| Chart.Csv | src/components/Chart.tsx:152-162 | No file iff names or series are empty |
| Chart.CsvReadsBack | src/components/Chart.tsx:155-162 | Splitting the file gives the header and one line per timestamp. The header is "timestamp" and the names. Each line is its timestamp and one cell per series |
| Chart.CsvWithoutSamples | src/components/Chart.tsx:162 | With no samples, the file is the header and a newline |
| Chart.ReplaceAllAbsent | src/components/Chart.tsx:318-327 | `replaceAll` of an absent pattern changes nothing |
| Chart.ReplaceAllRemoves | src/components/Chart.tsx:318 | Replacing a character by text without it removes it |
| Chart.ReplaceAllKeepsPrefix | src/components/Chart.tsx:320-327 | A prefix without the pattern's first character is kept |
| Chart.Capitalised | src/components/Chart.tsx:318-319 | Underscores become spaces and the first character is upper-cased; the length is kept |
| Chart.FormatTitle | src/components/Chart.tsx:318-327 | The successive reassignments compute `Title` |
| Chart.TitleHasNoUnderscore | src/components/Chart.tsx:318-327 | A title never contains an underscore |
| Chart.LeadingCpuTitle | src/components/Chart.tsx:318-320 | A metric starting "cpu" gets a title starting "Cpu", because capitalising runs before the CPU substitution |
| Chart.TitleStartsUpper | src/components/Chart.tsx:319 | A lower-case first letter is upper-cased in the title |
| Chart.SubstituteAbsent | src/components/Chart.tsx:320-327 | Substitutions whose patterns are absent change nothing |
| Chart.InitialFlag | src/components/Chart.tsx:84-86 | Only a saved `true` overrides the prop; a saved `false` does not |
| Chart.InitialChartType | src/components/Chart.tsx:83 | A saved chart type overrides the prop |
| Chart.SavedFalseIgnored | src/components/Chart.tsx:82-86 | A saved view read back as the config restores the chart type, but each flag becomes saved-or-prop; the chart reopens as saved iff no flag saved off is on in the props |
| Chart.ChartCard.constructor | src/components/Chart.tsx:82-86 | Menu closed, nothing exported or saved, and the initial view from the saved config and the props |
| Chart.ChartCard.OptionSelected | src/components/Chart.tsx:143-191 | Closes the menu. Stack, tooltip and labels flip on their own option only; a chart item sets the type. Export appends `<metric>.csv` with the BOM and the CSV when there is data. Default hands over the current view when a handler exists |
| ObjectSelector.NamespaceList | src/components/ObjectSelector/ObjectSelector.tsx:22 | No duplicates; a namespace is listed iff some pod is in it |
| ObjectSelector.IndexOf | src/components/ObjectSelector/ObjectSelector.tsx:25 | The first index of the item, or -1 iff it is absent |
| ObjectSelector.ToggleSpec | src/components/ObjectSelector/ObjectSelector.tsx:25-29 | Removes the item when present (`Without`), else appends it; keeps the list duplicate-free; flips only that item's membership |
| ObjectSelector.ToggleTwice | src/components/ObjectSelector/ObjectSelector.tsx:25-29 | Toggling an absent namespace twice restores the list |
| ObjectSelector.WithoutMembers | src/components/ObjectSelector/ObjectSelector.tsx:27 | Removal keeps exactly the other items |
| ObjectSelector.NamedIn | src/components/ObjectSelector/ObjectSelector.tsx:85 | A pod is kept iff it is in the list and its name is selected |
| ObjectSelector.NamedInAppend | src/components/ObjectSelector/ObjectSelector.tsx:85 | The name filter distributes over concatenation, so kept pods stay in order with their multiplicity |
| ObjectSelector.NamedInSingle | src/components/ObjectSelector/ObjectSelector.tsx:85 | A single pod is kept iff its name is selected |
| ObjectSelector.AllContainersAppend | src/components/ObjectSelector/ObjectSelector.tsx:86-89 | Collecting containers distributes over concatenation |
| ObjectSelector.ContainerListStep | src/components/ObjectSelector/ObjectSelector.tsx:82-91 | One more pod adds, when its namespace and name are selected, its not yet listed containers in its own order after the listed ones; otherwise it adds nothing |
| ObjectSelector.ContainerListPrefix | src/components/ObjectSelector/ObjectSelector.tsx:82-91 | The list for a prefix of the pods is a prefix of the list for all pods: containers appear in order of first occurrence |
| ObjectSelector.InAllContainers | src/components/ObjectSelector/ObjectSelector.tsx:86-89 | A container is collected iff some of the pods has it |
| ObjectSelector.GetContainerList | src/components/ObjectSelector/ObjectSelector.tsx:82-91 | The collecting loop computes `ContainerList` |
| ObjectSelector.ContainerListSpec | src/components/ObjectSelector/ObjectSelector.tsx:82-91 | No duplicates. A container is listed iff namespaces and pods are selected and some selected pod in a selected namespace has it |
| ObjectSelector.AutoFill | src/components/ObjectSelector/ObjectSelector.tsx:33 | A list is auto-selected iff it has exactly one item |
| ObjectSelector.Selector.constructor | src/components/ObjectSelector/ObjectSelector.tsx:19-22 | The selector holds the cluster's pods and the viewer's selections |
| ObjectSelector.Selector.PodList | src/components/ObjectSelector/ObjectSelector.tsx:78-80 | A pod is listed iff its namespace is selected; never more pods than the cluster has; with every namespace selected, all pods in cluster order |
| ObjectSelector.Selector.OnNamespaceChange | src/components/ObjectSelector/ObjectSelector.tsx:24-46 | Toggles the namespace, auto-fills pods then containers, and emits copies of the three lists |
| ObjectSelector.Selector.ReselectPods | src/components/ObjectSelector/ObjectSelector.tsx:31-33 | Pods are auto-filled from the new pod list |
| ObjectSelector.Selector.ReselectContainers | src/components/ObjectSelector/ObjectSelector.tsx:35-43 | Containers are auto-filled from the new container list |
| ObjectSelector.Selector.OnPodNameChange | src/components/ObjectSelector/ObjectSelector.tsx:48-59 | Takes the chosen pods, auto-fills containers, and emits |
| ObjectSelector.Selector.OnContainerNameChange | src/components/ObjectSelector/ObjectSelector.tsx:61-65 | Takes the chosen containers and emits |
| ObjectSelector.NamespaceChangeSelects | src/components/ObjectSelector/ObjectSelector.tsx:31-43 | After a namespace change, an auto-selected container belongs to an auto-selected pod of a selected namespace |
| ObjectSelector.ExistAccessKey | src/components/ObjectSelector/ObjectSelector.tsx:67-76 | False without a key for the scope; otherwise true iff a parsed resource names the namespace |
| ClusterList.PrepareText | src/components/ClusterList/ClusterList.tsx:28-30 | "N/A" for a missing or empty text; the text up to 25 characters; otherwise its first 25 characters and "..." |
| ClusterList.PrepareTextSettles | src/components/ClusterList/ClusterList.tsx:28-30 | Labels are at most 28 characters, and shortening twice equals shortening once |
| ClusterList.Items | src/components/ClusterList/ClusterList.tsx:39-40 | One item per cluster: selected iff its name is the selected one, disabled iff it has no pods; a click reports its name |
| ClusterList.AtMostOneSelected | src/components/ClusterList/ClusterList.tsx:40 | With distinct names, at most one item is selected, and selecting the reported name selects exactly the clicked item |

## Left out

- Rendering is not modelled: JSX, colours, chart drawing, the pie and treemap sums, value labels with `toFixed`/`toPrecision`, and the button enablement of the action bar.
- The WebSocket is not modelled. Opening, sending and closing are recorded in `outbox`. Whether the socket constructor throws is the `opens` parameter.
- `alertApi` notifications and console logging are not modelled. They do not change the viewer's state.
- The export is not a real download. It appends a `CsvFile` record of name and content instead of creating a Blob and a link.
- `Date.now()` and the hour:minute:second formatting of timestamps are parameters (`now`, `clock`).
- Number-to-text conversion in the CSV is the parameter `show`.
- Metric values are integers; the source uses floating point.
- The start request's `objects` and `mode` fields are left out. Both always hold the same value (PODS and STREAM).
- StreamProtocol.RestartRoute: the command is written "restartpod". The `OpsCommandEnum.RESTARTPOD` text lives in a library that is not part of this model.
- `parseResources`, the library's `getPodList` and `getContainerList`, and the metric sort are parameters. The library sources are not part of this model.
- MetricsContent.Viewer.OnSelectCluster: the `cluster.pods && cluster.metrics` presence checks are not modelled. A cluster record always has both here.
- Layout.ChunkRows: requires width > 0. With width 0 or a negative width, the source's row loops (newer :450 and :473) never end.
- Depth and width are natural numbers in the model (`MetricsOptions`, `SampleWindow`, `Layout`), while the props and options hold plain numbers. Negative values hang the source; the depth case is modelled by `SampleWindow.TrimLoop` (see Findings). Fractional values are not modelled.
- ClusterList.PrepareText: counts characters. The source's `length` and `substring(0,25)` count UTF-16 code units, so a name with characters outside the Basic Multilingual Plane is cut at a different place, possibly inside a surrogate pair.
- Layout.MergedCharts: a missing (asset, metric) series is an empty series. The source passes `undefined`, which makes `mergeSeries` throw.
- Layout.MergedCharts: merge mode with no assets gives no charts. The source dereferences the missing first asset.
- Layout.MergedCharts and Layout.AssetChartsAsWritten: the `metricDefinition` lookup in the cluster's metric list (newer :440 and :465) is not modelled. The chart is keyed by its metric name.
- The `showMetrics` early returns are not modelled: the empty buffer and the unknown cluster.
- Chart.MergeSeries: requires one name per series (or no names). The source reads `names[j]` past the end otherwise.
- Chart.FormatTitle: requires a non-empty metric. The source fails on `title[0]` for an empty name.
- Chart.ChartCard.OptionSelected: its Default path cannot be reached in this source, and neither can MenuChart.Items with `setDefault` on. The chart always renders its menu with `setDefault={false}` (Chart.tsx:339), and neither viewer passes `onSetDefault` (newer :445 and :466). The model keeps both as the component defines them.
- Chart.Upper: upper-cases ASCII letters only. Locale-aware `toLocaleUpperCase` is not modelled.
- Aliasing in ObjectSelector is not modelled. The selector mutates the viewer's arrays in place; the model gives it its own copies of the lists and records each `onSelect` as a copy in `emitted`.
- Not part of this model: `StatusLog`, `KwirthNews`, the API client and types, the plugin's registration in `index.ts`, the options interface beyond its record shape, and the chip rendering of the selector.
- The viewer's `useAsync` access negotiation is not modelled. The cluster list is a constructor parameter.

## Findings

| source | as written | input that shows it | evidently intended | confidence | as-written member | corrected member |
|---|---|---|---|---|---|---|
| src/components/EntityKwirthMetricsContent.tsx:466 | Outside merge mode each chart gets `numSeries={series.length}`, the number of SAMPLES in its single series. MenuChart disables the pie only when numSeries < 2 | One asset reporting metric `cpu` twice: one series of two samples, and the pie item is enabled | `numSeries` is the number of series, 1, so the pie stays disabled for single-asset charts, as it does in merge mode (`series.length` there counts assets) | not executed; medium | Layout.AsWrittenOffersPieForOneSeries | Layout.PieWithheldPerAsset |
| src/components/EntityKwirthMetricsContent.tsx:81 | The newer viewer's default interval is 15, but the interval select offers only 5, 10, 30 and 60 | A viewer opened without an `interval` prop: its interval select holds a value none of its items has | A default among the offered values, such as the older viewer's 10 | not executed; medium | MetricsContent.DefaultIntervalNotOffered | MetricsContent.IntendedDefaultsOffered |
| src/components/EntityKwirthMetricsContent.tsx:174-176 | The trimming loop runs while the buffer is longer than `depth`, a plain number from the props; `splice(0, 1)` on an empty buffer leaves it empty | A `depth` prop of -1 with one DATA message: the length never falls to -1 or below, so the loop never ends | Depth is at least 0, so the loop ends with the newest `depth` samples | not executed; high | SampleWindow.NegativeDepthNeverSettles | SampleWindow.TrimLoopSettles |
