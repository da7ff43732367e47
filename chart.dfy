/** One chart card: the rows its line, area and bar charts are drawn from
    (`mergeSeries`), the CSV export, the title, and the view state its menu toggles. */
module Chart {
  import opened Kwirth
  import opened Seqs
  import opened Grouping
  import opened MenuChart

  /** A value of a merged row: the timestamp text or a sample value. */
  datatype Cell = Text(text: string) | Number(value: int)

  /** A merged row, keyed by `"timestamp"` and by series name. */
  type Row = map<string, Cell>

  const TimestampKey := "timestamp"

  /** The row for sample index `i` after the first `j` series: every series that has an
      `i`-th sample writes the first series' timestamp and its own value. */
  function RowOf(names: seq<string>, series: seq<seq<Sample>>, i: nat, j: nat): Row
    requires j <= |series| <= |names|
    requires |series| > 0 && i < |series[0]|
  {
    if j == 0 then map[]
    else
      var r := RowOf(names, series, i, j - 1);
      if i < |series[j - 1]| then r[TimestampKey := Text(series[0][i].timestamp)][names[j - 1] := Number(series[j - 1][i].value)]
      else r
  }

  /** `mergeSeries`: the nested loops over sample index and series. The callers pass
      one name per series. */
  method MergeSeries(names: seq<string>, series: seq<seq<Sample>>) returns (rows: seq<Row>)
    requires names == [] || |series| == |names|
    ensures names == [] ==> rows == []
    ensures names != [] ==> |rows| == |series[0]|
    ensures names != [] ==> forall i :: 0 <= i < |rows| ==> rows[i] == RowOf(names, series, i, |series|)
  {
    rows := [];
    if names == [] {
      return;
    }
    for i := 0 to |series[0]|
      invariant |rows| == i
      invariant forall i' :: 0 <= i' < i ==> rows[i'] == RowOf(names, series, i', |series|)
    {
      var item: Row := map[];
      for j := 0 to |series|
        invariant item == RowOf(names, series, i, j)
      {
        if i < |series[j]| {
          item := item[TimestampKey := Text(series[0][i].timestamp)];
          item := item[names[j] := Number(series[j][i].value)];
        }
      }
      rows := rows + [item];
    }
  }

  /** What the first `j` series put in row `i`, for distinct names other than
      `"timestamp"`. */
  lemma {:induction false} RowPrefix(names: seq<string>, series: seq<seq<Sample>>, i: nat, j: nat)
    requires j <= |series| == |names|
    requires |series| > 0 && i < |series[0]|
    requires NoDup(names) && TimestampKey !in names
    ensures var row := RowOf(names, series, i, j);
            (j > 0 ==> TimestampKey in row && row[TimestampKey] == Text(series[0][i].timestamp)) &&
            (forall k :: k in row ==> k == TimestampKey || k in names[..j]) &&
            (forall n :: 0 <= n < j ==> (names[n] in row <==> i < |series[n]|)) &&
            (forall n :: 0 <= n < j && i < |series[n]| ==> row[names[n]] == Number(series[n][i].value))
  {
    if j > 0 {
      RowPrefix(names, series, i, j - 1);
      assert names[..j] == names[..j - 1] + [names[j - 1]];
      forall n | 0 <= n < j - 1 ensures names[n] != names[j - 1] {}
      if j == 1 {
        assert RowOf(names, series, i, 1) == map[TimestampKey := Text(series[0][i].timestamp), names[0] := Number(series[0][i].value)];
      }
    }
  }

  /** Row `i` of the merged rows holds the first series' `i`-th timestamp under
      `"timestamp"`, and series `n`'s `i`-th value under its name exactly when series
      `n` has an `i`-th sample; it holds no other key. */
  lemma MergedRow(names: seq<string>, series: seq<seq<Sample>>, i: nat)
    requires |series| == |names| > 0 && i < |series[0]|
    requires NoDup(names) && TimestampKey !in names
    ensures var row := RowOf(names, series, i, |series|);
            TimestampKey in row && row[TimestampKey] == Text(series[0][i].timestamp) &&
            (forall k :: k in row ==> k == TimestampKey || k in names) &&
            (forall n :: 0 <= n < |names| ==> (names[n] in row <==> i < |series[n]|)) &&
            (forall n :: 0 <= n < |names| && i < |series[n]| ==> row[names[n]] == Number(series[n][i].value))
  {
    RowPrefix(names, series, i, |series|);
    assert names[..|series|] == names;
  }

  /** The CSV header line. */
  function Header(names: seq<string>): string
  {
    Join([TimestampKey] + names, ",")
  }

  /** The cells after the timestamp in data line `i`: a series without an `i`-th sample
      gives the empty cell. `show` writes a number as text. */
  function Cells(series: seq<seq<Sample>>, i: nat, show: int -> string): (r: seq<string>)
    ensures |r| == |series|
  {
    seq(|series|, j requires 0 <= j < |series| => if i < |series[j]| then show(series[j][i].value) else "")
  }

  /** Data line `i`: the first series' `i`-th timestamp, then the cells. */
  function Line(series: seq<seq<Sample>>, i: nat, show: int -> string): string
    requires |series| > 0 && i < |series[0]|
  {
    Join([series[0][i].timestamp] + Cells(series, i, show), ",")
  }

  /** The data lines, one per sample of the first series. */
  function Lines(series: seq<seq<Sample>>, show: int -> string): (r: seq<string>)
    requires |series| > 0
    ensures |r| == |series[0]|
  {
    seq(|series[0]|, i requires 0 <= i < |series[0]| => Line(series, i, show))
  }

  /** The exported text, or nothing when there are no names or no series. */
  function Csv(names: seq<string>, series: seq<seq<Sample>>, show: int -> string): (r: Option<string>)
    ensures r.None? <==> names == [] || series == []
  {
    if names == [] || series == [] then None
    else Some(Header(names) + "\n" + Join(Lines(series, show), "\n"))
  }

  /** A downloaded file: its name and its bytes as text. */
  datatype CsvFile = CsvFile(name: string, content: string)

  /** The byte order mark the exported text starts with. */
  const Bom := "\U{FEFF}"

  /** No separator in any piece: the text splits back into its pieces. */
  predicate Clean(s: string)
  {
    ',' !in s && '\n' !in s
  }

  /** Reading the export back: split on newlines it gives the header followed by one
      line per sample of the first series; the header splits on commas into
      `"timestamp"` and the names, and line `i` into its timestamp and one cell per
      series, empty where the series has no `i`-th sample. */
  lemma CsvReadsBack(names: seq<string>, series: seq<seq<Sample>>, show: int -> string)
    requires names != [] && series != [] && |series[0]| > 0
    requires forall n :: 0 <= n < |names| ==> Clean(names[n])
    requires forall j, i :: 0 <= j < |series| && 0 <= i < |series[j]| ==> Clean(series[j][i].timestamp)
    requires forall v :: Clean(show(v))
    ensures Split(Csv(names, series, show).value, '\n') == [Header(names)] + Lines(series, show)
    ensures Split(Header(names), ',') == [TimestampKey] + names
    ensures forall i :: 0 <= i < |series[0]| ==>
              Split(Lines(series, show)[i], ',') == [series[0][i].timestamp] + Cells(series, i, show)
    ensures forall i, j :: 0 <= i < |series[0]| && 0 <= j < |series| ==>
              Cells(series, i, show)[j] == if i < |series[j]| then show(series[j][i].value) else ""
  {
    var pieces := [TimestampKey] + names;
    assert forall k :: 0 <= k < |pieces| ==> Clean(pieces[k]) by {
      forall k | 0 <= k < |pieces| ensures Clean(pieces[k]) {
        if k > 0 { assert pieces[k] == names[k - 1]; }
      }
    }
    SplitJoin(pieces, ',');
    JoinFree(pieces, ",", '\n');
    var lines := Lines(series, show);
    forall i | 0 <= i < |lines|
      ensures '\n' !in lines[i]
      ensures Split(lines[i], ',') == [series[0][i].timestamp] + Cells(series, i, show)
    {
      var ps := [series[0][i].timestamp] + Cells(series, i, show);
      forall k | 0 <= k < |ps| ensures Clean(ps[k]) {
        if k > 0 { assert ps[k] == Cells(series, i, show)[k - 1]; }
      }
      SplitJoin(ps, ',');
      JoinFree(ps, ",", '\n');
    }
    var all := [Header(names)] + lines;
    assert Join(all, "\n") == Header(names) + "\n" + Join(lines, "\n") by {
      assert all[1..] == lines;
    }
    SplitJoin(all, '\n');
  }

  /** With no sample in the first series the export is the header and a newline. */
  lemma CsvWithoutSamples(names: seq<string>, series: seq<seq<Sample>>, show: int -> string)
    requires names != [] && series != [] && series[0] == []
    ensures Csv(names, series, show) == Some(Header(names) + "\n")
  {
    assert Lines(series, show) == [];
    assert Header(names) + "\n" + "" == Header(names) + "\n";
  }

  /** `s.replaceAll(from, to)`: occurrences replaced left to right, never overlapping. */
  function ReplaceAll(s: string, from: string, to: string): string
    requires from != []
    decreases |s|
  {
    if |s| < |from| then s
    else if s[..|from|] == from then to + ReplaceAll(s[|from|..], from, to)
    else [s[0]] + ReplaceAll(s[1..], from, to)
  }

  /** Without an occurrence the text is unchanged. */
  lemma {:induction false} ReplaceAllAbsent(s: string, from: string, to: string)
    requires from != [] && !Includes(s, from)
    ensures ReplaceAll(s, from, to) == s
    decreases |s|
  {
    if |s| >= |from| {
      ReplaceAllAbsent(s[1..], from, to);
      assert s == [s[0]] + s[1..];
    }
  }

  /** A character in neither the text nor the replacement is not in the result. */
  lemma {:induction false} ReplaceAllFree(s: string, from: string, to: string, c: char)
    requires from != [] && c !in s && c !in to
    ensures c !in ReplaceAll(s, from, to)
    decreases |s|
  {
    if |s| >= |from| {
      if s[..|from|] == from {
        ReplaceAllFree(s[|from|..], from, to, c);
      } else {
        ReplaceAllFree(s[1..], from, to, c);
      }
    }
  }

  /** Replacing a single character by one that is different leaves none of it. */
  lemma {:induction false} ReplaceAllRemoves(s: string, c: char, to: string)
    requires c !in to
    ensures c !in ReplaceAll(s, [c], to)
    decreases |s|
  {
    if |s| >= 1 {
      ReplaceAllRemoves(s[1..], c, to);
    }
  }

  /** Where no occurrence can start, the first `k` characters stay as they are. */
  lemma {:induction false} ReplaceAllKeepsPrefix(s: string, from: string, to: string, k: nat)
    requires from != [] && k <= |s|
    requires forall p :: 0 <= p < k ==> s[p] != from[0]
    ensures |ReplaceAll(s, from, to)| >= k && ReplaceAll(s, from, to)[..k] == s[..k]
    decreases |s|
  {
    if k > 0 && |s| >= |from| {
      assert s[..|from|][0] == s[0];
      ReplaceAllKeepsPrefix(s[1..], from, to, k - 1);
    }
  }

  /** `toLocaleUpperCase` on ASCII letters. */
  function Upper(c: char): char
  {
    if 'a' <= c <= 'z' then (c as int - 32) as char else c
  }

  /** The title after replacing underscores and capitalising the first character. */
  function Capitalised(metric: string): (r: string)
    requires metric != []
    ensures |r| == |metric|
  {
    var spaced := ReplaceAll(metric, "_", " ");
    LengthKept(metric);
    [Upper(spaced[0])] + spaced[1..]
  }

  /** Replacing one character by one character keeps the length. */
  lemma {:induction false} LengthKept(s: string)
    ensures |ReplaceAll(s, "_", " ")| == |s|
    decreases |s|
  {
    if |s| >= 1 {
      LengthKept(s[1..]);
    }
  }

  /** The fixed substitutions applied after capitalising, in order. */
  const Substitutions: seq<(string, string)> := [
    ("cpu", "CPU"), (" fs ", " FS "), (" io ", " IO "), ("oom", "OOM"),
    ("nvm", "NVM"), ("rss", "RSS"), ("failcnt", "fail count"), ("mbps", "Mbps")]

  /** The text after the substitutions `subs`, first one first. */
  function Substitute(s: string, subs: seq<(string, string)>): string
    requires forall k :: 0 <= k < |subs| ==> subs[k].0 != []
    decreases |subs|
  {
    if subs == [] then s else Substitute(ReplaceAll(s, subs[0].0, subs[0].1), subs[1..])
  }

  function Title(metric: string): string
    requires metric != []
  {
    Substitute(Capitalised(metric), Substitutions)
  }

  /** The title is rebuilt by successive reassignment. An empty metric name has no
      first character to capitalise. */
  method FormatTitle(metric: string) returns (title: string)
    requires metric != []
    ensures title == Title(metric)
  {
    title := ReplaceAll(metric, "_", " ");
    LengthKept(metric);
    title := [Upper(title[0])] + title[1..];
    title := ReplaceAll(title, "cpu", "CPU");
    title := ReplaceAll(title, " fs ", " FS ");
    title := ReplaceAll(title, " io ", " IO ");
    title := ReplaceAll(title, "oom", "OOM");
    title := ReplaceAll(title, "nvm", "NVM");
    title := ReplaceAll(title, "rss", "RSS");
    title := ReplaceAll(title, "failcnt", "fail count");
    title := ReplaceAll(title, "mbps", "Mbps");
    assert title == Substitute(Capitalised(metric), Substitutions);
  }

  /** The substitutions bring in no underscore. */
  lemma {:induction false} SubstituteFree(s: string, subs: seq<(string, string)>)
    requires forall k :: 0 <= k < |subs| ==> subs[k].0 != [] && '_' !in subs[k].1
    requires '_' !in s
    ensures '_' !in Substitute(s, subs)
    decreases |subs|
  {
    if subs != [] {
      ReplaceAllFree(s, subs[0].0, subs[0].1, '_');
      SubstituteFree(ReplaceAll(s, subs[0].0, subs[0].1), subs[1..]);
    }
  }

  /** The substitutions keep the first `k` characters when none of them starts a
      pattern. */
  lemma {:induction false} SubstituteKeepsPrefix(s: string, subs: seq<(string, string)>, k: nat)
    requires forall n :: 0 <= n < |subs| ==> subs[n].0 != []
    requires k <= |s|
    requires forall n, p :: 0 <= n < |subs| && 0 <= p < k ==> s[p] != subs[n].0[0]
    ensures |Substitute(s, subs)| >= k && Substitute(s, subs)[..k] == s[..k]
    decreases |subs|
  {
    if subs != [] {
      var t := ReplaceAll(s, subs[0].0, subs[0].1);
      ReplaceAllKeepsPrefix(s, subs[0].0, subs[0].1, k);
      assert forall p :: 0 <= p < k ==> t[p] == s[p] by {
        forall p | 0 <= p < k ensures t[p] == s[p] {
          assert t[..k][p] == s[..k][p];
        }
      }
      SubstituteKeepsPrefix(t, subs[1..], k);
    }
  }

  /** No underscore survives in a title. */
  lemma TitleHasNoUnderscore(metric: string)
    requires metric != []
    ensures '_' !in Title(metric)
  {
    var spaced := ReplaceAll(metric, "_", " ");
    ReplaceAllRemoves(metric, '_', " ");
    LengthKept(metric);
    var cap := Capitalised(metric);
    assert forall k :: 0 <= k < |cap| ==> cap[k] != '_' by {
      forall k | 0 <= k < |cap| ensures cap[k] != '_' {
        if k > 0 { assert cap[k] == spaced[k]; } else { assert spaced[0] in spaced; }
      }
    }
    SubstituteFree(cap, Substitutions);
  }

  /** A metric named with a leading lower-case `cpu` gets the title `Cpu...`, not
      `CPU...`: capitalising comes first, and `cpu` no longer matches there. */
  lemma LeadingCpuTitle(metric: string)
    requires |metric| >= 3 && metric[..3] == "cpu"
    ensures |Title(metric)| >= 3 && Title(metric)[..3] == "Cpu"
  {
    var spaced := ReplaceAll(metric, "_", " ");
    ReplaceAllKeepsPrefix(metric, "_", " ", 3);
    assert spaced[..3] == "cpu";
    var cap := Capitalised(metric);
    assert cap[..3] == "Cpu" by {
      assert spaced[0] == 'c' && spaced[1] == 'p' && spaced[2] == 'u';
    }
    SubstituteKeepsPrefix(cap, Substitutions, 3);
  }

  /** A metric name starting with a lower-case letter gets a title starting with that
      letter in upper case. */
  lemma TitleStartsUpper(metric: string)
    requires metric != [] && 'a' <= metric[0] <= 'z'
    ensures |Title(metric)| >= 1 && Title(metric)[0] == Upper(metric[0])
  {
    ReplaceAllKeepsPrefix(metric, "_", " ", 1);
    var cap := Capitalised(metric);
    SubstituteKeepsPrefix(cap, Substitutions, 1);
    assert Title(metric)[..1][0] == cap[..1][0];
  }

  /** A title in which no pattern occurs is just the capitalised, spaced name. */
  lemma {:induction false} SubstituteAbsent(s: string, subs: seq<(string, string)>)
    requires forall k :: 0 <= k < |subs| ==> subs[k].0 != [] && !Includes(s, subs[k].0)
    ensures Substitute(s, subs) == s
    decreases |subs|
  {
    if subs != [] {
      ReplaceAllAbsent(s, subs[0].0, subs[0].1);
      SubstituteAbsent(s, subs[1..]);
    }
  }

  /** The per-metric view settings a chart can be given, each possibly absent. */
  datatype ViewConfig = ViewConfig(
    chartType: Option<ChartType>,
    stack: Option<bool>,
    tooltip: Option<bool>,
    labels: Option<bool>)

  /** The settings handed to `onSetDefault`. */
  datatype SavedView = SavedView(displayName: string, chartType: ChartType, stack: bool, tooltip: bool, labels: bool)

  /** `config ? config : prop` for a flag: only a present `true` overrides the prop. */
  function InitialFlag(config: Option<bool>, prop: bool): (r: bool)
    ensures config == Some(true) ==> r
    ensures config != Some(true) ==> r == prop
  {
    if config == Some(true) then true else prop
  }

  /** `config ? config : prop` for the chart type: every type name is non-empty, so a
      present type always overrides. */
  function InitialChartType(config: Option<ChartType>, prop: ChartType): (r: ChartType)
    ensures config.Some? ==> r == config.value
    ensures config.None? ==> r == prop
  {
    if config.Some? then config.value else prop
  }

  /** A saved view read back as a chart's config: the chart type comes back, but a
      flag saved as `false` does not switch off a flag the prop switches on, so the
      chart reopens as saved exactly when no such flag exists. */
  lemma SavedFalseIgnored(v: SavedView, typeProp: ChartType, stackProp: bool, tooltipProp: bool, labelsProp: bool)
    ensures var c := ViewConfig(Some(v.chartType), Some(v.stack), Some(v.tooltip), Some(v.labels));
            var t := InitialChartType(c.chartType, typeProp);
            var st := InitialFlag(c.stack, stackProp);
            var tt := InitialFlag(c.tooltip, tooltipProp);
            var lb := InitialFlag(c.labels, labelsProp);
            t == v.chartType && st == (v.stack || stackProp) && tt == (v.tooltip || tooltipProp) &&
            lb == (v.labels || labelsProp) &&
            ((st, tt, lb) == (v.stack, v.tooltip, v.labels) <==>
               (stackProp ==> v.stack) && (tooltipProp ==> v.tooltip) && (labelsProp ==> v.labels))
  {
  }

  /** One chart card. `anchored` is whether its menu is open; `exports` and `defaults`
      record the files it downloaded and the settings it handed to `onSetDefault`. */
  class ChartCard {
    const metric: string
    const names: seq<string>
    const series: seq<seq<Sample>>
    const canSetDefault: bool
    var anchored: bool
    var chartType: ChartType
    var stack: bool
    var tooltip: bool
    var labels: bool
    var exports: seq<CsvFile>
    var defaults: seq<SavedView>

    constructor(metric: string, names: seq<string>, series: seq<seq<Sample>>, canSetDefault: bool,
                config: ViewConfig, chartTypeProp: ChartType, stackProp: bool, tooltipProp: bool, labelsProp: bool)
      ensures this.metric == metric && this.names == names && this.series == series
      ensures this.canSetDefault == canSetDefault
      ensures !anchored && exports == [] && defaults == []
      ensures chartType == InitialChartType(config.chartType, chartTypeProp)
      ensures stack == InitialFlag(config.stack, stackProp)
      ensures tooltip == InitialFlag(config.tooltip, tooltipProp)
      ensures labels == InitialFlag(config.labels, labelsProp)
    {
      this.metric := metric;
      this.names := names;
      this.series := series;
      this.canSetDefault := canSetDefault;
      anchored := false;
      chartType := InitialChartType(config.chartType, chartTypeProp);
      stack := InitialFlag(config.stack, stackProp);
      tooltip := InitialFlag(config.tooltip, tooltipProp);
      labels := InitialFlag(config.labels, labelsProp);
      exports := [];
      defaults := [];
    }

    /** `menuChartOptionSelected`: the menu closes, then the option acts. A chart item
        always reports its type. */
    method OptionSelected(opt: MenuChartOption, data: Option<ChartType>, show: int -> string)
      requires opt == ChartOption ==> data.Some?
      modifies this`anchored, this`chartType, this`stack, this`tooltip, this`labels, this`exports, this`defaults
      ensures !anchored
      ensures stack == (if opt == StackOption then !old(stack) else old(stack))
      ensures tooltip == (if opt == TooltipOption then !old(tooltip) else old(tooltip))
      ensures labels == (if opt == LabelsOption then !old(labels) else old(labels))
      ensures chartType == (if opt == ChartOption then data.value else old(chartType))
      ensures exports == old(exports) +
                (if opt == ExportOption && Csv(names, series, show).Some?
                 then [CsvFile(metric + ".csv", Bom + Csv(names, series, show).value)] else [])
      ensures defaults == old(defaults) +
                (if opt == DefaultOption && canSetDefault
                 then [SavedView(metric, chartType, stack, tooltip, labels)] else [])
    {
      anchored := false;
      match opt
      case StackOption =>
        stack := !stack;
      case RemoveOption =>
      case ExportOption =>
        if names == [] || series == [] {
          return;
        }
        var content := Header(names) + "\n" + Join(Lines(series, show), "\n");
        exports := exports + [CsvFile(metric + ".csv", Bom + content)];
      case TooltipOption =>
        tooltip := !tooltip;
      case LabelsOption =>
        labels := !labels;
      case DefaultOption =>
        if canSetDefault {
          defaults := defaults + [SavedView(metric, chartType, stack, tooltip, labels)];
        }
      case ChartOption =>
        chartType := data.value;
    }
  }
}
