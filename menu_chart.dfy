/** The per-chart menu: the chart types, the menu options, and which items are
    shown, selected and disabled for a given chart state. */
module MenuChart {
  import opened Kwirth

  datatype ChartType = LineChart | BarChart | AreaChart | ValueChart | PieChart | TreemapChart

  /** The text value of each chart type. */
  function ChartName(t: ChartType): string
  {
    match t
    case LineChart => "line"
    case BarChart => "bar"
    case AreaChart => "area"
    case ValueChart => "value"
    case PieChart => "pie"
    case TreemapChart => "treemap"
  }

  /** The chart type a text value names, if any. */
  function ParseChartType(s: string): (r: Option<ChartType>)
    ensures r.Some? ==> ChartName(r.value) == s
    ensures r.None? ==> forall t :: ChartName(t) != s
  {
    if s == "line" then Some(LineChart)
    else if s == "bar" then Some(BarChart)
    else if s == "area" then Some(AreaChart)
    else if s == "value" then Some(ValueChart)
    else if s == "pie" then Some(PieChart)
    else if s == "treemap" then Some(TreemapChart)
    else None
  }

  /** The names are distinct, so every chart type reads back as itself. */
  lemma ChartNameRoundTrip(t: ChartType)
    ensures ParseChartType(ChartName(t)) == Some(t)
  {
  }

  datatype MenuChartOption = ChartOption | StackOption | TooltipOption | LabelsOption
                           | DefaultOption | RemoveOption | ExportOption

  /** What a click on an item reports: the option and, for chart items, the type. */
  datatype Selection = Selection(option: MenuChartOption, data: Option<ChartType>)

  datatype MenuState = MenuState(
    selected: ChartType,
    stacked: bool,
    tooltip: bool,
    labels: bool,
    numSeries: int,
    setDefault: bool)

  datatype MenuItem = MenuItem(key: string, onClick: Option<Selection>, selected: bool, disabled: bool)

  /** The chart items, in menu order. */
  const ChartOrder: seq<ChartType> := [LineChart, AreaChart, BarChart, PieChart, ValueChart, TreemapChart]

  function ChartItem(p: MenuState, t: ChartType): MenuItem
  {
    MenuItem("chart" + ChartName(t), Some(Selection(ChartOption, Some(t))), p.selected == t,
             t == PieChart && p.numSeries < 2)
  }

  /** The items of the menu, top to bottom. */
  function Items(p: MenuState): (r: seq<MenuItem>)
    ensures |r| == if p.setDefault then 12 else 11
    ensures forall i :: 0 <= i < 6 ==> r[i] == ChartItem(p, ChartOrder[i])
    ensures r[|r| - 1] == MenuItem("chartremove", None, false, true)
    ensures r[|r| - 2].key == "chartexport"
    ensures p.setDefault <==> exists i :: 0 <= i < |r| && r[i].key == "chartdefault"
  {
    var charts := seq(6, i requires 0 <= i < 6 => ChartItem(p, ChartOrder[i]));
    var toggles := [
      MenuItem("chartstack", Some(Selection(StackOption, None)), p.stacked,
               p.selected != AreaChart && p.selected != BarChart),
      MenuItem("charttooltip", Some(Selection(TooltipOption, None)), p.tooltip, false),
      MenuItem("chartlabel", Some(Selection(LabelsOption, None)), p.labels, false)];
    var default := if p.setDefault then [MenuItem("chartdefault", Some(Selection(DefaultOption, None)), false, false)] else [];
    var tail := [MenuItem("chartexport", Some(Selection(ExportOption, None)), false, false),
                 MenuItem("chartremove", None, false, true)];
    var r := charts + toggles + default + tail;
    forall i | 0 <= i < 6 ensures charts[i].key != "chartdefault" {
      assert charts[i].key[5..] == ChartName(ChartOrder[i]);
      assert "chartdefault"[5..] == "default";
    }
    assert p.setDefault ==> r[9].key == "chartdefault";
    r
  }

  /** Exactly one chart item is marked selected: the one of the current chart type,
      and each chart item reports its own type. */
  lemma ExactlyOneChartSelected(p: MenuState)
    ensures var r := Items(p);
            (exists i :: 0 <= i < 6 && r[i].selected) &&
            (forall i, j :: 0 <= i < 6 && 0 <= j < 6 && r[i].selected && r[j].selected ==> i == j) &&
            (forall i :: 0 <= i < 6 ==> r[i].onClick == Some(Selection(ChartOption, Some(ChartOrder[i]))))
  {
    var r := Items(p);
    var k := match p.selected
      case LineChart => 0 case AreaChart => 1 case BarChart => 2
      case PieChart => 3 case ValueChart => 4 case TreemapChart => 5;
    assert r[k].selected;
  }

  /** The pie item is disabled exactly when fewer than two series are drawn, the
      stack item exactly when the chart is neither area nor bar, and no other item
      is disabled except remove. */
  lemma DisabledItems(p: MenuState)
    ensures var r := Items(p);
            r[3].key == "chartpie" && (r[3].disabled <==> p.numSeries < 2) &&
            r[6].key == "chartstack" && (r[6].disabled <==> p.selected !in {AreaChart, BarChart}) &&
            forall i :: 0 <= i < |r| && r[i].disabled ==> i == 3 || i == 6 || i == |r| - 1
  {
    assert ChartName(PieChart) == "pie";
  }

  /** Only the remove item does nothing when clicked. */
  lemma OnlyRemoveInert(p: MenuState)
    ensures var r := Items(p);
            forall i :: 0 <= i < |r| ==> (r[i].onClick.None? <==> r[i].key == "chartremove")
  {
    var r := Items(p);
    forall i | 0 <= i < 6 ensures r[i].key != "chartremove" {
      assert r[i].key[..5] == "chart";
      assert ChartName(ChartOrder[i]) != "remove";
      assert r[i].key[5..] == ChartName(ChartOrder[i]);
    }
  }
}
