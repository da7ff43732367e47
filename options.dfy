/** The options panel of the metrics viewer: the options record, the change each
    control produces, and the rules that enable or disable the controls. */
module OptionsPanel {
  import opened Kwirth
  import opened Seqs

  /** The options record. The chart type travels as its text name ('area', ...). */
  datatype MetricsOptions = MetricsOptions(
    width: nat,
    depth: nat,
    interval: int,
    chart: string,
    aggregate: bool,
    merge: bool,
    stack: bool)

  /** The partial record each control hands to `handleChange`. */
  datatype Change =
    | WidthChange(width: nat)
    | IntervalChange(interval: int)
    | DepthChange(depth: nat)
    | ChartChange(chart: string)
    | AggregateChange(aggregate: bool)
    | MergeChange(merge: bool)
    | StackChange(stack: bool)

  /** `{...options, ...change}`: the old options with only the changed field overridden. */
  function Apply(o: MetricsOptions, c: Change): (r: MetricsOptions)
    ensures r.width == (if c.WidthChange? then c.width else o.width)
    ensures r.interval == (if c.IntervalChange? then c.interval else o.interval)
    ensures r.depth == (if c.DepthChange? then c.depth else o.depth)
    ensures r.chart == (if c.ChartChange? then c.chart else o.chart)
    ensures r.aggregate == (if c.AggregateChange? then c.aggregate else o.aggregate)
    ensures r.merge == (if c.MergeChange? then c.merge else o.merge)
    ensures r.stack == (if c.StackChange? then c.stack else o.stack)
  {
    match c
    case WidthChange(w) => o.(width := w)
    case IntervalChange(i) => o.(interval := i)
    case DepthChange(d) => o.(depth := d)
    case ChartChange(t) => o.(chart := t)
    case AggregateChange(b) => o.(aggregate := b)
    case MergeChange(b) => o.(merge := b)
    case StackChange(b) => o.(stack := b)
  }

  /** Which field of the record a change writes. */
  function FieldOf(c: Change): nat
  {
    match c
    case WidthChange(_) => 0
    case IntervalChange(_) => 1
    case DepthChange(_) => 2
    case ChartChange(_) => 3
    case AggregateChange(_) => 4
    case MergeChange(_) => 5
    case StackChange(_) => 6
  }

  /** Applying the same change twice is applying it once, and changes to different
      fields commute. */
  lemma ApplyLaws(o: MetricsOptions, c: Change, d: Change)
    ensures Apply(Apply(o, c), c) == Apply(o, c)
    ensures FieldOf(c) != FieldOf(d) ==> Apply(Apply(o, c), d) == Apply(Apply(o, d), c)
  {
  }

  /** The options panel: its own copy of the options, and the records it has handed
      to the viewer's `onChange`, oldest first. */
  class Panel {
    var options: MetricsOptions
    var emitted: seq<MetricsOptions>

    constructor(initial: MetricsOptions)
      ensures options == initial && emitted == []
    {
      options := initial;
      emitted := [];
    }

    /** `handleChange`: store the updated record and pass the same record on. */
    method HandleChange(c: Change)
      modifies this
      ensures options == Apply(old(options), c)
      ensures emitted == old(emitted) + [options]
    {
      var a := Apply(options, c);
      options := a;
      emitted := emitted + [a];
    }
  }

  /** `multiAssets`: false when a selection list is missing; otherwise whether more
      than one pod or more than one container is selected. */
  function MultiAssets(namespaces: Option<seq<string>>, podNames: Option<seq<string>>,
                       containerNames: Option<seq<string>>): (r: bool)
    ensures namespaces.None? || podNames.None? || containerNames.None? ==> !r
    ensures namespaces.Some? && podNames.Some? && containerNames.Some? ==>
              (r <==> |podNames.value| > 1 || |containerNames.value| > 1)
  {
    if namespaces.None? then false
    else if podNames.None? then false
    else if containerNames.None? then false
    else if |podNames.value| > 1 then true
    else if |containerNames.value| > 1 then true
    else false
  }

  const MergeCharts := "area bar"

  /** Among the charts the panel offers, the merge and stack test `'area bar'.includes`
      holds exactly for area and bar. */
  lemma OfferedMergeCharts()
    ensures Includes(MergeCharts, "area") && Includes(MergeCharts, "bar")
    ensures !Includes(MergeCharts, "value") && !Includes(MergeCharts, "line")
  {
    assert MergeCharts[4..][1..] == "bar";
    FirstCharAbsent(MergeCharts, "value");
    FirstCharAbsent(MergeCharts, "line");
  }

  /** The test is a substring test: it also lets the empty name and fragments such
      as "a bar" through. */
  lemma MergeTestIsSubstring()
    ensures Includes(MergeCharts, "") && Includes(MergeCharts, "a bar")
  {
    assert MergeCharts[3..][..5] == "a bar";
  }

  /** Whether the control that produces `c` is enabled. The selects follow the
      panel's `disabled` prop; the check boxes do not. */
  predicate ControlEnabled(o: MetricsOptions, disabled: bool, multi: bool, c: Change)
  {
    match c
    case WidthChange(_) => !disabled
    case IntervalChange(_) => !disabled
    case DepthChange(_) => !disabled
    case ChartChange(_) => !disabled
    case AggregateChange(_) => multi && !o.merge
    case MergeChange(_) => multi && !o.aggregate && Includes(MergeCharts, o.chart)
    case StackChange(_) => o.merge && Includes(MergeCharts, o.chart)
  }

  /** The values the selects offer. */
  predicate Offered(c: Change)
  {
    match c
    case WidthChange(w) => w in {1, 2, 3, 4}
    case IntervalChange(i) => i in {5, 10, 30, 60}
    case DepthChange(d) => d in {10, 50, 100}
    case ChartChange(t) => t in {"value", "line", "area", "bar"}
    case _ => true
  }

  predicate InRange(o: MetricsOptions)
  {
    o.width in {1, 2, 3, 4} && o.interval in {5, 10, 30, 60} && o.depth in {10, 50, 100} &&
    o.chart in {"value", "line", "area", "bar"}
  }

  /** The options after a run of changes, first change first. */
  function ApplyAll(o: MetricsOptions, cs: seq<Change>): MetricsOptions
    decreases |cs|
  {
    if cs == [] then o else ApplyAll(Apply(o, cs[0]), cs[1..])
  }

  /** Whether every change of a run came from a control enabled at that moment. */
  predicate AllEnabled(o: MetricsOptions, disabled: bool, multi: bool, cs: seq<Change>)
    decreases |cs|
  {
    cs == [] || (ControlEnabled(o, disabled, multi, cs[0]) && AllEnabled(Apply(o, cs[0]), disabled, multi, cs[1..]))
  }

  /** Through the controls, aggregate and merge are never both switched on. */
  lemma {:induction false} AggregateMergeExclusive(o: MetricsOptions, disabled: bool, multi: bool, cs: seq<Change>)
    requires !(o.aggregate && o.merge)
    requires AllEnabled(o, disabled, multi, cs)
    ensures !(ApplyAll(o, cs).aggregate && ApplyAll(o, cs).merge)
    decreases |cs|
  {
    if cs != [] {
      AggregateMergeExclusive(Apply(o, cs[0]), disabled, multi, cs[1..]);
    }
  }

  /** Values chosen from the selects stay among the offered ones: each field is
      either one of its select's values or still the value it started with. */
  lemma {:induction false} OfferedStaysInRange(o: MetricsOptions, cs: seq<Change>)
    requires forall i :: 0 <= i < |cs| ==> Offered(cs[i])
    ensures var r := ApplyAll(o, cs);
            (r.width in {1, 2, 3, 4} || r.width == o.width) &&
            (r.interval in {5, 10, 30, 60} || r.interval == o.interval) &&
            (r.depth in {10, 50, 100} || r.depth == o.depth) &&
            (r.chart in {"value", "line", "area", "bar"} || r.chart == o.chart)
    ensures InRange(o) ==> InRange(ApplyAll(o, cs))
    decreases |cs|
  {
    if cs != [] {
      assert Offered(cs[0]);
      OfferedStaysInRange(Apply(o, cs[0]), cs[1..]);
    }
  }

  /** Stack can only be switched while merge is on, but switching merge off leaves
      stack as it was. */
  lemma StackOutlivesMerge(o: MetricsOptions, multi: bool)
    requires o.merge && o.stack && !o.aggregate && multi && Includes(MergeCharts, o.chart)
    ensures ControlEnabled(o, false, multi, MergeChange(false))
    ensures !ControlEnabled(Apply(o, MergeChange(false)), false, multi, StackChange(false))
    ensures Apply(o, MergeChange(false)).stack
  {
  }
}
