/** The cluster list: the shortened labels and, per cluster, whether its item is
    selected, disabled, and what a click reports. */
module ClusterList {
  import opened Kwirth

  const MaxLabel := 25
  const Ellipsis := "..."

  /** `prepareText`: `'N/A'` for a missing or empty text, the text itself up to 25
      characters, otherwise its first 25 characters and an ellipsis. */
  function PrepareText(txt: Option<string>): (r: string)
    ensures txt.None? || txt.value == [] ==> r == "N/A"
    ensures txt.Some? && 0 < |txt.value| <= MaxLabel ==> r == txt.value
    ensures txt.Some? && |txt.value| > MaxLabel ==>
              |r| == MaxLabel + |Ellipsis| && r[..MaxLabel] == txt.value[..MaxLabel] && r[MaxLabel..] == Ellipsis
  {
    if txt.None? || txt.value == [] then "N/A"
    else if |txt.value| > MaxLabel then txt.value[..MaxLabel] + Ellipsis
    else txt.value
  }

  /** A label is never longer than 28 characters, and shortening a label again changes
      nothing. */
  lemma PrepareTextSettles(txt: Option<string>)
    ensures |PrepareText(txt)| <= MaxLabel + |Ellipsis|
    ensures PrepareText(Some(PrepareText(txt))) == PrepareText(txt)
  {
    var r := PrepareText(txt);
    if txt.Some? && |txt.value| > MaxLabel {
      assert r[..MaxLabel] + Ellipsis == r;
    }
  }

  /** One entry of the list. */
  datatype ClusterItem = ClusterItem(primary: string, secondary: string, selected: bool, disabled: bool, reports: string)

  function Item(c: Cluster, selectedClusterName: string): ClusterItem
  {
    ClusterItem(PrepareText(Some(c.name)), PrepareText(Some(c.title)),
                selectedClusterName == c.name, c.pods == [], c.name)
  }

  /** The items, one per cluster in order: selected exactly when the name is the
      selected one, disabled exactly when the cluster has no pods, and a click reports
      the cluster's own name. */
  function Items(clusters: seq<Cluster>, selectedClusterName: string): (r: seq<ClusterItem>)
    ensures |r| == |clusters|
    ensures forall i :: 0 <= i < |r| ==>
              (r[i].selected <==> clusters[i].name == selectedClusterName) &&
              (r[i].disabled <==> |clusters[i].pods| == 0) &&
              r[i].reports == clusters[i].name
  {
    seq(|clusters|, i requires 0 <= i < |clusters| => Item(clusters[i], selectedClusterName))
  }

  /** When cluster names are distinct, at most one item is selected, and reporting a
      click on it and selecting what was reported keeps the same item selected. */
  lemma AtMostOneSelected(clusters: seq<Cluster>, selectedClusterName: string, k: nat)
    requires forall i, j :: 0 <= i < j < |clusters| ==> clusters[i].name != clusters[j].name
    requires k < |clusters|
    ensures var r := Items(clusters, selectedClusterName);
            forall i, j :: 0 <= i < j < |r| ==> !(r[i].selected && r[j].selected)
    ensures var r := Items(clusters, Reported(clusters, k));
            forall i :: 0 <= i < |r| ==> (r[i].selected <==> i == k)
  {
  }

  /** The name a click on item `k` reports. */
  function Reported(clusters: seq<Cluster>, k: nat): string
    requires k < |clusters|
  {
    Items(clusters, "")[k].reports
  }
}
