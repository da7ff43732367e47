/** The namespace chips and the pod and container selects: which namespaces are
    offered, how a click edits the selections in place, and what is auto-selected. */
module ObjectSelector {
  import opened Kwirth
  import opened Seqs

  /** `namespaceList`: the namespaces of the cluster's pods, each once, in order of
      first appearance. */
  function NamespaceList(pods: seq<Pod>): (r: seq<string>)
    ensures NoDup(r)
    ensures forall ns :: ns in r <==> exists p :: p in pods && p.namespace == ns
  {
    var r := Distinct(NamespacesOf(pods));
    assert forall p :: p in pods ==> p.namespace in NamespacesOf(pods) by {
      forall p | p in pods ensures p.namespace in NamespacesOf(pods) {
        var i :| 0 <= i < |pods| && pods[i] == p;
        assert NamespacesOf(pods)[i] == p.namespace;
      }
    }
    r
  }

  /** `s.indexOf(x)`: the first index holding `x`, or -1. */
  function IndexOf(s: seq<string>, x: string): (i: int)
    ensures -1 <= i < |s|
    ensures i >= 0 ==> s[i] == x && x !in s[..i]
    ensures i < 0 ==> x !in s
  {
    if s == [] then -1
    else if s[0] == x then 0
    else
      var i := IndexOf(s[1..], x);
      if i < 0 then -1
      else
        assert s[..i + 1] == [s[0]] + s[1..][..i];
        i + 1
  }

  /** `indexOf` then `splice(i, 1)` or `push`: the namespace is taken out if selected
      and added at the end otherwise. */
  function Toggle(s: seq<string>, x: string): seq<string>
  {
    var i := IndexOf(s, x);
    if i >= 0 then s[..i] + s[i + 1..] else s + [x]
  }

  /** The elements of `s` other than `x`, in order: the reference for a removal. */
  function Without(s: seq<string>, x: string): seq<string>
  {
    if s == [] then []
    else (if s[0] == x then [] else [s[0]]) + Without(s[1..], x)
  }

  lemma {:induction false} WithoutMembers(s: seq<string>, x: string, y: string)
    ensures y in Without(s, x) <==> y in s && y != x
  {
    if s != [] {
      WithoutMembers(s[1..], x, y);
      assert s == [s[0]] + s[1..];
    }
  }

  lemma {:induction false} WithoutAbsent(s: seq<string>, x: string)
    requires x !in s
    ensures Without(s, x) == s
  {
    if s != [] {
      WithoutAbsent(s[1..], x);
      assert s == [s[0]] + s[1..];
    }
  }

  lemma {:induction false} WithoutAppend(a: seq<string>, b: seq<string>, x: string)
    ensures Without(a + b, x) == Without(a, x) + Without(b, x)
  {
    if a != [] {
      WithoutAppend(a[1..], b, x);
      assert (a + b)[1..] == a[1..] + b;
    } else {
      assert a + b == b;
    }
  }

  lemma {:induction false} WithoutNoDup(s: seq<string>, x: string)
    requires NoDup(s)
    ensures NoDup(Without(s, x))
  {
    if s != [] {
      WithoutNoDup(s[1..], x);
      assert s[0] !in s[1..];
      WithoutMembers(s[1..], x, s[0]);
    }
  }

  /** In a sequence without repeats, nothing after an element equals it. */
  lemma NothingAfter(s: seq<string>, i: nat)
    requires NoDup(s) && i < |s|
    ensures s[i] !in s[i + 1..]
  {
    forall k | i + 1 <= k < |s| ensures s[k] != s[i] {}
  }

  /** On a selection without repeats, removing takes out exactly that namespace. */
  lemma ToggleRemoves(s: seq<string>, x: string)
    requires NoDup(s) && x in s
    ensures Toggle(s, x) == Without(s, x)
  {
    var i := IndexOf(s, x);
    var a, b := s[..i], s[i + 1..];
    NothingAfter(s, i);
    assert Toggle(s, x) == a + b;
    assert s == a + ([x] + b);
    RemoveAt(a, x, b);
  }

  /** Taking out the one `x` between two parts without it leaves the two parts. */
  lemma RemoveAt(a: seq<string>, x: string, b: seq<string>)
    requires x !in a && x !in b
    ensures Without(a + ([x] + b), x) == a + b
  {
    var c := [x] + b;
    WithoutAppend(a, c, x);
    assert c[0] == x && c[1..] == b;
    assert Without(c, x) == Without(b, x);
    WithoutAbsent(a, x);
    WithoutAbsent(b, x);
  }

  /** On a selection without repeats, a toggle removes exactly the namespace (the
      others keep their order) or appends it; it never brings in a repeat. */
  lemma ToggleSpec(s: seq<string>, x: string)
    requires NoDup(s)
    ensures x in s ==> Toggle(s, x) == Without(s, x)
    ensures x !in s ==> Toggle(s, x) == s + [x]
    ensures NoDup(Toggle(s, x))
    ensures x in Toggle(s, x) <==> x !in s
    ensures forall y :: y != x ==> (y in Toggle(s, x) <==> y in s)
  {
    if x in s {
      ToggleRemoves(s, x);
      WithoutNoDup(s, x);
      WithoutMembers(s, x, x);
      forall y | y != x ensures y in Toggle(s, x) <==> y in s {
        WithoutMembers(s, x, y);
      }
    }
  }

  /** Toggling a namespace twice undoes the first toggle when it was not selected. */
  lemma ToggleTwice(s: seq<string>, x: string)
    requires x !in s
    ensures Toggle(Toggle(s, x), x) == s
  {
    var t := s + [x];
    assert IndexOf(t, x) == |s| by {
      assert t[..|s|] == s;
    }
    assert t[..|s|] == s;
  }

  /** `pods.filter(p => podNames.includes(p.name))`. */
  function NamedIn(pods: seq<Pod>, podNames: seq<string>): (r: seq<Pod>)
    ensures forall p :: p in r <==> p in pods && p.name in podNames
  {
    if pods == [] then []
    else
      var rest := NamedIn(pods[..|pods| - 1], podNames);
      var p := pods[|pods| - 1];
      assert pods == pods[..|pods| - 1] + [p];
      if p.name in podNames then rest + [p] else rest
  }

  /** The name filter distributes over concatenation: the kept pods keep their order
      and their multiplicity. */
  lemma {:induction false} NamedInAppend(a: seq<Pod>, b: seq<Pod>, podNames: seq<string>)
    ensures NamedIn(a + b, podNames) == NamedIn(a, podNames) + NamedIn(b, podNames)
    decreases |b|
  {
    if b == [] {
      assert a + b == a;
    } else {
      var b0 := b[..|b| - 1];
      assert (a + b)[..|a + b| - 1] == a + b0;
      NamedInAppend(a, b0, podNames);
    }
  }

  /** One pod is kept exactly when its name is selected. */
  lemma NamedInSingle(p: Pod, podNames: seq<string>)
    ensures NamedIn([p], podNames) == if p.name in podNames then [p] else []
  {
    assert [p][..0] == [];
  }

  /** All containers of a list of pods, pod by pod. */
  function AllContainers(pods: seq<Pod>): seq<string>
  {
    if pods == [] then [] else AllContainers(pods[..|pods| - 1]) + pods[|pods| - 1].containers
  }

  lemma {:induction false} InAllContainers(pods: seq<Pod>, c: string)
    ensures c in AllContainers(pods) <==> exists p :: p in pods && c in p.containers
  {
    if pods != [] {
      var init := pods[..|pods| - 1];
      InAllContainers(init, c);
      assert pods == init + [pods[|pods| - 1]];
      if exists p :: p in pods && c in p.containers {
        var p :| p in pods && c in p.containers;
        if p != pods[|pods| - 1] {
          assert p in init;
        }
      }
    }
  }

  /** `getContainerList`: nothing until a namespace and a pod are selected; then the
      containers of the pods matching both selections, each once. */
  function ContainerList(pods: seq<Pod>, namespaces: seq<string>, podNames: seq<string>): seq<string>
  {
    if |namespaces| == 0 || |podNames| == 0 then []
    else Distinct(AllContainers(NamedIn(PodsIn(pods, namespaces), podNames)))
  }

  /** Collecting containers distributes over concatenation. */
  lemma {:induction false} AllContainersAppend(a: seq<Pod>, b: seq<Pod>)
    ensures AllContainers(a + b) == AllContainers(a) + AllContainers(b)
    decreases |b|
  {
    if b == [] {
      assert a + b == a;
    } else {
      var b0 := b[..|b| - 1];
      assert (a + b)[..|a + b| - 1] == a + b0;
      AllContainersAppend(a, b0);
    }
  }

  /** The container list grows pod by pod in cluster order: a further pod in a
      selected namespace with a selected name adds its containers not yet listed, in
      its own order, after the ones already there; any other pod adds nothing. */
  lemma ContainerListStep(pods: seq<Pod>, p: Pod, namespaces: seq<string>, podNames: seq<string>)
    requires namespaces != [] && podNames != []
    ensures ContainerList(pods + [p], namespaces, podNames) ==
              if p.namespace in namespaces && p.name in podNames
              then Distinct(ContainerList(pods, namespaces, podNames) + p.containers)
              else ContainerList(pods, namespaces, podNames)
  {
    var kept := NamedIn(PodsIn(pods, namespaces), podNames);
    var added := NamedIn(PodsIn([p], namespaces), podNames);
    var before := AllContainers(kept);
    assert ContainerList(pods, namespaces, podNames) == Distinct(before);
    assert ContainerList(pods + [p], namespaces, podNames) == Distinct(AllContainers(kept + added)) by {
      PodsInAppend(pods, [p], namespaces);
      NamedInAppend(PodsIn(pods, namespaces), PodsIn([p], namespaces), podNames);
    }
    assert AllContainers(kept + added) == before + AllContainers(added) by {
      AllContainersAppend(kept, added);
    }
    if p.namespace in namespaces && p.name in podNames {
      assert added == [p] by {
        PodsInSingle(p, namespaces);
        NamedInSingle(p, podNames);
      }
      assert AllContainers(added) == p.containers by {
        assert added[..0] == [];
      }
      DistinctOfDistinct(before, p.containers);
    } else {
      assert added == [] by {
        PodsInSingle(p, namespaces);
        if p.namespace in namespaces {
          NamedInSingle(p, podNames);
        }
      }
      assert before + AllContainers(added) == before;
    }
  }

  /** Containers of earlier pods are listed first: the list for a prefix of the
      cluster's pods is a prefix of the list for all of them. */
  lemma ContainerListPrefix(a: seq<Pod>, b: seq<Pod>, namespaces: seq<string>, podNames: seq<string>)
    ensures var pre := ContainerList(a, namespaces, podNames);
            var all := ContainerList(a + b, namespaces, podNames);
            |pre| <= |all| && all[..|pre|] == pre
  {
    if namespaces != [] && podNames != [] {
      var ka := NamedIn(PodsIn(a, namespaces), podNames);
      var kb := NamedIn(PodsIn(b, namespaces), podNames);
      assert NamedIn(PodsIn(a + b, namespaces), podNames) == ka + kb by {
        PodsInAppend(a, b, namespaces);
        NamedInAppend(PodsIn(a, namespaces), PodsIn(b, namespaces), podNames);
      }
      AllContainersAppend(ka, kb);
      DistinctPrefix(AllContainers(ka), AllContainers(kb));
    }
  }

  /** The loop of `getContainerList` collecting the containers pod by pod. */
  method GetContainerList(pods: seq<Pod>, namespaces: seq<string>, podNames: seq<string>) returns (r: seq<string>)
    ensures r == ContainerList(pods, namespaces, podNames)
  {
    if |namespaces| == 0 || |podNames| == 0 {
      return [];
    }
    var validpods := PodsIn(pods, namespaces);
    validpods := NamedIn(validpods, podNames);
    var validcontainers: seq<string> := [];
    for k := 0 to |validpods|
      invariant validcontainers == AllContainers(validpods[..k])
    {
      assert validpods[..k + 1][..k] == validpods[..k];
      validcontainers := validcontainers + validpods[k].containers;
    }
    assert validpods[..|validpods|] == validpods;
    r := Distinct(validcontainers);
  }

  /** The container list holds each candidate once, and a container is a candidate
      exactly when some pod in a selected namespace, with a selected name, runs it. */
  lemma ContainerListSpec(pods: seq<Pod>, namespaces: seq<string>, podNames: seq<string>, c: string)
    ensures NoDup(ContainerList(pods, namespaces, podNames))
    ensures c in ContainerList(pods, namespaces, podNames) <==>
              namespaces != [] && podNames != [] &&
              exists p :: p in pods && p.namespace in namespaces && p.name in podNames && c in p.containers
  {
    var chosen := NamedIn(PodsIn(pods, namespaces), podNames);
    InAllContainers(chosen, c);
  }

  /** `if (list.length === 1) selection.push(...list)`, after the selection was emptied. */
  function AutoFill(list: seq<string>): (r: seq<string>)
    ensures r != [] <==> |list| == 1
    ensures r != [] ==> r == list
  {
    if |list| == 1 then list else []
  }

  /** What the selector hands to `onSelect`: copies of the three selections. */
  datatype Picked = Picked(namespaces: seq<string>, podNames: seq<string>, containerNames: seq<string>)

  /** The selector over one cluster's pods. The three selections are edited in place;
      `emitted` records every `onSelect` call. */
  class Selector {
    const pods: seq<Pod>
    var namespaces: seq<string>
    var podNames: seq<string>
    var containerNames: seq<string>
    var emitted: seq<Picked>

    constructor(pods: seq<Pod>, namespaces: seq<string>, podNames: seq<string>, containerNames: seq<string>)
      ensures this.pods == pods && this.namespaces == namespaces
      ensures this.podNames == podNames && this.containerNames == containerNames
      ensures emitted == []
    {
      this.pods := pods;
      this.namespaces := namespaces;
      this.podNames := podNames;
      this.containerNames := containerNames;
      emitted := [];
    }

    /** `getPodList`: the pods in the selected namespaces, in cluster order (see
        `PodsInAppend` and `PodsInSingle`); with every namespace selected, all pods. */
    function PodList(): (r: seq<Pod>)
      reads this
      ensures forall p :: p in r <==> p in pods && p.namespace in namespaces
      ensures |r| <= |pods|
      ensures (forall i :: 0 <= i < |pods| ==> pods[i].namespace in namespaces) ==> r == pods
    {
      assert (forall i :: 0 <= i < |pods| ==> pods[i].namespace in namespaces) ==> PodsIn(pods, namespaces) == pods by {
        if forall i :: 0 <= i < |pods| ==> pods[i].namespace in namespaces {
          PodsInAll(pods, namespaces);
        }
      }
      PodsIn(pods, namespaces)
    }

    /** A click on a namespace chip: toggle it, select the pod if exactly one remains,
        select the container if exactly one remains, and report all three. */
    method OnNamespaceChange(ns: string)
      modifies this`namespaces, this`podNames, this`containerNames, this`emitted
      ensures namespaces == Toggle(old(namespaces), ns)
      ensures podNames == AutoFill(PodNames(PodsIn(pods, namespaces)))
      ensures containerNames == AutoFill(ContainerList(pods, namespaces, podNames))
      ensures emitted == old(emitted) + [Picked(namespaces, podNames, containerNames)]
    {
      var i := IndexOf(namespaces, ns);
      if i >= 0 {
        namespaces := namespaces[..i] + namespaces[i + 1..];
      } else {
        namespaces := namespaces + [ns];
      }
      ReselectPods();
      ReselectContainers();
      emitted := emitted + [Picked(namespaces, podNames, containerNames)];
    }

    /** Empty the pod selection, then fill it when exactly one pod remains. */
    method ReselectPods()
      modifies this`podNames
      ensures podNames == AutoFill(PodNames(PodsIn(pods, namespaces)))
    {
      podNames := [];
      var list := PodList();
      if |list| == 1 {
        assert podNames + PodNames(list) == PodNames(list);
        podNames := podNames + PodNames(list);
      }
    }

    /** Empty the container selection, then fill it when exactly one container
        remains. */
    method ReselectContainers()
      modifies this`containerNames
      ensures containerNames == AutoFill(ContainerList(pods, namespaces, podNames))
    {
      containerNames := [];
      var containers := GetContainerList(pods, namespaces, podNames);
      if |containers| == 1 {
        assert containerNames + containers == containers;
        containerNames := containerNames + containers;
      }
    }

    /** A change in the pod select: take the chosen pods, select the container if
        exactly one remains, and report all three. */
    method OnPodNameChange(chosen: seq<string>)
      modifies this`podNames, this`containerNames, this`emitted
      ensures podNames == chosen
      ensures containerNames == AutoFill(ContainerList(pods, namespaces, chosen))
      ensures emitted == old(emitted) + [Picked(namespaces, podNames, containerNames)]
    {
      podNames := [] + chosen;
      ReselectContainers();
      emitted := emitted + [Picked(namespaces, podNames, containerNames)];
    }

    /** A change in the container select: take the chosen containers and report. */
    method OnContainerNameChange(chosen: seq<string>)
      modifies this`containerNames, this`emitted
      ensures containerNames == chosen
      ensures emitted == old(emitted) + [Picked(namespaces, podNames, chosen)]
    {
      containerNames := [] + chosen;
      emitted := emitted + [Picked(namespaces, podNames, containerNames)];
    }
  }

  /** After a namespace click the pod selection names the one pod in the selected
      namespaces, or is empty when there are none or several; a selected container is
      always one the selected pods run. */
  lemma NamespaceChangeSelects(pods: seq<Pod>, namespaces: seq<string>, c: string)
    ensures var list := PodsIn(pods, namespaces);
            var names := AutoFill(PodNames(list));
            (|list| == 1 ==> names == [list[0].name]) &&
            (|list| != 1 ==> names == []) &&
            (c in AutoFill(ContainerList(pods, namespaces, names)) ==>
               exists p :: p in pods && p.namespace in namespaces && p.name in names && c in p.containers)
  {
    var list := PodsIn(pods, namespaces);
    ContainerListSpec(pods, namespaces, AutoFill(PodNames(list)), c);
  }

  /** `existAccessKey`: whether the cluster's key for the scope grants a resource whose
      namespaces field is exactly `ns`; `namespacesOf` stands for `parseResources`
      followed by reading each resource's namespaces field. */
  function ExistAccessKey(keys: map<Scope, AccessKey>, scope: Scope, ns: string,
                          namespacesOf: string -> seq<string>): (r: bool)
    ensures scope !in keys ==> !r
    ensures scope in keys ==> (r <==> exists k :: 0 <= k < |namespacesOf(keys[scope].resources)| &&
                                                  namespacesOf(keys[scope].resources)[k] == ns)
  {
    scope in keys && ns in namespacesOf(keys[scope].resources)
  }
}
