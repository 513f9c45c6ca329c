/**
 * The per-node resource table (`Resources` of the node command): which
 * resource names appear as columns, in which order, and the quantity each
 * node reports under each of them.
 */
module NodeResourcesCommand {
  import opened Wrappers
  import opened Strings
  import opened SortedSets
  import opened Show
  import Render

  type Quantities = Render.Quantities

  /** A `corev1::Node`: an object with a node body. */
  type Node = o: Render.KubeObject | o.body.NodeBody?
    witness Render.KubeObject(Render.ObjectMeta(None, None, None, None, None), Render.NodeBody(None))

  /** `capacity` or `allocatable`: the chosen quantity map, when the node reports one. */
  function Chosen(node: Node, capacity: bool): Option<Quantities> {
    match node.body.status
    case None => None
    case Some(status) => if capacity then status.capacity else status.allocatable
  }

  /** Some node reports `y` in its chosen map. */
  predicate Reports(nodes: seq<Node>, capacity: bool, y: string) {
    exists i :: 0 <= i < |nodes| && Chosen(nodes[i], capacity).Some? && y in Chosen(nodes[i], capacity).value
  }

  /**
   * The `filter_map` to the chosen maps followed by `flat_map(keys)`: the keys
   * of each node's chosen map in the map's order, node after node.
   */
  function AllKeys(nodes: seq<Node>, capacity: bool): seq<string>
    decreases |nodes|
  {
    if nodes == [] then []
    else
      (match Chosen(nodes[0], capacity) case Some(q) => OfSet(q.Keys) case None => [])
      + AllKeys(nodes[1..], capacity)
  }

  /** The keys collected are those some node reports in its chosen map; the other nodes contribute none. */
  lemma {:induction false} AllKeysMeaning(nodes: seq<Node>, capacity: bool)
    decreases |nodes|
    ensures forall y :: y in AllKeys(nodes, capacity) <==> Reports(nodes, capacity, y)
  {
    if nodes != [] {
      AllKeysMeaning(nodes[1..], capacity);
      var head := match Chosen(nodes[0], capacity) case Some(q) => OfSet(q.Keys) case None => [];
      if Chosen(nodes[0], capacity).Some? {
        OfSetSorted(Chosen(nodes[0], capacity).value.Keys);
      }
      forall y ensures y in AllKeys(nodes, capacity) <==> Reports(nodes, capacity, y) {
        if Reports(nodes[1..], capacity, y) {
          var i :| 0 <= i < |nodes[1..]| && Chosen(nodes[1..][i], capacity).Some? && y in Chosen(nodes[1..][i], capacity).value;
          assert nodes[1..][i] == nodes[i + 1];
        }
        if Reports(nodes, capacity, y) {
          var i :| 0 <= i < |nodes| && Chosen(nodes[i], capacity).Some? && y in Chosen(nodes[i], capacity).value;
          if i > 0 {
            assert nodes[1..][i - 1] == nodes[i];
          }
        }
      }
    }
  }

  // ---------------------------------------------------------------------------
  // Resource names

  /** The standard resources, in the order they lead the table. */
  const StdResources: seq<string> := ["cpu", "memory", "ephemeral-storage", "pods", "hugepages-1Gi", "hugepages-2Mi"]

  lemma StdDistinct()
    ensures forall i, j :: 0 <= i < j < |StdResources| ==> StdResources[i] != StdResources[j]
  {
    forall i, j | 0 <= i < j < |StdResources| ensures StdResources[i] != StdResources[j] {
      assert |StdResources[i]| != |StdResources[j]| || StdResources[i][0] != StdResources[j][0]
        || StdResources[i][10] != StdResources[j][10];
    }
  }

  /** The position of a name in the standard order; past the end for the other names. */
  function Rank(x: string): (r: nat)
    ensures r <= |StdResources|
    ensures r < |StdResources| <==> x in StdResources
    ensures r < |StdResources| ==> StdResources[r] == x
  {
    if x == "cpu" then 0
    else if x == "memory" then 1
    else if x == "ephemeral-storage" then 2
    else if x == "pods" then 3
    else if x == "hugepages-1Gi" then 4
    else if x == "hugepages-2Mi" then 5
    else 6
  }

  /** The names of `std` that `names` holds, in the order of `std`. */
  function Present(std: seq<string>, names: seq<string>): (r: seq<string>)
    decreases |std|
  {
    if std == [] then []
    else Present(std[..|std| - 1], names) + (if std[|std| - 1] in names then [std[|std| - 1]] else [])
  }

  /** `Present` picks exactly the standard names present, in ascending rank. */
  lemma {:induction false} PresentMeaning(n: nat, names: seq<string>)
    requires n <= |StdResources|
    decreases n
    ensures forall y :: y in Present(StdResources[..n], names) <==> y in StdResources[..n] && y in names
    ensures forall i, j :: 0 <= i < j < |Present(StdResources[..n], names)| ==>
      Rank(Present(StdResources[..n], names)[i]) < Rank(Present(StdResources[..n], names)[j])
    ensures forall i :: 0 <= i < |Present(StdResources[..n], names)| ==> Rank(Present(StdResources[..n], names)[i]) < n
  {
    StdDistinct();
    if n > 0 {
      PresentMeaning(n - 1, names);
      assert StdResources[..n][..n - 1] == StdResources[..n - 1];
      assert StdResources[..n] == StdResources[..n - 1] + [StdResources[n - 1]];
      var p := Present(StdResources[..n - 1], names);
      var r := Present(StdResources[..n], names);
      assert Rank(StdResources[n - 1]) == n - 1;
      forall i | 0 <= i < |r| ensures Rank(r[i]) < n {
        if i < |p| {
          assert r[i] == p[i];
        }
      }
      forall i, j | 0 <= i < j < |r| ensures Rank(r[i]) < Rank(r[j]) {
        assert r[i] == p[i];
        if j < |p| {
          assert r[j] == p[j];
        }
      }
    }
  }

  /** `Present` reads `names` only through membership. */
  lemma {:induction false} PresentBySet(std: seq<string>, a: seq<string>, b: seq<string>)
    requires forall y :: y in a <==> y in b
    decreases |std|
    ensures Present(std, a) == Present(std, b)
  {
    if std != [] {
      PresentBySet(std[..|std| - 1], a, b);
    }
  }

  /** The names of an ordered set outside `std`, still in order. */
  function Except(names: seq<string>, std: seq<string>): (r: seq<string>)
    decreases |std|
    ensures forall y :: y in r <==> y in names && y !in std
    ensures Sorted(names) ==> Sorted(r)
  {
    if std == [] then names
    else
      var r := SortedSets.Without(Except(names, std[..|std| - 1]), std[|std| - 1]);
      assert std == std[..|std| - 1] + [std[|std| - 1]];
      r
  }

  /** The columns: the standard names present, in their order, then the rest ascending. */
  function OrderedNames(keys: seq<string>): seq<string> {
    var names := FromSeq(keys);
    Present(StdResources, names) + Except(names, StdResources)
  }

  /** `resource_names`: a `BTreeSet` of every key, from which the fold takes the standard names one by one. */
  method ResourceNames(keys: seq<string>) returns (ordered: seq<string>)
    ensures ordered == OrderedNames(keys)
  {
    var names := FromSeq(keys);
    ghost var all := names;
    FromSeqSorted(keys);
    StdDistinct();
    ordered := [];
    for i := 0 to |StdResources|
      invariant Sorted(names)
      invariant forall y :: y in names <==> y in all && y !in StdResources[..i]
      invariant ordered == Present(StdResources[..i], all)
    {
      var x := StdResources[i];
      assert StdResources[..i + 1][..i] == StdResources[..i];
      assert StdResources[..i + 1] == StdResources[..i] + [x];
      assert x in names <==> x in all;
      var (taken, rest) := Take(names, x);
      ordered := ordered + (match taken case Some(t) => [t] case None => []);
      names := rest;
    }
    assert StdResources[..|StdResources|] == StdResources;
    SortedUnique(names, Except(all, StdResources));
    ordered := ordered + names;
  }

  /** Each key is a column exactly once. */
  lemma NamesExactlyOnce(keys: seq<string>)
    ensures forall y :: y in OrderedNames(keys) <==> y in keys
    ensures forall i, j :: 0 <= i < j < |OrderedNames(keys)| ==> OrderedNames(keys)[i] != OrderedNames(keys)[j]
  {
    var names := FromSeq(keys);
    FromSeqSorted(keys);
    PresentMeaning(|StdResources|, names);
    assert StdResources[..|StdResources|] == StdResources;
    var p := Present(StdResources, names);
    var e := Except(names, StdResources);
    var r := p + e;
    forall i, j | 0 <= i < j < |r| ensures r[i] != r[j] {
      if j < |p| {
        assert r[i] == p[i] && r[j] == p[j];
      } else if i >= |p| {
        assert r[i] == e[i - |p|] && r[j] == e[j - |p|];
      } else {
        assert r[i] in p && r[j] in e;
      }
    }
  }

  /** The present standard names lead, in the order cpu, memory, ephemeral-storage, pods, hugepages-1Gi, hugepages-2Mi. */
  lemma StandardNamesFirst(keys: seq<string>)
    ensures var k := |Present(StdResources, keys)|;
      && k <= |OrderedNames(keys)|
      && OrderedNames(keys)[..k] == Present(StdResources, keys)
      && (forall y :: y in OrderedNames(keys)[..k] <==> y in StdResources && y in keys)
      && (forall i, j :: 0 <= i < j < k ==> Rank(OrderedNames(keys)[i]) < Rank(OrderedNames(keys)[j]))
  {
    FromSeqSorted(keys);
    PresentBySet(StdResources, FromSeq(keys), keys);
    PresentMeaning(|StdResources|, keys);
    assert StdResources[..|StdResources|] == StdResources;
    var p := Present(StdResources, keys);
    assert OrderedNames(keys)[..|p|] == p;
  }

  /** After them come the other names, ascending. */
  lemma RestAscending(keys: seq<string>)
    ensures var k := |Present(StdResources, keys)|;
      && k <= |OrderedNames(keys)|
      && Sorted(OrderedNames(keys)[k..])
      && (forall y :: y in OrderedNames(keys)[k..] <==> y in keys && y !in StdResources)
  {
    FromSeqSorted(keys);
    PresentBySet(StdResources, FromSeq(keys), keys);
    var p := Present(StdResources, keys);
    assert OrderedNames(keys)[|p|..] == Except(FromSeq(keys), StdResources);
  }

  // ---------------------------------------------------------------------------
  // Values

  /** `unwrap_or_default` of the chosen map. */
  function QuantitiesOf(node: Node, capacity: bool): Quantities {
    match Chosen(node, capacity) case Some(q) => q case None => map[]
  }

  /** Each name's quantity, removed from the map as it is read; "-" when there is none left. */
  function Lookups(q: Quantities, names: seq<string>): (r: seq<string>)
    ensures |r| == |names|
    decreases |names|
  {
    if names == [] then []
    else [if names[0] in q then q[names[0]] else "-"] + Lookups(q - {names[0]}, names[1..])
  }

  /** With distinct names, the removal never hides a quantity: each value is its name's quantity or "-". */
  lemma {:induction false} LookupsMeaning(q: Quantities, names: seq<string>)
    requires forall i, j :: 0 <= i < j < |names| ==> names[i] != names[j]
    decreases |names|
    ensures |Lookups(q, names)| == |names|
    ensures forall i :: 0 <= i < |names| ==> Lookups(q, names)[i] == if names[i] in q then q[names[i]] else "-"
  {
    if names != [] {
      var rest := q - {names[0]};
      LookupsMeaning(rest, names[1..]);
      forall i | 0 < i < |names| ensures Lookups(q, names)[i] == if names[i] in q then q[names[i]] else "-" {
        assert names[1..][i - 1] == names[i] && names[i] != names[0];
        assert names[i] in q <==> names[i] in rest;
      }
    }
  }

  /** `node_resources`: the node's chosen map (empty if absent), emptied name by name. */
  method NodeValues(node: Node, capacity: bool, names: seq<string>) returns (values: seq<string>)
    ensures values == Lookups(QuantitiesOf(node, capacity), names)
  {
    var resources := QuantitiesOf(node, capacity);
    ghost var all := Lookups(resources, names);
    values := [];
    assert names[0..] == names;
    for i := 0 to |names|
      invariant values + Lookups(resources, names[i..]) == all
    {
      var name := names[i];
      var v := if name in resources then resources[name] else "-";
      LookupsStep(values, resources, names, i, all);
      resources := resources - {name};
      values := values + [v];
    }
    assert names[|names|..] == [];
  }

  /**
   * One step of the lookup: the name at `i` is looked up, its value joins the
   * earlier ones and the name is removed before the rest.
   */
  lemma LookupsStep(values: seq<string>, q: Quantities, names: seq<string>, i: nat, all: seq<string>)
    requires i < |names| && values + Lookups(q, names[i..]) == all
    ensures (values + [if names[i] in q then q[names[i]] else "-"]) + Lookups(q - {names[i]}, names[i + 1..]) == all
  {
    assert names[i..][0] == names[i];
    assert names[i..][1..] == names[i + 1..];
    var v := if names[i] in q then q[names[i]] else "-";
    assert Lookups(q, names[i..]) == [v] + Lookups(q - {names[i]}, names[i + 1..]);
    assert values + ([v] + Lookups(q - {names[i]}, names[i + 1..])) == (values + [v]) + Lookups(q - {names[i]}, names[i + 1..]);
  }

  /** `from_node`: "NODE" and the names as the header, the node's name and its values as the row. */
  function FromNode(node: Node, capacity: bool, names: seq<string>): Render.Renderable {
    Render.NodeResources(["NODE"] + names, [Render.NameAny(node.meta)] + Lookups(QuantitiesOf(node, capacity), names))
  }

  /** `from_nodes`: the columns from every node's chosen map, then one table per node. */
  function FromNodes(nodes: seq<Node>, capacity: bool): seq<Render.Renderable> {
    var names := OrderedNames(AllKeys(nodes, capacity));
    seq(|nodes|, i requires 0 <= i < |nodes| => FromNode(nodes[i], capacity, names))
  }

  /** The columns are the keys of the chosen map of some node; nodes without it contribute none. */
  lemma ColumnsFromChosenMaps(nodes: seq<Node>, capacity: bool)
    ensures forall y :: y in OrderedNames(AllKeys(nodes, capacity)) <==> Reports(nodes, capacity, y)
  {
    NamesExactlyOnce(AllKeys(nodes, capacity));
    AllKeysMeaning(nodes, capacity);
  }

  /** One table per node, in order; its header and row line up, and each cell is the node's quantity or "-". */
  lemma FromNodesShape(nodes: seq<Node>, capacity: bool)
    ensures var names := OrderedNames(AllKeys(nodes, capacity));
      var r := FromNodes(nodes, capacity);
      && |r| == |nodes|
      && forall i :: 0 <= i < |nodes| ==>
        && r[i].NodeResources?
        && r[i].resources == ["NODE"] + names
        && |r[i].values| == |r[i].resources|
        && r[i].values[0] == Render.NameAny(nodes[i].meta)
        && forall j :: 0 <= j < |names| ==>
          r[i].values[j + 1] == if names[j] in QuantitiesOf(nodes[i], capacity) then QuantitiesOf(nodes[i], capacity)[names[j]] else "-"
  {
    var names := OrderedNames(AllKeys(nodes, capacity));
    NamesExactlyOnce(AllKeys(nodes, capacity));
    forall i | 0 <= i < |nodes| {
      FromNodeShape(nodes[i], capacity, names);
    }
  }

  /** With distinct names, a node's header and row line up, and each cell is its quantity or "-". */
  lemma FromNodeShape(node: Node, capacity: bool, names: seq<string>)
    requires forall i, j :: 0 <= i < j < |names| ==> names[i] != names[j]
    ensures var r := FromNode(node, capacity, names);
      && r.NodeResources?
      && r.resources == ["NODE"] + names
      && |r.values| == |r.resources|
      && r.values[0] == Render.NameAny(node.meta)
      && forall j :: 0 <= j < |names| ==>
        r.values[j + 1] == if names[j] in QuantitiesOf(node, capacity) then QuantitiesOf(node, capacity)[names[j]] else "-"
  {
    var q := QuantitiesOf(node, capacity);
    LookupsMeaning(q, names);
    var r := FromNode(node, capacity, names);
    assert forall j :: 0 <= j < |names| ==> r.values[j + 1] == Lookups(q, names)[j];
  }

  /** The table shows only through its header and data; its name is "resources". */
  lemma ResourcesShown(resources: seq<string>, values: seq<string>, params: ShowParams, fmt: OutputFormat, env: Render.Env)
    ensures Render.Header(Render.NodeResources(resources, values), fmt) == Ok(resources)
    ensures Render.Data(Render.NodeResources(resources, values), params, fmt, env) == Ok(values)
    ensures Render.NameText(Render.NodeResources(resources, values)) == Ok("resources")
    ensures Render.NormalTable(Render.NodeResources(resources, values), params, env).Err?
    ensures Render.WideTable(Render.NodeResources(resources, values), params, env).Err?
    ensures Render.JsonText(Render.NodeResources(resources, values), params, env).Err?
    ensures Render.YamlText(Render.NodeResources(resources, values), params, env).Err?
  {
  }
}
