/**
 * Resource-token resolution: the command line's resource arguments (`pod`,
 * `pod,node a b`, `pod/a node/b`) become type-only or type-and-name references.
 * A type token is first looked up in a fixed alias table and then in the cached
 * discovery catalog.
 */
module Resources {
  import opened Wrappers
  import opened Strings
  import opened Fallible
  import opened Discovery
  import Kubeapi

  datatype Resource =
    | Pods
    | Namespaces
    | Nodes
    | ConfigMaps
    | ComponentStatuses
    | Other(scope: Scope, resource: ApiResource)

  /** A resource type together with an object name; equality compares both. */
  datatype NamedResource = NamedResource(resource: Resource, name: string)

  /** A command-line reference: a type alone, or a type with an object name. */
  datatype ResourceArg = TypeOnly(resource: Resource) | TypeAndName(named: NamedResource)

  /** The one resolution error, whatever went wrong. */
  datatype InvalidResourceSpec = InvalidResourceSpec

  // ---------------------------------------------------------------------------
  // NamedResource
  // ---------------------------------------------------------------------------

  /** `NamedResource::with_resource`: both parts stored as given; the name is not checked. */
  function WithResource(resource: Resource, name: string): (r: NamedResource)
    ensures ResourceOf(r) == resource && NameOf(r) == name
  {
    NamedResource(resource, name)
  }

  /** `NamedResource::resource` */
  function ResourceOf(nr: NamedResource): Resource { nr.resource }

  /** `NamedResource::name` */
  function NameOf(nr: NamedResource): string { nr.name }

  /** Two named resources are equal exactly when their types and their names are. */
  lemma WithResourceInjective(r1: Resource, n1: string, r2: Resource, n2: string)
    ensures WithResource(r1, n1) == WithResource(r2, n2) <==> r1 == r2 && n1 == n2
  {
    if WithResource(r1, n1) == WithResource(r2, n2) {
      assert ResourceOf(WithResource(r1, n1)) == ResourceOf(WithResource(r2, n2));
    }
  }

  /** `Display for NamedResource`: the type's display, '/', the name. */
  function NamedDisplay(nr: NamedResource): (r: string)
    ensures |r| == |Display(nr.resource)| + 1 + |nr.name|
  {
    Display(nr.resource) + "/" + nr.name
  }

  // ---------------------------------------------------------------------------
  // Resource
  // ---------------------------------------------------------------------------

  /** `Resource::well_known`: the alias table, matched exactly and case-sensitively. */
  function WellKnown(text: string): (r: Option<Resource>)
    ensures r.Some? ==> !r.value.Other?
  {
    if text == "po" || text == "pod" || text == "pods" then Some(Pods)
    else if text == "no" || text == "node" || text == "nodes" then Some(Nodes)
    else if text == "ns" || text == "namespace" || text == "namespaces" then Some(Namespaces)
    else if text == "cm" || text == "configmap" || text == "configmaps" then Some(ConfigMaps)
    else if text == "cs" || text == "componentstatus" || text == "componentstatuses" then Some(ComponentStatuses)
    else None
  }

  /** The 15 aliases, and the kind each stands for. */
  function Aliases(): (r: seq<(string, Resource)>)
    ensures |r| == 15
  {
    [("po", Pods), ("pod", Pods), ("pods", Pods),
     ("no", Nodes), ("node", Nodes), ("nodes", Nodes),
     ("ns", Namespaces), ("namespace", Namespaces), ("namespaces", Namespaces),
     ("cm", ConfigMaps), ("configmap", ConfigMaps), ("configmaps", ConfigMaps),
     ("cs", ComponentStatuses), ("componentstatus", ComponentStatuses), ("componentstatuses", ComponentStatuses)]
  }

  /** The alias table accepts exactly the 15 aliases, each for its kind. */
  lemma WellKnownIsAliasTable(text: string)
    ensures WellKnown(text).Some? <==> exists i :: 0 <= i < 15 && Aliases()[i].0 == text
    ensures forall i :: 0 <= i < 15 && Aliases()[i].0 == text ==> WellKnown(text) == Some(Aliases()[i].1)
  {
    var a := Aliases();
    if WellKnown(text).Some? {
      if text == "po" { assert a[0].0 == text; }
      else if text == "pod" { assert a[1].0 == text; }
      else if text == "pods" { assert a[2].0 == text; }
      else if text == "no" { assert a[3].0 == text; }
      else if text == "node" { assert a[4].0 == text; }
      else if text == "nodes" { assert a[5].0 == text; }
      else if text == "ns" { assert a[6].0 == text; }
      else if text == "namespace" { assert a[7].0 == text; }
      else if text == "namespaces" { assert a[8].0 == text; }
      else if text == "cm" { assert a[9].0 == text; }
      else if text == "configmap" { assert a[10].0 == text; }
      else if text == "configmaps" { assert a[11].0 == text; }
      else if text == "cs" { assert a[12].0 == text; }
      else if text == "componentstatus" { assert a[13].0 == text; }
      else { assert a[14].0 == text; }
    }
  }

  /** Matching is case-sensitive: "Pod" is not an alias. */
  lemma WellKnownCaseSensitive()
    ensures WellKnown("Pod").None? && WellKnown("pod") == Some(Pods)
  {
  }

  /**
   * `Resource::api_resource`: the scope and dynamic type of each kind. The five
   * built-in kinds carry the core group's `v1` types.
   */
  function ApiResourceOf(r: Resource): (p: (Scope, ApiResource))
    ensures r.Other? ==> p == (r.scope, r.resource)
    ensures !r.Other? ==> p.1.group == "" && p.1.version == "v1" && p.1.apiVersion == "v1"
  {
    match r
    case Pods => (Namespaced, CoreV1("Pod", "pods"))
    case Namespaces => (Cluster, CoreV1("Namespace", "namespaces"))
    case Nodes => (Cluster, CoreV1("Node", "nodes"))
    case ConfigMaps => (Namespaced, CoreV1("ConfigMap", "configmaps"))
    case ComponentStatuses => (Namespaced, CoreV1("ComponentStatus", "componentstatuses"))
    case Other(scope, resource) => (scope, resource)
  }

  /** `ApiResource::erase` of a core `v1` type. */
  function CoreV1(kind: string, plural: string): ApiResource {
    ApiResource("", "v1", "v1", kind, plural)
  }

  /** The declared scopes of the built-in kinds. */
  lemma WellKnownScopes()
    ensures ApiResourceOf(Pods).0 == Namespaced
    ensures ApiResourceOf(Namespaces).0 == Cluster
    ensures ApiResourceOf(Nodes).0 == Cluster
    ensures ApiResourceOf(ConfigMaps).0 == Namespaced
    ensures ApiResourceOf(ComponentStatuses).0 == Namespaced
  {
  }

  /**
   * The plural each built-in kind declares is one of its own aliases, so
   * resolving it gives the kind back.
   */
  lemma PluralIsAlias(r: Resource)
    requires !r.Other?
    ensures WellKnown(ApiResourceOf(r).1.plural) == Some(r)
  {
  }

  /**
   * Component statuses are declared namespaced here, while the typed accessor
   * for the same kind always targets every namespace.
   */
  lemma ComponentStatusesScopeMismatch(k: Kubeapi.Kubeapi)
    requires Kubeapi.Client(k).Ok?
    ensures ApiResourceOf(ComponentStatuses).0 == Namespaced
    ensures Kubeapi.Api(k, Kubeapi.ComponentStatuses).value.target == Kubeapi.AllNamespaces
  {
  }

  /** `Display for Resource`: the lower-case singular name, or the lower-cased kind. */
  function Display(r: Resource): (s: string)
    ensures r.Other? ==> s == ToLower(r.resource.kind)
  {
    match r
    case Pods => "pod"
    case Namespaces => "namespace"
    case Nodes => "node"
    case ConfigMaps => "configmap"
    case ComponentStatuses => "componentstatus"
    case Other(_, resource) => ToLower(resource.kind)
  }

  /** A built-in kind's display name is one of its aliases and contains no '/'. */
  lemma DisplayIsAlias(r: Resource)
    requires !r.Other?
    ensures WellKnown(Display(r)) == Some(r)
    ensures '/' !in Display(r)
  {
  }

  /**
   * `cached_dynamic_api_resource`: the first list, in order, whose lookup of
   * the name succeeds, and that lookup's answer.
   */
  function FindMap(lists: seq<APIResourceList>, name: string, syntax: GvSyntax): (r: Option<(Scope, ApiResource)>)
    ensures r.None? <==> forall i :: 0 <= i < |lists| ==> ListApiResource(lists[i], name, syntax).None?
  {
    if lists == [] then None
    else
      var here := ListApiResource(lists[0], name, syntax);
      if here.Some? then here
      else
        var r := FindMap(lists[1..], name, syntax);
        assert r.None? <==> forall i :: 0 <= i < |lists| ==> ListApiResource(lists[i], name, syntax).None? by {
          forall i | 1 <= i < |lists| ensures lists[i] == lists[1..][i - 1] { }
        }
        r
  }

  /** A found answer is the answer of the first list that resolves the name. */
  lemma {:induction false} FindMapFirst(lists: seq<APIResourceList>, name: string, syntax: GvSyntax)
    requires FindMap(lists, name, syntax).Some?
    decreases |lists|
    ensures exists i :: 0 <= i < |lists| && ListApiResource(lists[i], name, syntax) == FindMap(lists, name, syntax)
                        && forall j :: 0 <= j < i ==> ListApiResource(lists[j], name, syntax).None?
  {
    var r := FindMap(lists, name, syntax);
    if ListApiResource(lists[0], name, syntax).Some? {
      assert ListApiResource(lists[0], name, syntax) == r;
    } else {
      FindMapFirst(lists[1..], name, syntax);
      var k :| 0 <= k < |lists| - 1 && ListApiResource(lists[1..][k], name, syntax) == r
               && forall j :: 0 <= j < k ==> ListApiResource(lists[1..][j], name, syntax).None?;
      forall j | 0 <= j < k + 1 ensures ListApiResource(lists[j], name, syntax).None? {
        if j > 0 { assert lists[j] == lists[1..][j - 1]; }
      }
      assert lists[k + 1] == lists[1..][k];
    }
  }

  /** `Resource::other`: a catalog entry the cached discovery lists name. */
  function OtherOf(text: string, k: Kubeapi.Kubeapi, syntax: GvSyntax): Option<Resource> {
    match FindMap(Kubeapi.CachedServerApiResources(k), text, syntax)
    case None => None
    case Some((scope, resource)) => Some(Other(scope, resource))
  }

  /** `Resource::with_cache`: the alias table first, then the cached catalog. */
  function WithCache(text: string, k: Kubeapi.Kubeapi, syntax: GvSyntax): Option<Resource> {
    match WellKnown(text)
    case Some(resource) => Some(resource)
    case None => OtherOf(text, k, syntax)
  }

  /**
   * Resolution reads only the cache: the live client and the rest of the
   * handle play no part.
   */
  lemma WithCacheReadsOnlyCache(text: string, k1: Kubeapi.Kubeapi, k2: Kubeapi.Kubeapi, syntax: GvSyntax)
    requires k1.cache == k2.cache
    ensures WithCache(text, k1, syntax) == WithCache(text, k2, syntax)
  {
  }

  /** With nothing cached only the 15 aliases resolve. */
  lemma EmptyCacheResolvesAliasesOnly(text: string, k: Kubeapi.Kubeapi, syntax: GvSyntax)
    requires k.cache.resources == []
    ensures WithCache(text, k, syntax) == WellKnown(text)
  {
  }

  // ---------------------------------------------------------------------------
  // ResourceArg
  // ---------------------------------------------------------------------------

  /** `ResourceArg::resource` */
  function ArgResource(arg: ResourceArg): (r: Resource)
    ensures arg.TypeAndName? ==> r == ResourceOf(arg.named)
  {
    match arg
    case TypeOnly(resource) => resource
    case TypeAndName(named) => ResourceOf(named)
  }

  /** `ResourceArg::name`: absent exactly for a type-only reference. */
  function ArgName(arg: ResourceArg): (r: Option<string>)
    ensures r.None? <==> arg.TypeOnly?
    ensures r.Some? ==> r.value == NameOf(arg.named)
  {
    match arg
    case TypeOnly(_) => None
    case TypeAndName(named) => Some(NameOf(named))
  }

  /** `Display for ResourceArg` */
  function ArgDisplay(arg: ResourceArg): (s: string)
    ensures arg.TypeOnly? ==> s == Display(arg.resource)
    ensures arg.TypeAndName? ==> s == NamedDisplay(arg.named)
  {
    match arg
    case TypeOnly(resource) => Display(resource)
    case TypeAndName(named) => NamedDisplay(named)
  }

  /**
   * `ResourceArg::named_resource`: split at the first '/'; the type part is
   * resolved whole (it is not split on ','), and the name is the rest, which
   * may itself contain '/' or be empty.
   */
  function NamedArg(text: string, k: Kubeapi.Kubeapi, syntax: GvSyntax): (r: Result<ResourceArg, InvalidResourceSpec>)
    ensures '/' !in text ==> r.Err?
    ensures r.Ok? ==> r.value.TypeAndName?
  {
    match SplitOnce(text, '/')
    case None => Err(InvalidResourceSpec)
    case Some((resource, name)) =>
      match WithCache(resource, k, syntax)
      case None => Err(InvalidResourceSpec)
      case Some(res) => Ok(TypeAndName(WithResource(res, name)))
  }

  /** What a `type/name` token resolves to, when its type part resolves. */
  lemma NamedArgSplits(typ: string, name: string, k: Kubeapi.Kubeapi, syntax: GvSyntax)
    requires '/' !in typ
    ensures NamedArg(typ + "/" + name, k, syntax).Ok? <==> WithCache(typ, k, syntax).Some?
    ensures WithCache(typ, k, syntax).Some? ==>
              NamedArg(typ + "/" + name, k, syntax) == Ok(TypeAndName(NamedResource(WithCache(typ, k, syntax).value, name)))
  {
    assert typ + "/" + name == typ + ['/'] + name;
    SplitOnceUnique(typ, name, '/');
  }

  /** A built-in kind's display form resolves back to the same reference. */
  lemma NamedDisplayRoundTrip(nr: NamedResource, k: Kubeapi.Kubeapi, syntax: GvSyntax)
    requires !nr.resource.Other?
    ensures NamedArg(NamedDisplay(nr), k, syntax) == Ok(TypeAndName(nr))
  {
    DisplayIsAlias(nr.resource);
    NamedArgSplits(Display(nr.resource), nr.name, k, syntax);
  }

  /** Each piece of a comma-separated type list, resolved. */
  function ResolvePiece(k: Kubeapi.Kubeapi, syntax: GvSyntax): string -> Result<Resource, InvalidResourceSpec> {
    piece => match WithCache(piece, k, syntax)
             case None => Err(InvalidResourceSpec)
             case Some(r) => Ok(r)
  }

  function NamedArgOf(k: Kubeapi.Kubeapi, syntax: GvSyntax): string -> Result<ResourceArg, InvalidResourceSpec> {
    text => NamedArg(text, k, syntax)
  }

  /** Every type paired with every name, the types as the outer loop. */
  function Product(resources: seq<Resource>, names: seq<string>): (r: seq<ResourceArg>)
    ensures |r| == |resources| * |names|
  {
    if resources == [] then []
    else
      var row := seq(|names|, j requires 0 <= j < |names| => TypeAndName(WithResource(resources[0], names[j])));
      var rest := Product(resources[1..], names);
      MulSucc(|resources| - 1, |names|);
      row + rest
  }

  lemma MulSucc(n: nat, m: nat)
    ensures (n + 1) * m == m + n * m
  {
  }

  lemma MulIndexBound(i: nat, j: nat, n: nat, m: nat)
    requires i < n && j < m
    ensures i * m + j < n * m
  {
    MulSucc(i, m);
    var d := n - (i + 1);
    assert n * m == (i + 1) * m + d * m;
  }

  /** Entry `i * |names| + j` pairs type `i` with name `j`. */
  lemma {:induction false} ProductAt(resources: seq<Resource>, names: seq<string>, i: nat, j: nat)
    requires i < |resources| && j < |names|
    ensures i * |names| + j < |Product(resources, names)|
    ensures Product(resources, names)[i * |names| + j] == TypeAndName(NamedResource(resources[i], names[j]))
  {
    var m := |names|;
    MulIndexBound(i, j, |resources|, m);
    if i > 0 {
      ProductAt(resources[1..], names, i - 1, j);
      MulSucc(i - 1, m);
      assert resources[1..][i - 1] == resources[i];
    }
  }

  /** Some token has the `type/name` shape. */
  predicate AnyNamed(tokens: seq<string>) {
    exists i :: 0 <= i < |tokens| && '/' in tokens[i]
  }

  /** Each comma-separated piece of a type list, resolved; the first failure ends it. */
  function TypeList(token: string, k: Kubeapi.Kubeapi, syntax: GvSyntax): Result<seq<Resource>, InvalidResourceSpec> {
    TryCollect(Split(token, ','), ResolvePiece(k, syntax))
  }

  /** A type-only reference per resolved type, in order. */
  function TypesOnly(resources: seq<Resource>): (r: seq<ResourceArg>)
    ensures |r| == |resources| && forall i :: 0 <= i < |resources| ==> r[i] == TypeOnly(resources[i])
  {
    seq(|resources|, i requires 0 <= i < |resources| => TypeOnly(resources[i]))
  }

  /**
   * `ResourceArg::from_strings`. If any token contains '/', every token must be
   * `type/name`. Otherwise the first token is a comma-separated list of types,
   * all of which must resolve, and the remaining tokens are names.
   */
  function FromStrings(tokens: seq<string>, k: Kubeapi.Kubeapi, syntax: GvSyntax): (r: Result<seq<ResourceArg>, InvalidResourceSpec>)
    ensures tokens == [] ==> r.Err?
  {
    if AnyNamed(tokens) then TryCollect(tokens, NamedArgOf(k, syntax))
    else if tokens == [] then Err(InvalidResourceSpec)
    else
      match TypeList(tokens[0], k, syntax)
      case Err(e) => Err(e)
      case Ok(resources) =>
        if |tokens| == 1 then Ok(TypesOnly(resources)) else Ok(Product(resources, tokens[1..]))
  }

  /** One bare token next to a `type/name` token makes the whole call fail. */
  lemma MixedShapesFail(tokens: seq<string>, k: Kubeapi.Kubeapi, syntax: GvSyntax, i: nat, j: nat)
    requires i < |tokens| && j < |tokens| && '/' in tokens[i] && '/' !in tokens[j]
    ensures FromStrings(tokens, k, syntax).Err?
  {
    assert NamedArgOf(k, syntax)(tokens[j]).Err?;
  }

  /** In the `type/name` shape every token becomes one reference, in order. */
  lemma FromStringsNamedShape(tokens: seq<string>, k: Kubeapi.Kubeapi, syntax: GvSyntax, i: nat)
    requires i < |tokens| && '/' in tokens[i]
    ensures FromStrings(tokens, k, syntax).Ok? <==> forall j :: 0 <= j < |tokens| ==> NamedArg(tokens[j], k, syntax).Ok?
    ensures FromStrings(tokens, k, syntax).Ok? ==>
              |FromStrings(tokens, k, syntax).value| == |tokens|
              && forall j :: 0 <= j < |tokens| ==> FromStrings(tokens, k, syntax).value[j] == NamedArg(tokens[j], k, syntax).value
  {
  }

  /**
   * With a single token and no '/', the result is one type-only reference per
   * comma-separated piece, in order, or an error if any piece fails.
   */
  lemma FromStringsTypesOnly(token: string, k: Kubeapi.Kubeapi, syntax: GvSyntax)
    requires '/' !in token
    ensures var pieces := Split(token, ',');
            var r := FromStrings([token], k, syntax);
            (r.Ok? <==> forall p :: 0 <= p < |pieces| ==> WithCache(pieces[p], k, syntax).Some?)
            && (r.Ok? ==> |r.value| == |pieces|
                          && forall p :: 0 <= p < |pieces| ==> r.value[p] == TypeOnly(WithCache(pieces[p], k, syntax).value))
  {
    var pieces := Split(token, ',');
    var resolve := ResolvePiece(k, syntax);
    assert !AnyNamed([token]);
    var types := TypeList(token, k, syntax);
    var r := FromStrings([token], k, syntax);
    assert forall p :: 0 <= p < |pieces| ==> (resolve(pieces[p]).Ok? <==> WithCache(pieces[p], k, syntax).Some?);
    assert types.Ok? <==> forall p :: 0 <= p < |pieces| ==> resolve(pieces[p]).Ok?;
    if types.Ok? {
      assert r == Ok(TypesOnly(types.value));
      forall p | 0 <= p < |pieces| ensures r.value[p] == TypeOnly(WithCache(pieces[p], k, syntax).value) {
        assert types.value[p] == resolve(pieces[p]).value;
      }
    } else {
      assert r == Err(types.error);
      var p :| 0 <= p < |pieces| && !resolve(pieces[p]).Ok?;
      assert WithCache(pieces[p], k, syntax).None?;
      assert !r.Ok?;
      assert !(forall p :: 0 <= p < |pieces| ==> WithCache(pieces[p], k, syntax).Some?);
      assert pieces == Split(token, ',');
    }
  }

  /**
   * With names after the type list, the result pairs every type with every
   * name, types outermost: N types and M names give N * M references.
   */
  lemma FromStringsTypesAndNames(tokens: seq<string>, k: Kubeapi.Kubeapi, syntax: GvSyntax, i: nat, j: nat)
    requires |tokens| >= 2 && !AnyNamed(tokens)
    requires FromStrings(tokens, k, syntax).Ok?
    requires i < |Split(tokens[0], ',')| && j < |tokens| - 1
    ensures var pieces := Split(tokens[0], ',');
            var names := tokens[1..];
            var r := FromStrings(tokens, k, syntax).value;
            |r| == |pieces| * |names|
            && WithCache(pieces[i], k, syntax).Some?
            && Cell(i, j, |names|) < |r|
            && r[Cell(i, j, |names|)] == TypeAndName(NamedResource(WithCache(pieces[i], k, syntax).value, names[j]))
  {
    var pieces := Split(tokens[0], ',');
    var names := tokens[1..];
    TypesAndNamesIsProduct(tokens, k, syntax);
    var types := TypeList(tokens[0], k, syntax).value;
    var r := FromStrings(tokens, k, syntax).value;
    assert r == Product(types, names);
    TypeListAt(tokens[0], k, syntax, i);
    assert |types| == |pieces|;
    assert |r| == |pieces| * |names|;
    ProductAt(types, names, i, j);
  }

  /** The position of name `j` of type `i` in a product with `m` names per type. */
  function Cell(i: nat, j: nat, m: nat): nat {
    i * m + j
  }

  /** In the types-and-names shape the result is the product of the resolved types with the names. */
  lemma TypesAndNamesIsProduct(tokens: seq<string>, k: Kubeapi.Kubeapi, syntax: GvSyntax)
    requires |tokens| >= 2 && !AnyNamed(tokens)
    requires FromStrings(tokens, k, syntax).Ok?
    ensures TypeList(tokens[0], k, syntax).Ok?
    ensures FromStrings(tokens, k, syntax) == Ok(Product(TypeList(tokens[0], k, syntax).value, tokens[1..]))
  {
  }

  /** Piece `i` of a resolved type list resolves on its own, to the type at `i`. */
  lemma TypeListAt(token: string, k: Kubeapi.Kubeapi, syntax: GvSyntax, i: nat)
    requires TypeList(token, k, syntax).Ok? && i < |Split(token, ',')|
    ensures |TypeList(token, k, syntax).value| == |Split(token, ',')|
    ensures WithCache(Split(token, ',')[i], k, syntax) == Some(TypeList(token, k, syntax).value[i])
  {
    var resolve := ResolvePiece(k, syntax);
    var piece := Split(token, ',')[i];
    assert resolve(piece).Ok?;
  }

  /** A token without ',' is a one-piece type list. */
  lemma SplitSingle(token: string)
    requires ',' !in token
    ensures Split(token, ',') == [token]
  {
    SplitJoin([token], ',');
  }

  // The repository's own examples, with any cache and any client.

  /** `one_resource`: "pod" gives one type-only reference to pods. */
  lemma OneResource(k: Kubeapi.Kubeapi, syntax: GvSyntax)
    ensures FromStrings(["pod"], k, syntax) == Ok([TypeOnly(Pods)])
  {
    SplitSingle("pod");
    FromStringsTypesOnly("pod", k, syntax);
    assert WithCache("pod", k, syntax) == Some(Pods);
    var r := FromStrings(["pod"], k, syntax);
    assert r.Ok? && |r.value| == 1 && r.value[0] == TypeOnly(Pods);
    assert r.value == [TypeOnly(Pods)];
  }

  /** `many_resources`: "pod,node" gives pods then nodes. */
  lemma ManyResources(k: Kubeapi.Kubeapi, syntax: GvSyntax)
    ensures FromStrings(["pod,node"], k, syntax) == Ok([TypeOnly(Pods), TypeOnly(Nodes)])
  {
    assert "pod,node" == "pod" + [','] + "node";
    TwoTypes("pod", "node", k, syntax);
  }

  /** A two-type list `a,b` whose types both resolve gives the two, in order. */
  lemma TwoTypes(a: string, b: string, k: Kubeapi.Kubeapi, syntax: GvSyntax)
    requires ',' !in a && ',' !in b && '/' !in a && '/' !in b
    requires WithCache(a, k, syntax).Some? && WithCache(b, k, syntax).Some?
    ensures FromStrings([a + [','] + b], k, syntax)
            == Ok([TypeOnly(WithCache(a, k, syntax).value), TypeOnly(WithCache(b, k, syntax).value)])
  {
    var token := a + [','] + b;
    SplitPair(a, b);
    FromStringsTypesOnly(token, k, syntax);
    var r := FromStrings([token], k, syntax);
    assert r.Ok? && |r.value| == 2;
    assert r.value == [TypeOnly(WithCache(a, k, syntax).value), TypeOnly(WithCache(b, k, syntax).value)];
  }

  /** Two comma-free pieces joined by ',' split back into the two. */
  lemma SplitPair(a: string, b: string)
    requires ',' !in a && ',' !in b
    ensures Split(a + [','] + b, ',') == [a, b]
  {
    assert Join([a, b], [',']) == a + [','] + b by {
      assert [a, b][1..] == [b];
    }
    SplitJoin([a, b], ',');
  }

  /** `resource_and_many_name`: "pod bazooka darbooka" gives two named pods, in name order. */
  lemma ResourceAndManyNames(k: Kubeapi.Kubeapi, syntax: GvSyntax)
    ensures FromStrings(["pod", "bazooka", "darbooka"], k, syntax)
            == Ok([TypeAndName(NamedResource(Pods, "bazooka")), TypeAndName(NamedResource(Pods, "darbooka"))])
  {
    var tokens := ["pod", "bazooka", "darbooka"];
    SplitSingle("pod");
    assert !AnyNamed(tokens) by {
      forall t | 0 <= t < |tokens| ensures '/' !in tokens[t] {
        if t == 0 {} else if t == 1 {} else {}
      }
    }
    assert WithCache("pod", k, syntax) == Some(Pods);
    assert ResolvePiece(k, syntax)("pod") == Ok(Pods);
    var types := TypeList("pod", k, syntax);
    assert types.Ok? && |types.value| == 1 && types.value[0] == Pods;
    assert types.value == [Pods];
    var names := tokens[1..];
    assert FromStrings(tokens, k, syntax) == Ok(Product([Pods], names));
    ProductAt([Pods], names, 0, 0);
    ProductAt([Pods], names, 0, 1);
    assert |Product([Pods], names)| == 2;
    assert Product([Pods], names) == [TypeAndName(NamedResource(Pods, "bazooka")), TypeAndName(NamedResource(Pods, "darbooka"))];
  }

  /** `many_named_resources`: "pod/bazooka node/elephant" keeps token order. */
  lemma ManyNamedResources(k: Kubeapi.Kubeapi, syntax: GvSyntax)
    ensures FromStrings(["pod/bazooka", "node/elephant"], k, syntax)
            == Ok([TypeAndName(NamedResource(Pods, "bazooka")), TypeAndName(NamedResource(Nodes, "elephant"))])
  {
    assert "pod/bazooka" == "pod" + "/" + "bazooka" && "node/elephant" == "node" + "/" + "elephant";
    TwoNamed("pod", "bazooka", "node", "elephant", k, syntax);
  }

  /** Two `type/name` tokens whose types resolve give the two references, in order. */
  lemma TwoNamed(t1: string, n1: string, t2: string, n2: string, k: Kubeapi.Kubeapi, syntax: GvSyntax)
    requires '/' !in t1 && '/' !in t2
    requires WithCache(t1, k, syntax).Some? && WithCache(t2, k, syntax).Some?
    ensures FromStrings([t1 + "/" + n1, t2 + "/" + n2], k, syntax)
            == Ok([TypeAndName(NamedResource(WithCache(t1, k, syntax).value, n1)),
                   TypeAndName(NamedResource(WithCache(t2, k, syntax).value, n2))])
  {
    var tokens := [t1 + "/" + n1, t2 + "/" + n2];
    NamedArgSplits(t1, n1, k, syntax);
    NamedArgSplits(t2, n2, k, syntax);
    assert '/' in tokens[0] by { assert tokens[0][|t1|] == '/'; }
    FromStringsNamedShape(tokens, k, syntax, 0);
    var r := FromStrings(tokens, k, syntax);
    assert r.Ok? && |r.value| == 2;
    assert r.value == [TypeAndName(NamedResource(WithCache(t1, k, syntax).value, n1)),
                       TypeAndName(NamedResource(WithCache(t2, k, syntax).value, n2))];
  }

  /** `invalid_mix`: "pod/bazooka node" is rejected. */
  lemma InvalidMix(k: Kubeapi.Kubeapi, syntax: GvSyntax)
    ensures FromStrings(["pod/bazooka", "node"], k, syntax).Err?
  {
    MixedShapesFail(["pod/bazooka", "node"], k, syntax, 0, 1);
  }

  /** The name after the first '/' is taken whole: it may be empty or hold further '/'. */
  lemma NamesAreNotChecked(k: Kubeapi.Kubeapi, syntax: GvSyntax)
    ensures NamedArg("pod/", k, syntax) == Ok(TypeAndName(NamedResource(Pods, "")))
    ensures NamedArg("pod/a/b", k, syntax) == Ok(TypeAndName(NamedResource(Pods, "a/b")))
  {
    NamedArgSplits("pod", "", k, syntax);
    NamedArgSplits("pod", "a/b", k, syntax);
    assert "pod/" == "pod" + "/" + "";
    assert "pod/a/b" == "pod" + "/" + "a/b";
  }
}
