/**
 * `Kubeapi`: the client handle every command uses. It holds the cluster
 * configuration, the kubeconfig, the discovery cache loaded at start-up and the
 * namespace selection, and answers discovery questions cache-first, asking the
 * server only when the cache holds nothing.
 */
module Kubeapi {
  import opened Wrappers
  import opened Strings
  import opened Faults
  import opened Discovery
  import opened Namespaces
  import DiscoveryCache
  import OrderedMaps
  import Kubeconfigs
  import KubeOptions
  import opened Fallible

  /**
   * The discovery calls of a live `kube::Client`. Each answer is a parameter:
   * the network is not modelled, and the calls have no effect on each other.
   */
  datatype DiscoveryClient = DiscoveryClient(
    listCoreApiVersions: Result<APIVersions, KubeError>,
    listCoreApiResources: string -> Result<APIResourceList, KubeError>,
    listApiGroups: Result<APIGroupList, KubeError>,
    listApiGroupResources: string -> Result<APIResourceList, KubeError>)

  /** `kube::Config`: the cluster URL's host, and what `Client::try_from` makes of the configuration. */
  datatype Config = Config(clusterHost: Option<string>, client: Result<DiscoveryClient, KubeError>)

  datatype Kubeapi = Kubeapi(
    config: Config,
    kubeconfig: Kubeconfigs.Kubeconfig,
    cache: DiscoveryCache.Cache,
    namespace: Namespace,
    debug: bool,
    options: KubeOptions.KubeapiOptions)

  /** `client()` */
  function Client(k: Kubeapi): Result<DiscoveryClient, KubeError> {
    k.config.client
  }

  /** `with_namespace`: a handle that differs only in its namespace. */
  function WithNamespace(k: Kubeapi, ns: Namespace): (r: Kubeapi)
    ensures r.namespace == ns
    ensures r.(namespace := k.namespace) == k
  {
    k.(namespace := ns)
  }

  /** `show_namespace`: the NAMESPACE column is wanted only when every namespace is listed. */
  function ShowNamespace(k: Kubeapi): (r: bool)
    ensures r <==> k.namespace == All
  {
    k.namespace.All?
  }

  /** `cached_server_api_resources`: the cached lists, or none at all. */
  function CachedServerApiResources(k: Kubeapi): (r: seq<APIResourceList>)
    ensures k.cache.resources == [] ==> r == []
    ensures |r| == |k.cache.resources|
    ensures r == OrderedMaps.Values(k.cache.resources)
  {
    DiscoveryCache.ApiResources(k.cache).UnwrapOr([])
  }

  /** Where a typed or dynamic API handle sends its requests. */
  datatype ApiTarget = AllNamespaces | DefaultNamespace | InNamespace(ns: string)

  /** The namespaced routing of `namespaced_api` and of `dynamic_object_api`. */
  function NamespacedTarget(ns: Namespace): (t: ApiTarget)
    ensures ns == All ==> t == AllNamespaces
    ensures ns == Default ==> t == DefaultNamespace
    ensures ns.Named? ==> t == InNamespace(ns.name)
  {
    match ns
    case All => AllNamespaces
    case Default => DefaultNamespace
    case Named(n) => InNamespace(n)
  }

  /** The kinds with a typed accessor in `apis.rs`. */
  datatype TypedKind =
    | Namespaces | Pods | ConfigMaps | Secrets | ComponentStatuses | Nodes
    | ClusterRoles | ClusterRoleBindings
    | SelfSubjectAccessReviews | SelfSubjectRulesReviews | SelfSubjectReviews

  /** The accessors built with `cluster_api`; the others use `namespaced_api`. */
  predicate UsesClusterApi(kind: TypedKind) {
    !(kind.Pods? || kind.ConfigMaps? || kind.Secrets?)
  }

  datatype TypedApi = TypedApi(kind: TypedKind, target: ApiTarget)

  /**
   * The typed accessors (`pods()`, `nodes()`, …): a failing client is passed
   * on; a cluster-wide kind always targets every namespace; a namespaced kind
   * follows the namespace selection.
   */
  function Api(k: Kubeapi, kind: TypedKind): (r: Result<TypedApi, KubeError>)
    ensures Client(k).Err? ==> r == Err(Client(k).error)
    ensures Client(k).Ok? ==> r.Ok? && r.value.kind == kind
    ensures r.Ok? && UsesClusterApi(kind) ==> r.value.target == AllNamespaces
    ensures r.Ok? && !UsesClusterApi(kind) ==> r.value.target == NamespacedTarget(k.namespace)
  {
    match Client(k)
    case Err(e) => Err(e)
    case Ok(_) => Ok(TypedApi(kind, if UsesClusterApi(kind) then AllNamespaces else NamespacedTarget(k.namespace)))
  }

  datatype DynamicApi = DynamicApi(resource: ApiResource, target: ApiTarget)

  /**
   * `dynamic_object_api(scope, dyntype)`: a cluster-scoped type targets every
   * namespace; a namespaced one follows the namespace selection.
   */
  function DynamicObjectApi(k: Kubeapi, scope: Scope, dyntype: ApiResource): (r: Result<DynamicApi, KubeError>)
    ensures Client(k).Err? ==> r == Err(Client(k).error)
    ensures Client(k).Ok? ==> r.Ok? && r.value.resource == dyntype
    ensures r.Ok? && scope == Cluster ==> r.value.target == AllNamespaces
    ensures r.Ok? && scope == Namespaced ==> r.value.target == NamespacedTarget(k.namespace)
  {
    match Client(k)
    case Err(e) => Err(e)
    case Ok(_) =>
      var target := match scope
        case Cluster => AllNamespaces
        case Namespaced => NamespacedTarget(k.namespace);
      Ok(DynamicApi(dyntype, target))
  }

  /** `full_name`: the lower-cased kind, a '/', and the object's name. */
  function FullName(kind: string, name: string): (r: string)
    ensures |r| == |kind| + 1 + |name|
  {
    ToLower(kind) + "/" + name
  }

  /** A full name splits back, at its first '/', into the lower-cased kind and the name. */
  lemma FullNameSplits(kind: string, name: string)
    requires '/' !in kind
    ensures SplitOnce(FullName(kind, name), '/') == Some((ToLower(kind), name))
  {
    var lower := ToLower(kind);
    assert '/' !in lower by {
      forall i | 0 <= i < |lower| ensures lower[i] != '/' {
        assert kind[i] != '/';
      }
    }
    assert FullName(kind, name) == lower + ['/'] + name;
    SplitOnceUnique(lower, name, '/');
  }

  // ---------------------------------------------------------------------------
  // Discovery, cache first (server.rs)
  // ---------------------------------------------------------------------------

  /** `ApiGroup::CORE_GROUP`, the core group's empty name. */
  const CoreGroup: string := ""

  /** A group that names a version to fetch: a preferred one or at least one listed. */
  predicate HasVersion(g: APIGroup) {
    g.preferredVersion.Some? || g.versions != []
  }

  function PreferredOrFirst(g: APIGroup): string
    requires HasVersion(g)
  {
    if g.preferredVersion.Some? then g.preferredVersion.value.groupVersion else g.versions[0].groupVersion
  }

  /** Each group's preferred version, else its first; a group with neither is skipped. */
  function ChosenVersions(groups: seq<APIGroup>): (r: seq<string>)
    ensures |r| <= |groups|
    ensures (forall g :: 0 <= g < |groups| ==> HasVersion(groups[g])) ==> |r| == |groups|
    ensures (forall g :: 0 <= g < |groups| ==> HasVersion(groups[g])) ==>
              forall i :: 0 <= i < |groups| ==> r[i] == PreferredOrFirst(groups[i])
    ensures forall v :: v in r <==> exists g :: 0 <= g < |groups| && HasVersion(groups[g]) && v == PreferredOrFirst(groups[g])
  {
    if groups == [] then []
    else
      var g := groups[0];
      var rest := ChosenVersions(groups[1..]);
      assert forall j :: 1 <= j < |groups| ==> groups[j] == groups[1..][j - 1];
      match g.preferredVersion
      case Some(v) => [v.groupVersion] + rest
      case None => if g.versions != [] then [g.versions[0].groupVersion] + rest else rest
  }

  /** One group yields its chosen version when it has one, and nothing otherwise. */
  lemma ChosenVersionsOne(group: APIGroup)
    ensures ChosenVersions([group]) == if HasVersion(group) then [PreferredOrFirst(group)] else []
  {
    assert [group][1..] == [];
  }

  /** The groups keep their order: the chosen versions of two runs of groups are concatenated. */
  lemma {:induction false} ChosenVersionsAppend(a: seq<APIGroup>, b: seq<APIGroup>)
    decreases |a|
    ensures ChosenVersions(a + b) == ChosenVersions(a) + ChosenVersions(b)
  {
    if a == [] {
      assert a + b == b;
    } else {
      assert (a + b)[0] == a[0];
      assert (a + b)[1..] == a[1..] + b;
      ChosenVersionsAppend(a[1..], b);
    }
  }

  /**
   * `get_server_api_resources` as a value: the core lists, one per core
   * version, then one list per group at its chosen version.
   */
  function LiveApiResources(k: Kubeapi): (r: Result<seq<APIResourceList>, KubeError>)
    ensures Client(k).Err? ==> r == Err(Client(k).error)
  {
    match Client(k)
    case Err(e) => Err(e)
    case Ok(client) =>
      match client.listCoreApiVersions
      case Err(e) => Err(e)
      case Ok(core) =>
        match TryCollect(core.versions, client.listCoreApiResources)
        case Err(e) => Err(e)
        case Ok(coreLists) =>
          match client.listApiGroups
          case Err(e) => Err(e)
          case Ok(groups) =>
            match TryCollect(ChosenVersions(groups.groups), client.listApiGroupResources)
            case Err(e) => Err(e)
            case Ok(groupLists) => Ok(coreLists + groupLists)
  }

  /**
   * On success the live answer is the core version lists, in version order,
   * followed by the group lists, in group order.
   */
  lemma LiveApiResourcesOrder(k: Kubeapi)
    requires LiveApiResources(k).Ok?
    ensures var client := Client(k).value;
            var core := client.listCoreApiVersions.value.versions;
            var chosen := ChosenVersions(client.listApiGroups.value.groups);
            var r := LiveApiResources(k).value;
            |r| == |core| + |chosen|
            && (forall i :: 0 <= i < |core| ==> Ok(r[i]) == client.listCoreApiResources(core[i]))
            && (forall i :: 0 <= i < |chosen| ==> Ok(r[|core| + i]) == client.listApiGroupResources(chosen[i]))
  {
  }

  /**
   * `get_server_api_resources`: fetch the core version lists one after the
   * other, then the list of each group's chosen version, stopping at the first
   * error.
   */
  method GetServerApiResources(k: Kubeapi) returns (r: Result<seq<APIResourceList>, KubeError>)
    ensures r == LiveApiResources(k)
  {
    if Client(k).Err? {
      return Err(Client(k).error);
    }
    var client := Client(k).value;
    if client.listCoreApiVersions.Err? {
      return Err(client.listCoreApiVersions.error);
    }
    var versions := client.listCoreApiVersions.value.versions;
    var core: seq<APIResourceList> := [];
    var i := 0;
    while i < |versions|
      invariant 0 <= i <= |versions|
      invariant TryCollect(versions[..i], client.listCoreApiResources) == Ok(core)
    {
      var answer := client.listCoreApiResources(versions[i]);
      if answer.Err? {
        TryCollectStops(versions, client.listCoreApiResources, i);
        return Err(answer.error);
      }
      TryCollectSnoc(versions, client.listCoreApiResources, i);
      core := core + [answer.value];
      i := i + 1;
    }
    assert versions[..i] == versions;
    if client.listApiGroups.Err? {
      return Err(client.listApiGroups.error);
    }
    var chosen := ChosenVersions(client.listApiGroups.value.groups);
    var groups: seq<APIResourceList> := [];
    i := 0;
    while i < |chosen|
      invariant 0 <= i <= |chosen|
      invariant TryCollect(chosen[..i], client.listApiGroupResources) == Ok(groups)
    {
      var answer := client.listApiGroupResources(chosen[i]);
      if answer.Err? {
        TryCollectStops(chosen, client.listApiGroupResources, i);
        return Err(answer.error);
      }
      TryCollectSnoc(chosen, client.listApiGroupResources, i);
      groups := groups + [answer.value];
      i := i + 1;
    }
    assert chosen[..i] == chosen;
    r := Ok(core + groups);
  }

  /**
   * `get_server_core_api_group`: the core group synthesised from the core
   * versions, each with group-version `CORE_GROUP` followed by the version, and
   * the first as preferred; no core versions means an out-of-bounds panic.
   */
  function GetServerCoreApiGroup(k: Kubeapi): (r: Result<APIGroup, Fault>)
    ensures Client(k).Err? ==> r == Err(Kube(Client(k).error))
    ensures r.Ok? ==> Client(k).Ok? && Client(k).value.listCoreApiVersions.Ok?
    ensures r.Ok? ==> var versions := Client(k).value.listCoreApiVersions.value.versions;
                      r.value.name == CoreGroup
                      && |r.value.versions| == |versions| > 0
                      && (forall i :: 0 <= i < |versions| ==>
                            r.value.versions[i] == GroupVersionForDiscovery(CoreGroup + versions[i], versions[i]))
                      && r.value.preferredVersion == Some(r.value.versions[0])
    ensures Client(k).Ok? && Client(k).value.listCoreApiVersions.Ok? ==>
              (r.Err? <==> Client(k).value.listCoreApiVersions.value.versions == [])
  {
    match Client(k)
    case Err(e) => Err(Kube(e))
    case Ok(client) =>
      match client.listCoreApiVersions
      case Err(e) => Err(Kube(e))
      case Ok(core) =>
        var versions := seq(|core.versions|, i requires 0 <= i < |core.versions| =>
                              GroupVersionForDiscovery(CoreGroup + core.versions[i], core.versions[i]));
        if versions == [] then Err(Panic("index out of bounds: versions[0]"))
        else Ok(APIGroup(CoreGroup, versions, Some(versions[0]), Some(core.serverAddressByClientCidrs)))
  }

  /** `get_server_api_groups`: the core group first, then the discovered groups. */
  function GetServerApiGroups(k: Kubeapi): (r: Result<APIGroupList, Fault>)
    ensures Client(k).Err? ==> r == Err(Kube(Client(k).error))
    ensures r.Ok? ==> GetServerCoreApiGroup(k).Ok? && Client(k).value.listApiGroups.Ok?
                      && r.value.groups == [GetServerCoreApiGroup(k).value] + Client(k).value.listApiGroups.value.groups
  {
    match Client(k)
    case Err(e) => Err(Kube(e))
    case Ok(client) =>
      match GetServerCoreApiGroup(k)
      case Err(f) => Err(f)
      case Ok(core) =>
        match client.listApiGroups
        case Err(e) => Err(Kube(e))
        case Ok(groups) => Ok(groups.(groups := [core] + groups.groups))
  }

  /** `server_api_groups`: the cached group list when there is one, the server's otherwise. */
  function ServerApiGroups(k: Kubeapi): (r: Result<APIGroupList, Fault>)
    ensures k.cache.groups.Some? ==> r == Ok(k.cache.groups.value)
    ensures k.cache.groups.None? ==> r == GetServerApiGroups(k)
  {
    match DiscoveryCache.ApiGroups(k.cache)
    case Some(groups) => Ok(groups)
    case None => GetServerApiGroups(k)
  }

  /** `server_api_resources`: the cached lists when there are any, the server's otherwise. */
  function ServerApiResources(k: Kubeapi): (r: Result<seq<APIResourceList>, KubeError>)
    ensures k.cache.resources != [] ==> r == Ok(CachedServerApiResources(k))
    ensures k.cache.resources == [] ==> r == LiveApiResources(k)
  {
    match DiscoveryCache.ApiResources(k.cache)
    case Some(resources) => Ok(resources)
    case None => LiveApiResources(k)
  }

  /** Each group's preferred version, else its first; a group with neither panics in `remove(0)`. */
  function PreferredVersions(groups: seq<APIGroup>): (r: Result<set<string>, Fault>)
    ensures r.Err? <==> exists g :: 0 <= g < |groups| && !HasVersion(groups[g])
    ensures r.Ok? ==> forall gv :: gv in r.value <==> exists g :: 0 <= g < |groups| && gv == PreferredOrFirst(groups[g])
  {
    if groups == [] then Ok({})
    else
      var g := groups[0];
      if !HasVersion(g) then Err(Panic("remove index (is 0) should be < len (is 0)"))
      else
        match PreferredVersions(groups[1..])
        case Err(f) =>
          assert exists j :: 1 <= j < |groups| && !HasVersion(groups[j]) by {
            var j :| 0 <= j < |groups| - 1 && !HasVersion(groups[1..][j]);
            assert groups[j + 1] == groups[1..][j];
          }
          Err(f)
        case Ok(rest) =>
          assert forall j :: 1 <= j < |groups| ==> groups[j] == groups[1..][j - 1];
          Ok({PreferredOrFirst(g)} + rest)
  }

  /** The lists whose group-version is among the preferred ones, in their original order. */
  function FilterPreferred(lists: seq<APIResourceList>, preferred: set<string>): (r: seq<APIResourceList>)
    ensures |r| <= |lists|
    ensures forall arl :: arl in r <==> arl in lists && arl.groupVersion in preferred
  {
    if lists == [] then []
    else
      var rest := FilterPreferred(lists[1..], preferred);
      assert forall arl :: arl in lists <==> arl == lists[0] || arl in lists[1..];
      if lists[0].groupVersion in preferred then [lists[0]] + rest else rest
  }

  /** The filter keeps the original order: filtering a concatenation concatenates the filtered parts. */
  lemma {:induction false} FilterPreferredAppend(a: seq<APIResourceList>, b: seq<APIResourceList>, preferred: set<string>)
    ensures FilterPreferred(a + b, preferred) == FilterPreferred(a, preferred) + FilterPreferred(b, preferred)
  {
    if a == [] {
      assert a + b == b;
    } else {
      assert (a + b)[0] == a[0] && (a + b)[1..] == a[1..] + b;
      FilterPreferredAppend(a[1..], b, preferred);
      var rest := FilterPreferred(a[1..], preferred) + FilterPreferred(b, preferred);
      if a[0].groupVersion in preferred {
        assert FilterPreferred(a + b, preferred) == [a[0]] + rest;
        assert FilterPreferred(a, preferred) == [a[0]] + FilterPreferred(a[1..], preferred);
      } else {
        assert FilterPreferred(a + b, preferred) == rest;
      }
    }
  }

  /** A list at a preferred group-version is kept where it stands; any other is dropped. */
  lemma FilterPreferredOne(arl: APIResourceList, preferred: set<string>)
    ensures FilterPreferred([arl], preferred) == if arl.groupVersion in preferred then [arl] else []
  {
    assert [arl][1..] == [];
  }

  /**
   * `server_preferred_resources`: the group list first, the preferred
   * group-versions from it, then the resource lists, keeping those at a
   * preferred group-version.
   */
  function ServerPreferredResources(k: Kubeapi): (r: Result<seq<APIResourceList>, Fault>)
    ensures ServerApiGroups(k).Err? ==> r == Err(ServerApiGroups(k).error)
    ensures r.Ok? ==> ServerApiGroups(k).Ok? && ServerApiResources(k).Ok?
                      && PreferredVersions(ServerApiGroups(k).value.groups).Ok?
                      && forall arl :: arl in r.value <==>
                           arl in ServerApiResources(k).value
                           && arl.groupVersion in PreferredVersions(ServerApiGroups(k).value.groups).value
  {
    match ServerApiGroups(k)
    case Err(f) => Err(f)
    case Ok(ag) =>
      match PreferredVersions(ag.groups)
      case Err(f) => Err(f)
      case Ok(preferred) =>
        match ServerApiResources(k)
        case Err(e) => Err(Kube(e))
        case Ok(resources) => Ok(FilterPreferred(resources, preferred))
  }

  /** `api_versions` */
  function ApiVersions(k: Kubeapi): (r: Result<seq<GroupVersionForDiscovery>, Fault>)
    ensures r.Ok? <==> ServerApiGroups(k).Ok?
    ensures r.Ok? ==> r.value == DiscoveryCache.AllVersions(ServerApiGroups(k).value.groups)
    ensures r.Ok? ==> var groups := ServerApiGroups(k).value.groups;
                      forall v :: v in r.value <==> exists g :: 0 <= g < |groups| && v in groups[g].versions
  {
    match ServerApiGroups(k)
    case Err(f) => Err(f)
    case Ok(ag) =>
      Ok(DiscoveryCache.AllVersions(ag.groups))
  }
}
