/**
 * The discovery documents the API server publishes (`APIResourceList`,
 * `APIGroupList`, `APIVersions`) and the lookup of a resource type by name in
 * them (the `APIResourceExt` and `APIResourceListExt` extension traits).
 */
module Discovery {
  import opened Wrappers

  datatype APIResource = APIResource(
    name: string,
    singularName: string,
    namespaced: bool,
    group: Option<string>,
    version: Option<string>,
    kind: string,
    verbs: seq<string>,
    shortNames: Option<seq<string>>,
    categories: Option<seq<string>>)

  datatype APIResourceList = APIResourceList(groupVersion: string, resources: seq<APIResource>)

  datatype GroupVersionForDiscovery = GroupVersionForDiscovery(groupVersion: string, version: string)

  datatype ServerAddressByClientCIDR = ServerAddressByClientCIDR(clientCidr: string, serverAddress: string)

  datatype APIGroup = APIGroup(
    name: string,
    versions: seq<GroupVersionForDiscovery>,
    preferredVersion: Option<GroupVersionForDiscovery>,
    serverAddressByClientCidrs: Option<seq<ServerAddressByClientCIDR>>)

  datatype APIGroupList = APIGroupList(groups: seq<APIGroup>)

  /** The core group's discovery document: bare versions such as "v1". */
  datatype APIVersions = APIVersions(versions: seq<string>, serverAddressByClientCidrs: seq<ServerAddressByClientCIDR>)

  /** kube's parsed `GroupVersion`. */
  datatype GroupVersion = GroupVersion(group: string, version: string)

  /**
   * kube's text form of a group-version: `parse` is `str::parse::<GroupVersion>`
   * and `apiVersion` is `GroupVersion::api_version`. Both live in the kube
   * crate and are parameters here.
   */
  datatype GvSyntax = GvSyntax(parse: string -> Option<GroupVersion>, apiVersion: GroupVersion -> string)

  datatype Scope = Cluster | Namespaced

  /** kube's dynamic type descriptor `api::ApiResource`. */
  datatype ApiResource = ApiResource(group: string, version: string, apiVersion: string, kind: string, plural: string)

  /** A name designates an entry when it is its plural, its singular or one of its short names. */
  predicate MatchesName(ar: APIResource, name: string) {
    ar.name == name || ar.singularName == name || name in ar.shortNames.UnwrapOr([])
  }

  /** `find`: the first entry, in list order, that the name designates. */
  function Find(resources: seq<APIResource>, name: string): (r: Option<APIResource>)
    ensures r.None? <==> forall i :: 0 <= i < |resources| ==> !MatchesName(resources[i], name)
    ensures r.Some? ==> exists i :: 0 <= i < |resources| && resources[i] == r.value && MatchesName(r.value, name)
                                  && forall j :: 0 <= j < i ==> !MatchesName(resources[j], name)
  {
    if resources == [] then None
    else if MatchesName(resources[0], name) then Some(resources[0])
    else
      var r := Find(resources[1..], name);
      assert r.Some? ==> exists i :: 1 <= i < |resources| && resources[i] == r.value
                          && forall j :: 0 <= j < i ==> !MatchesName(resources[j], name) by {
        if r.Some? {
          var k :| 0 <= k < |resources| - 1 && resources[1..][k] == r.value
                   && forall j :: 0 <= j < k ==> !MatchesName(resources[1..][j], name);
          assert forall j :: 0 <= j < k + 1 ==> !MatchesName(resources[j], name) by {
            forall j | 0 <= j < k + 1 ensures !MatchesName(resources[j], name) {
              if j > 0 { assert resources[j] == resources[1..][j - 1]; }
            }
          }
        }
      }
      r
  }

  /** The first-match index is unique, so `Find` returns exactly the entry there. */
  lemma FindAt(resources: seq<APIResource>, name: string, i: nat)
    requires i < |resources| && MatchesName(resources[i], name)
    requires forall j :: 0 <= j < i ==> !MatchesName(resources[j], name)
    ensures Find(resources, name) == Some(resources[i])
  {
    var r := Find(resources, name);
    var k :| 0 <= k < |resources| && resources[k] == r.value && MatchesName(r.value, name)
             && forall j :: 0 <= j < k ==> !MatchesName(resources[j], name);
    assert !(k < i) && !(i < k);
  }

  /** The scope an entry declares. */
  function ScopeOf(ar: APIResource): (s: Scope)
    ensures s == Namespaced <==> ar.namespaced
  {
    if ar.namespaced then Namespaced else Cluster
  }

  /**
   * `APIResourceExt::kube_api_resource`: group and version from the entry when
   * it carries them, else from the list's group-version; `api_version` from the
   * list's group-version; kind copied; plural is the entry's name.
   */
  function ToApiResource(ar: APIResource, gv: GroupVersion, syntax: GvSyntax): ApiResource {
    ApiResource(ar.group.UnwrapOr(gv.group), ar.version.UnwrapOr(gv.version), syntax.apiVersion(gv), ar.kind, ar.name)
  }

  /**
   * `APIResourceListExt::kube_api_resource`: parse the list's group-version
   * first, then convert the first entry the name designates, with the scope it
   * declares.
   */
  function ListApiResource(list: APIResourceList, name: string, syntax: GvSyntax): (r: Option<(Scope, ApiResource)>)
    ensures r.Some? <==> syntax.parse(list.groupVersion).Some?
                         && exists i :: 0 <= i < |list.resources| && MatchesName(list.resources[i], name)
  {
    match syntax.parse(list.groupVersion)
    case None => None
    case Some(gv) =>
      match Find(list.resources, name)
      case None => None
      case Some(ar) => Some((ScopeOf(ar), ToApiResource(ar, gv, syntax)))
  }

  /**
   * What the lookup yields when entry `i` is the first the name designates:
   * kind, plural and declared scope of that entry, the group and version it
   * carries or else the list's, and the list's api version.
   */
  lemma ListApiResourceAt(list: APIResourceList, name: string, syntax: GvSyntax, i: nat)
    requires syntax.parse(list.groupVersion).Some?
    requires i < |list.resources| && MatchesName(list.resources[i], name)
    requires forall j :: 0 <= j < i ==> !MatchesName(list.resources[j], name)
    ensures var ar := list.resources[i];
            var gv := syntax.parse(list.groupVersion).value;
            var r := ListApiResource(list, name, syntax);
            r.Some?
            && (r.value.0 == Namespaced <==> ar.namespaced)
            && r.value.1.plural == ar.name
            && r.value.1.kind == ar.kind
            && r.value.1.apiVersion == syntax.apiVersion(gv)
            && (ar.group.Some? ==> r.value.1.group == ar.group.value)
            && (ar.group.None? ==> r.value.1.group == gv.group)
            && (ar.version.Some? ==> r.value.1.version == ar.version.value)
            && (ar.version.None? ==> r.value.1.version == gv.version)
  {
    FindAt(list.resources, name, i);
  }
}
