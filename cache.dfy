/**
 * The on-disk discovery cache of `kubeapi`: a `servergroups.json` listing the
 * API groups and one `serverresources.json` per group-version, read once when
 * the client starts. Loading never fails: a file that cannot be read or parsed
 * counts as absent.
 */
module DiscoveryCache {
  import opened Wrappers
  import opened OrderedMaps
  import opened Paths
  import opened Discovery

  datatype Cache = Cache(
    groups: Option<APIGroupList>,
    resources: OrderedMap<string, APIResourceList>,
    /** How long the load took; the clock is a parameter of `TryLoad`. */
    took: nat)

  /** `Cache::default()` */
  const Empty: Cache := Cache(None, [], 0)

  /**
   * The file system as the cache sees it: `load_json` of a path, for each of the
   * two document types; `None` stands for a read or parse error.
   */
  datatype Files = Files(groups: Path -> Option<APIGroupList>, resources: Path -> Option<APIResourceList>)

  const ServerGroups: string := "servergroups.json"
  const ServerResources: string := "serverresources.json"

  /** `CachedResources::load_server_groups` reads `<dir>/servergroups.json`. */
  function GroupsPath(dir: Path): Path {
    JoinPath(dir, ServerGroups)
  }

  /** `<dir>/<group_version>/serverresources.json` */
  function ResourcesPath(dir: Path, version: GroupVersionForDiscovery): Path {
    JoinPath(JoinPath(dir, version.groupVersion), ServerResources)
  }

  /** Every version of every group, groups in order and versions in order within a group. */
  function AllVersions(groups: seq<APIGroup>): (r: seq<GroupVersionForDiscovery>)
    ensures forall g, v :: 0 <= g < |groups| && v in groups[g].versions ==> v in r
    ensures forall v :: v in r ==> exists g :: 0 <= g < |groups| && v in groups[g].versions
  {
    if groups == [] then [] else groups[0].versions + AllVersions(groups[1..])
  }

  /** A single group contributes exactly its versions, in their order. */
  lemma AllVersionsOneGroup(group: APIGroup)
    ensures AllVersions([group]) == group.versions
  {
    assert [group][1..] == [];
  }

  /** The versions of two runs of groups are those of the first run, then those of the second. */
  lemma {:induction false} AllVersionsAppend(a: seq<APIGroup>, b: seq<APIGroup>)
    decreases |a|
    ensures AllVersions(a + b) == AllVersions(a) + AllVersions(b)
  {
    if a == [] {
      assert a + b == b;
    } else {
      assert (a + b)[0] == a[0];
      assert (a + b)[1..] == a[1..] + b;
      AllVersionsAppend(a[1..], b);
    }
  }

  /** Reading the resource list of one discovered version. */
  function LoadAt(dir: Path, files: Files): GroupVersionForDiscovery -> Option<APIResourceList> {
    (v: GroupVersionForDiscovery) => files.resources(ResourcesPath(dir, v))
  }

  /** The lists that loaded, in the order they were attempted (`filter_map(… .ok())`). */
  function Loaded(load: GroupVersionForDiscovery -> Option<APIResourceList>, versions: seq<GroupVersionForDiscovery>): (r: seq<APIResourceList>)
    ensures |r| <= |versions|
  {
    if versions == [] then []
    else
      var rest := Loaded(load, versions[1..]);
      match load(versions[0])
      case None => rest
      case Some(arl) => [arl] + rest
  }

  /** A list is among those loaded exactly when loading one of the versions yields it. */
  lemma {:induction false} LoadedMembers(load: GroupVersionForDiscovery -> Option<APIResourceList>, versions: seq<GroupVersionForDiscovery>, arl: APIResourceList)
    ensures arl in Loaded(load, versions) <==> exists i :: 0 <= i < |versions| && load(versions[i]) == Some(arl)
  {
    if versions != [] {
      LoadedMembers(load, versions[1..], arl);
      if exists i :: 1 <= i < |versions| && load(versions[i]) == Some(arl) {
        var i :| 1 <= i < |versions| && load(versions[i]) == Some(arl);
        assert versions[1..][i - 1] == versions[i];
      }
    }
  }

  /** Each loaded list is keyed by its own `group_version` field. */
  function KeyedByOwnField(lists: seq<APIResourceList>): (r: seq<(string, APIResourceList)>)
    ensures |r| == |lists|
    ensures forall i :: 0 <= i < |lists| ==> r[i] == (lists[i].groupVersion, lists[i])
  {
    seq(|lists|, i requires 0 <= i < |lists| => (lists[i].groupVersion, lists[i]))
  }

  /** `Cache::try_load`: the groups file, then one attempt per discovered version. */
  function TryLoad(cache: Cache, dir: Path, files: Files, took: nat): (r: Cache)
    ensures r.groups == files.groups(GroupsPath(dir))
    ensures r.groups.None? ==> r.resources == []
    ensures r.took == took
  {
    var groups := files.groups(GroupsPath(dir));
    var resources := match groups
      case None => []
      case Some(g) => Collect(KeyedByOwnField(Loaded(LoadAt(dir, files), AllVersions(g.groups))));
    cache.(groups := groups, resources := resources, took := took)
  }

  /** `api_groups`: the group list as loaded. */
  function ApiGroups(cache: Cache): Option<APIGroupList> {
    cache.groups
  }

  /** `api_resources`: every cached list in map order, or nothing when there is none. */
  function ApiResources(cache: Cache): (r: Option<seq<APIResourceList>>)
    ensures r.None? <==> cache.resources == []
    ensures r.Some? ==> r.value == Values(cache.resources)
  {
    if cache.resources == [] then None else Some(Values(cache.resources))
  }

  /**
   * A group-version is a key of the loaded cache exactly when one of the lists
   * that loaded names it in its own field; the value kept is the last such list.
   */
  lemma TryLoadKeys(cache: Cache, dir: Path, files: Files, took: nat, key: string)
    requires files.groups(GroupsPath(dir)).Some?
    ensures var loaded := Loaded(LoadAt(dir, files), AllVersions(files.groups(GroupsPath(dir)).value.groups));
            var r := TryLoad(cache, dir, files, took);
            (key in Keys(r.resources) <==> exists i :: 0 <= i < |loaded| && loaded[i].groupVersion == key)
            && Lookup(r.resources, key) == LastValue(KeyedByOwnField(loaded), key)
  {
    var loaded := Loaded(LoadAt(dir, files), AllVersions(files.groups(GroupsPath(dir)).value.groups));
    var keyed := KeyedByOwnField(loaded);
    assert TryLoad(cache, dir, files, took).resources == Collect(keyed);
    CollectLastWins(keyed, key);
    CollectHasKey(keyed, key);
  }

  /**
   * When the loaded lists name pairwise different group-versions, the cache
   * hands back exactly those lists, in the order they were loaded, and nothing
   * when none loaded.
   */
  lemma TryLoadDistinct(cache: Cache, dir: Path, files: Files, took: nat)
    requires files.groups(GroupsPath(dir)).Some?
    requires DistinctGroupVersions(Loaded(LoadAt(dir, files), AllVersions(files.groups(GroupsPath(dir)).value.groups)))
    ensures var loaded := Loaded(LoadAt(dir, files), AllVersions(files.groups(GroupsPath(dir)).value.groups));
            ApiResources(TryLoad(cache, dir, files, took)) == if loaded == [] then None else Some(loaded)
  {
    var loaded := Loaded(LoadAt(dir, files), AllVersions(files.groups(GroupsPath(dir)).value.groups));
    var r := TryLoad(cache, dir, files, took);
    assert r.resources == Collect(KeyedByOwnField(loaded));
    CollectKeyedDistinct(loaded);
    assert Values(r.resources) == loaded;
    assert |r.resources| == |loaded|;
  }

  /** No two lists name the same group-version. */
  predicate DistinctGroupVersions(lists: seq<APIResourceList>) {
    forall i, j :: 0 <= i < j < |lists| ==> lists[i].groupVersion != lists[j].groupVersion
  }

  lemma CollectKeyedDistinct(lists: seq<APIResourceList>)
    requires DistinctGroupVersions(lists)
    ensures Values(Collect(KeyedByOwnField(lists))) == lists
  {
    var keyed := KeyedByOwnField(lists);
    assert DistinctKeys(keyed);
    CollectDistinct(keyed);
  }
}

/**
 * The earlier cache loader of `rk-kubeapi`: the same documents, but a resource
 * file lives under `<dir>/<group name>/<version>/serverresources.json` and is
 * keyed by the discovery entry's group-version rather than the file's own.
 */
module RkDiscoveryCache {
  import opened Wrappers
  import opened OrderedMaps
  import opened Paths
  import opened Discovery
  import DiscoveryCache

  type Cache = DiscoveryCache.Cache
  type Files = DiscoveryCache.Files

  /** `<dir>/<group.name>/<version.version>/serverresources.json` */
  function ResourcesPath(dir: Path, groupName: string, version: GroupVersionForDiscovery): Path {
    JoinPath(JoinPath(JoinPath(dir, groupName), version.version), DiscoveryCache.ServerResources)
  }

  /**
   * Each version of each group, with the name of its group: the groups in
   * order, and within a group its versions in order (`AttemptsOneGroup`,
   * `AttemptsAppend`).
   */
  function Attempts(groups: seq<APIGroup>): (r: seq<(string, GroupVersionForDiscovery)>)
    ensures forall g, v :: 0 <= g < |groups| && v in groups[g].versions ==> (groups[g].name, v) in r
    ensures forall a :: a in r ==> exists g :: 0 <= g < |groups| && a.0 == groups[g].name && a.1 in groups[g].versions
  {
    if groups == [] then []
    else
      var here := seq(|groups[0].versions|, i requires 0 <= i < |groups[0].versions| => (groups[0].name, groups[0].versions[i]));
      assert forall i :: 0 <= i < |groups[0].versions| ==> here[i] == (groups[0].name, groups[0].versions[i]);
      assert forall v :: v in groups[0].versions ==> (groups[0].name, v) in here;
      var rest := Attempts(groups[1..]);
      assert forall a :: a in rest ==> exists g :: 0 <= g < |groups| && a.0 == groups[g].name && a.1 in groups[g].versions by {
        forall a | a in rest ensures exists g :: 0 <= g < |groups| && a.0 == groups[g].name && a.1 in groups[g].versions {
          var g :| 0 <= g < |groups[1..]| && a.0 == groups[1..][g].name && a.1 in groups[1..][g].versions;
          assert groups[1..][g] == groups[g + 1];
        }
      }
      here + rest
  }

  /** A single group is attempted once per version, in the order of its versions. */
  lemma AttemptsOneGroup(group: APIGroup)
    ensures |Attempts([group])| == |group.versions|
    ensures forall i :: 0 <= i < |group.versions| ==> Attempts([group])[i] == (group.name, group.versions[i])
  {
    assert [group][1..] == [];
  }

  /** The attempts of two runs of groups are those of the first run, then those of the second. */
  lemma {:induction false} AttemptsAppend(a: seq<APIGroup>, b: seq<APIGroup>)
    decreases |a|
    ensures Attempts(a + b) == Attempts(a) + Attempts(b)
  {
    if a == [] {
      assert a + b == b;
    } else {
      assert (a + b)[0] == a[0];
      assert (a + b)[1..] == a[1..] + b;
      AttemptsAppend(a[1..], b);
    }
  }

  /** Reading the resource list of one version of a named group. */
  function LoadAt(dir: Path, files: Files): ((string, GroupVersionForDiscovery)) -> Option<APIResourceList> {
    (a: (string, GroupVersionForDiscovery)) => files.resources(ResourcesPath(dir, a.0, a.1))
  }

  /** The successful loads, keyed by the discovery entry's `group_version`. */
  function LoadedByEntry(load: ((string, GroupVersionForDiscovery)) -> Option<APIResourceList>, attempts: seq<(string, GroupVersionForDiscovery)>): (r: seq<(string, APIResourceList)>)
    ensures |r| <= |attempts|
    ensures forall p :: p in r ==> exists i :: 0 <= i < |attempts| && load(attempts[i]).Some?
                                     && p == (attempts[i].1.groupVersion, load(attempts[i]).value)
  {
    if attempts == [] then []
    else
      var rest := LoadedByEntry(load, attempts[1..]);
      assert forall p :: p in rest ==> exists i :: 0 <= i < |attempts| && load(attempts[i]).Some?
                                         && p == (attempts[i].1.groupVersion, load(attempts[i]).value) by {
        forall p | p in rest ensures exists i :: 0 <= i < |attempts| && load(attempts[i]).Some?
                                       && p == (attempts[i].1.groupVersion, load(attempts[i]).value) {
          var i :| 0 <= i < |attempts[1..]| && load(attempts[1..][i]).Some?
                   && p == (attempts[1..][i].1.groupVersion, load(attempts[1..][i]).value);
          assert attempts[1..][i] == attempts[i + 1];
        }
      }
      match load(attempts[0])
      case None => rest
      case Some(arl) => [(attempts[0].1.groupVersion, arl)] + rest
  }

  /** An attempt that loads contributes its entry's group-version and the list it loaded. */
  lemma {:induction false} LoadedByEntryHas(load: ((string, GroupVersionForDiscovery)) -> Option<APIResourceList>, attempts: seq<(string, GroupVersionForDiscovery)>, i: nat)
    requires i < |attempts| && load(attempts[i]).Some?
    ensures (attempts[i].1.groupVersion, load(attempts[i]).value) in LoadedByEntry(load, attempts)
  {
    if i > 0 {
      LoadedByEntryHas(load, attempts[1..], i - 1);
      assert attempts[1..][i - 1] == attempts[i];
    }
  }

  /** `Cache::try_load` of `rk-kubeapi`. */
  function TryLoad(cache: Cache, dir: Path, files: Files, took: nat): (r: Cache)
    ensures r.groups == files.groups(DiscoveryCache.GroupsPath(dir))
    ensures r.groups.None? ==> r.resources == []
    ensures r.took == took
  {
    var groups := files.groups(JoinPath(dir, DiscoveryCache.ServerGroups));
    var resources := match groups
      case None => []
      case Some(g) => Collect(LoadedByEntry(LoadAt(dir, files), Attempts(g.groups)));
    cache.(groups := groups, resources := resources, took := took)
  }

  /**
   * A group-version is a key of the loaded cache exactly when some version of
   * some group carries it and that version's file loads, whatever the file
   * itself says; the list kept is the last one loaded under it.
   */
  lemma TryLoadKeyedByEntry(cache: Cache, dir: Path, files: Files, took: nat, key: string)
    requires files.groups(DiscoveryCache.GroupsPath(dir)).Some?
    ensures var groups := files.groups(DiscoveryCache.GroupsPath(dir)).value.groups;
            var r := TryLoad(cache, dir, files, took);
            (key in Keys(r.resources) <==> EntryLoads(dir, files, groups, key))
            && Lookup(r.resources, key) == LastValue(LoadedByEntry(LoadAt(dir, files), Attempts(groups)), key)
  {
    var groups := files.groups(DiscoveryCache.GroupsPath(dir)).value.groups;
    var pairs := LoadedByEntry(LoadAt(dir, files), Attempts(groups));
    assert TryLoad(cache, dir, files, took).resources == Collect(pairs);
    CollectHasKey(pairs, key);
    CollectLastWins(pairs, key);
    if EntryLoads(dir, files, groups, key) {
      EntryLoadsIsLoaded(dir, files, groups, key);
    }
    if exists i :: 0 <= i < |pairs| && pairs[i].0 == key {
      var i :| 0 <= i < |pairs| && pairs[i].0 == key;
      LoadedIsEntryLoads(dir, files, groups, pairs[i]);
    }
  }

  /** Some version of some group carries `key`, and the file of that version loads. */
  predicate EntryLoads(dir: Path, files: Files, groups: seq<APIGroup>, key: string) {
    exists g, v :: 0 <= g < |groups| && 0 <= v < |groups[g].versions| && groups[g].versions[v].groupVersion == key
                   && files.resources(ResourcesPath(dir, groups[g].name, groups[g].versions[v])).Some?
  }

  /** A version whose file loads contributes a pair keyed by its group-version. */
  lemma EntryLoadsIsLoaded(dir: Path, files: Files, groups: seq<APIGroup>, key: string)
    requires EntryLoads(dir, files, groups, key)
    ensures exists i :: 0 <= i < |LoadedByEntry(LoadAt(dir, files), Attempts(groups))|
                        && LoadedByEntry(LoadAt(dir, files), Attempts(groups))[i].0 == key
  {
    var attempts := Attempts(groups);
    var load := LoadAt(dir, files);
    var g, v :| 0 <= g < |groups| && 0 <= v < |groups[g].versions| && groups[g].versions[v].groupVersion == key
                && files.resources(ResourcesPath(dir, groups[g].name, groups[g].versions[v])).Some?;
    var ver := groups[g].versions[v];
    assert ver in groups[g].versions;
    assert (groups[g].name, ver) in attempts;
    var k :| 0 <= k < |attempts| && attempts[k] == (groups[g].name, ver);
    LoadedByEntryHas(load, attempts, k);
  }

  /** Every loaded pair is keyed by a version of some group whose file loads. */
  lemma LoadedIsEntryLoads(dir: Path, files: Files, groups: seq<APIGroup>, p: (string, APIResourceList))
    requires p in LoadedByEntry(LoadAt(dir, files), Attempts(groups))
    ensures EntryLoads(dir, files, groups, p.0)
  {
    var attempts := Attempts(groups);
    var load := LoadAt(dir, files);
    var k :| 0 <= k < |attempts| && load(attempts[k]).Some? && p == (attempts[k].1.groupVersion, load(attempts[k]).value);
    assert attempts[k] in attempts;
    var g :| 0 <= g < |groups| && attempts[k].0 == groups[g].name && attempts[k].1 in groups[g].versions;
    var v :| 0 <= v < |groups[g].versions| && groups[g].versions[v] == attempts[k].1;
    assert files.resources(ResourcesPath(dir, groups[g].name, groups[g].versions[v])).Some?;
  }

  /** `api_resources`, as in the newer cache: `None` exactly when nothing is cached. */
  function ApiResources(cache: Cache): (r: Option<seq<APIResourceList>>)
    ensures r.None? <==> cache.resources == []
    ensures r.Some? ==> r.value == Values(cache.resources)
  {
    DiscoveryCache.ApiResources(cache)
  }
}
