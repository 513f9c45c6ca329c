# rk-rs, modelled in Dafny

rk-rs is a kubectl clone written in Rust. This project models the logic at its core, as values and functions, plus small imperative methods where the Rust code loops or updates state in place. Network, file, clock and serialisation calls are parameters of the model. The core covers:

- **Resource tokens.** The command line's resource tokens (`pod/foo`, `pod,node a b`) are resolved against a fixed table of 15 aliases and the cached discovery catalog. The `auth can-i` object argument and the access-review attributes built from it are modelled too (`resource.dfy`, `discovery.dfy`, `cani.dfy`).
- **Discovery.** This covers the discovery cache in both of its path and key layouts, the cache-first selectors over a live client, preferred versions, the synthesised core group, and API routing by namespace (`cache.dfy`, `kubeapi.dfy`, `namespace.dfy`, `options.dfy`, `params.dfy`, `kubeconfig.dfy`).
- **Rendering.** The `Show` engine is modelled in both generations: dispatch by output format, removal of the NAMESPACE column, the per-kind header and data rows, managed-field stripping, and the two age formatters (`show.dfy`, `render.dfy`).
- **Status helpers.** Derived status of pods, containers and component statuses (`status.dfy`).
- **Commands and small routines.**
  - the `get` and `delete` flows (`commands.dfy`);
  - the api-resources table (`apiresources.dfy`);
  - container-image names (`images.dfy`);
  - the node resources table (`noderesources.dfy`);
  - cluster-role rule grouping (`clusterrole.dfy`);
  - `key=value` arguments (`kv.dfy`);
  - feature-gate samples (`features.dfy`).

The support modules model Rust library behaviour the core relies on:

- `wrappers.dfy`: Option/Result.
- `strings.dfy`: `split_once`, `split`, `lines`, lower-casing, byte-wise ordering.
- `collections.dfy`: insertion-ordered maps, and `collect` into a `Result`.
- `sortedsets.dfy`: `BTreeSet`.
- `paths.dfy`: path joins and `file_name`.
- `faults.dfy`: kube errors, `todo!` and panics as outcomes.

Where the doc comment "Mimics k8s humantime printer" at src/show.rs:245 and the code disagree, the model follows the code.

- **`human_time` in src/show.rs.** The described ladder is Kubernetes' `HumanDuration`. The code differs:
  - −1 s prints "-1s";
  - from ten minutes up to three hours it prints hours and minutes, so 600 s is "0h10m".

  `Show.HumanTimeAgrees` and `Show.HumanTimeDisagrees` pin down exactly where the two agree.
- **`human_time` in ui/src/show.rs.** It tests only the rounded components. A day and six hours prints "6h", and a minute and thirty seconds prints "30s" (`Show.HumanSpanDropsLeadingUnit`).
- **ComponentStatuses scope.** It is declared `Namespaced` in the resource table, but its typed accessor uses the cluster-wide API (`Resources.ComponentStatusesScopeMismatch`).
- **Init-container status.** The filter keeps the restartable (sidecar) init containers, contrary to its comment. Ordinary init containers never produce an init status (`Status.OrdinaryInitContainersNeverReport`, `Status.WaitingSidecarReports`).
- **`get` with show-kind.** `show_kind` is forced by the number of resolved references, not by the number of kinds: `get pod a b` shows kinds (`Commands.SameKindStillShowsKind`).
- **The older image path.** The older `from_container_image` shows the first name's path, because `dedup` merges only neighbours (`Images.LegacyAndCurrentDisagree`).

## Model

| member | source | states |
|---|---|---|
| Namespaces.New | src/namespace.rs:10-17 | every-namespaces wins over any name; otherwise no name is the context default and a name selects that namespace |
| Namespaces.NamespaceName | src/namespace.rs:19-25 | a name is returned exactly for an explicitly named namespace, and it is that name |
| Namespaces.NewNameRoundTrip | src/namespace.rs:10-25 | the name given to `new` is read back unless every namespace was asked for |
| Params.DeleteParams | kubeapi/src/params.rs:21-32 | the parameters are marked dry-run exactly for the server dry run; a propagation policy is always set and no grace period |
| Params.DeleteParamsCascadeRoundTrip | kubeapi/src/params.rs:22-26 | the propagation policy chosen reads back as the cascade it came from |
| Params.ClientDryRunSendsPlainParams | kubeapi/src/params.rs:28-31 | a client dry run sends the same parameters as none; a server dry run differs only in the dry-run mark |
| Params.PostParamsWithManager | kubeapi/src/params.rs:35-40 | the field manager is set to the one given and every other field keeps its default |
| Params.GetParams | kubeapi/src/params.rs:6-8 | the kube defaults for GET |
| Params.ListParams | kubeapi/src/params.rs:11-13 | the kube defaults for LIST |
| Params.PostParams | kubeapi/src/params.rs:16-18 | the kube defaults for POST, which `PostParamsWithManager` extends |
| KubeOptions.KubeCacheBelow |kubeapi/src/options.rs:25-32| `.kube/cache` goes below the base with exactly one separator, or stands alone without a base |
| KubeOptions.CacheDirLayout | kubeapi/src/options.rs:25-32 | the cache directory is `<dir or home>/.kube/cache`, or the relative `.kube/cache` when there is neither |
| KubeOptions.CacheDirEndsWithCache | kubeapi/src/options.rs:25-32 | the cache directory always ends in "cache" |
| KubeOptions.CacheDir | kubeapi/src/options.rs:25-32 | `cache_dir`: the configured directory, else the home directory, else the empty path, followed by `.kube/cache`; stated by `CacheDirLayout`, `KubeCacheBelow` and `CacheDirEndsWithCache` |
| KubeOptions.DiscoveryCacheForConfig | kubeapi/src/options.rs:34-43 | fails exactly when the cluster URL has no host; otherwise it is the cache directory, then "discovery", then the host |
| KubeOptions.ToKubeConfigOptions | kubeapi/src/options.rs:64-71 | context, cluster and user are carried over unchanged |
| Kubeconfigs.GetContext | kubeapi/src/kubeconfig.rs:90-92 | the first context with exactly that name, and none when no context has it |
| Kubeconfigs.CurrentContext | kubeapi/src/kubeconfig.rs:94-97 | present exactly when `current-context` names an existing context, and then it is that context |
| Kubeconfigs.Clusters | kubeapi/src/kubeconfig.rs:38-40 | the clusters of the file; `SanitizeKeepsLists` states that repairing leaves them untouched |
| Kubeconfigs.Contexts | kubeapi/src/kubeconfig.rs:42-44 | the contexts of the file; `SanitizeKeepsLists` states that repairing leaves them untouched |
| Kubeconfigs.Users | kubeapi/src/kubeconfig.rs:46-48 | the users of the file; `SanitizeKeepsLists` states that repairing leaves them untouched |
| Kubeconfigs.SanitizeKeepsLists | kubeapi/src/kubeconfig.rs:67-77 | repairing changes only `current-context`, so the cluster, context and user getters read the lists of the file |
| Kubeconfigs.SanitizeKeepsValid | kubeapi/src/kubeconfig.rs:67-68 | a kubeconfig whose current context exists is left unchanged |
| Kubeconfigs.SanitizeRepairs | kubeapi/src/kubeconfig.rs:69-75 | otherwise the current context becomes the first context's name, or none without contexts, and nothing else changes |
| Kubeconfigs.SanitizeIdempotent | kubeapi/src/kubeconfig.rs:67-77 | after repair a current context exists exactly when some context does; repairing twice equals repairing once |
| Kubeconfigs.Sanitize | kubeapi/src/kubeconfig.rs:67-77 | the repair itself; its meaning is the contracts of `SanitizeKeepsValid`, `SanitizeRepairs` and `SanitizeIdempotent` |
| Discovery.Find | src/ext/apiresource.rs:17-19 | the first entry the name designates (plural, singular or a short name), none exactly when no entry matches |
| Discovery.FindAt | src/ext/apiresource.rs:27-37 | an entry matched by name with no earlier match is the one found |
| Discovery.MatchesName | src/ext/apiresource.rs:28-37 | plural, singular or a short name; the lookup it drives is stated by `Find` and `FindAt` |
| Discovery.ScopeOf | resource/src/lib.rs:256-264 | the scope paired with an entry the cache resolves: namespaced exactly when its `namespaced` flag is set (a reconstruction, see "Left out") |
| Discovery.ListApiResource | src/ext/apiresource.rs:6-9 | a result exists exactly when the list's group-version parses and some entry matches; a matching entry is not enough if the group-version does not parse; the scope beside it is reconstructed by `ScopeOf` |
| Discovery.ListApiResourceAt | src/ext/apiresource.rs:39-48 | group and version come from the entry when it has them, else from the list; the API version always comes from the list; kind is copied and plural is the entry's name |
| Discovery.ToApiResource | src/ext/apiresource.rs:39-48 | the conversion of one entry; stated by `ListApiResourceAt` |
| DiscoveryCache.AllVersions | kubeapi/src/cache.rs:68-79 | every version of every group is attempted, and nothing else |
| DiscoveryCache.AllVersionsOneGroup | kubeapi/src/cache.rs:68-79 | one group contributes exactly its versions, in their order |
| DiscoveryCache.AllVersionsAppend | kubeapi/src/cache.rs:68-79 | the groups keep their order: the versions of two runs of groups are concatenated |
| DiscoveryCache.Loaded | kubeapi/src/cache.rs:68-79 | the successful loads, at most one per attempt |
| DiscoveryCache.LoadedMembers | kubeapi/src/cache.rs:68-79 | a list is kept exactly when loading some version yields it, so failures are skipped |
| DiscoveryCache.KeyedByOwnField | kubeapi/src/cache.rs:68-79 | each loaded list is keyed by its own `group_version` field |
| DiscoveryCache.TryLoad | kubeapi/src/cache.rs:14-29 | the groups are what the groups file gives; without them the resource map is empty; the timing is recorded; loading never fails |
| DiscoveryCache.GroupsPath | kubeapi/src/cache.rs:63-66 | `<dir>/servergroups.json`; `TryLoad` states that the groups come from it |
| DiscoveryCache.ResourcesPath | kubeapi/src/cache.rs:81-89 | `<dir>/<group_version>/serverresources.json`; `TryLoadKeys` states that the cached lists are those these files give |
| DiscoveryCache.ApiGroups | kubeapi/src/cache.rs:31-33 | the cached group list, if it loaded; `Kubeapi.ServerApiGroups` states its use |
| DiscoveryCache.TryLoadKeys | kubeapi/src/cache.rs:14-29 | a key is present exactly when some loaded list carries it, and maps to the last such list |
| DiscoveryCache.TryLoadDistinct | kubeapi/src/cache.rs:35-42 | with distinct group-versions the cached lists are exactly the loaded ones, in load order, and none when nothing loaded |
| DiscoveryCache.CollectKeyedDistinct | kubeapi/src/cache.rs:68-79 | collecting distinctly keyed lists into the ordered map keeps them all, in order |
| DiscoveryCache.ApiResources | kubeapi/src/cache.rs:35-42 | none exactly when the map is empty, otherwise its values in insertion order |
| RkDiscoveryCache.Attempts | rk-kubeapi/src/cache.rs:20-25 | every version of every group is attempted with its group's name, and nothing else is |
| RkDiscoveryCache.ResourcesPath | rk-kubeapi/src/cache.rs:23-31 | `<dir>/<group name>/<version>/serverresources.json`; `EntryLoadsIsLoaded` and `LoadedIsEntryLoads` state which of these files load |
| RkDiscoveryCache.AttemptsOneGroup | rk-kubeapi/src/cache.rs:23-25 | one group is attempted once per version, in the order of its versions, each with the group's name |
| RkDiscoveryCache.AttemptsAppend | rk-kubeapi/src/cache.rs:20-25 | the groups are attempted in order: the attempts of two runs of groups are concatenated |
| RkDiscoveryCache.LoadedByEntry | rk-kubeapi/src/cache.rs:35-37 | every entry is a successful attempt's discovery group-version with the list that attempt loaded; at most one entry per attempt |
| RkDiscoveryCache.LoadedByEntryHas | rk-kubeapi/src/cache.rs:35-37 | a successful attempt is keyed by the discovery entry's `group_version`, not by the file's own field |
| RkDiscoveryCache.TryLoad | rk-kubeapi/src/cache.rs:14-49 | the groups are what the groups file gives; without them the resource map is empty |
| RkDiscoveryCache.TryLoadKeyedByEntry | rk-kubeapi/src/cache.rs:18-40 | a group-version is a key exactly when some group's version carries it and `<dir>/<group>/<version>/serverresources.json` loads; the list kept under it is the last one loaded |
| RkDiscoveryCache.EntryLoadsIsLoaded | rk-kubeapi/src/cache.rs:26-37 | a version whose file loads contributes a pair under its group-version |
| RkDiscoveryCache.LoadedIsEntryLoads | rk-kubeapi/src/cache.rs:26-37 | every loaded pair is keyed by a version of some group whose file loads |
| RkDiscoveryCache.ApiResources | rk-kubeapi/src/cache.rs:55-62 | none exactly when the map is empty, otherwise its values |
| Kubeapi.WithNamespace | kubeapi/src/lib.rs:121-123 | the handle gets the new namespace and no other field changes |
| Kubeapi.ShowNamespace | kubeapi/src/lib.rs:130-132 | the NAMESPACE column is wanted exactly when every namespace is listed |
| Kubeapi.Client | kubeapi/src/lib.rs:101-103 | the client of the configuration, or its error; `Api`, `DynamicObjectApi` and `LiveApiResources` state that its error propagates |
| Kubeapi.CachedServerApiResources | kubeapi/src/lib.rs:134-136 | the cache's lists in insertion order, and none when the cache holds nothing |
| Kubeapi.NamespacedTarget | kubeapi/src/apis.rs:74-86 | every namespace goes to all namespaces, the default to the default namespace, a name to that namespace |
| Kubeapi.UsesClusterApi | kubeapi/src/apis.rs:5-62 | every typed API but pods, config maps and secrets goes through `cluster_api`; `Api` states the target that follows |
| Kubeapi.Api | kubeapi/src/apis.rs:6-72 | a client error propagates; namespaces, component statuses, nodes, cluster roles, bindings and reviews use the cluster API; pods, config maps and secrets use namespaced routing |
| Kubeapi.DynamicObjectApi | kubeapi/src/lib.rs:172-189 | a client error propagates; a cluster-scoped type goes to all namespaces, a namespaced one follows the namespace routing |
| Kubeapi.FullName | kubeapi/src/lib.rs:207-215 | the text is as long as the kind, a separator and the name |
| Kubeapi.FullNameSplits | kubeapi/src/lib.rs:207-215 | the text splits at its first '/' into the lower-cased kind and the name |
| Kubeapi.ChosenVersions | kubeapi/src/server.rs:33-39 | each group's preferred version, else its first; groups with neither are skipped; when every group has one, entry `i` is group `i`'s choice |
| Kubeapi.ChosenVersionsOne | kubeapi/src/server.rs:33-39 | one group gives its preferred-or-first version, or nothing when it has none |
| Kubeapi.ChosenVersionsAppend | kubeapi/src/server.rs:33-39 | group order is kept: the choices for two runs of groups are concatenated |
| Kubeapi.LiveApiResources | kubeapi/src/server.rs:25-46 | a client error propagates |
| Kubeapi.LiveApiResourcesOrder | kubeapi/src/server.rs:25-46 | all core-version lists in version order, then one list per chosen group version in group order |
| Kubeapi.GetServerApiResources | kubeapi/src/server.rs:25-46 | the loop over the client calls gives the live lists above |
| Kubeapi.GetServerCoreApiGroup | kubeapi/src/server.rs:56-78 | the core group has the core name, one entry per core version with group-version `CORE_GROUP ++ version`, and the first as preferred; an empty version list fails |
| Kubeapi.GetServerApiGroups | kubeapi/src/server.rs:48-54 | the core group first, then the discovered groups |
| Kubeapi.ServerApiGroups | kubeapi/src/server.rs:8-14 | the cached group list when there is one, the live one otherwise |
| Kubeapi.ServerApiResources | kubeapi/src/server.rs:16-23 | the cached lists when there are any, the live ones otherwise |
| Kubeapi.PreferredVersions | kubeapi/src/lib.rs:138-157 | fails exactly when some group names no version; otherwise the set of each group's preferred-or-first version |
| Kubeapi.FilterPreferred | kubeapi/src/lib.rs:138-157 | keeps exactly the lists whose group-version is preferred |
| Kubeapi.FilterPreferredAppend | kubeapi/src/lib.rs:138-157 | the filter keeps the original order |
| Kubeapi.FilterPreferredOne | kubeapi/src/lib.rs:138-157 | one list is kept exactly when its group-version is preferred |
| Kubeapi.ServerPreferredResources | kubeapi/src/lib.rs:138-157 | a group error propagates; a list is returned exactly when it is a server list at a preferred group-version |
| Kubeapi.ApiVersions | kubeapi/src/lib.rs:159-170 | succeeds exactly when the groups are available, and gives every version of every group in order |
| Resources.WithResource | rk-resource/src/named.rs:10-21 | both parts are stored as given and read back unchanged; the name is not checked |
| Resources.WithResourceInjective | rk-resource/src/named.rs:3-13 | two named resources are equal exactly when their types and names are |
| Resources.NamedDisplay | rk-resource/src/named.rs:38-42 | the type's text, '/', and the name |
| Resources.WellKnown | resource/src/lib.rs:147-156 | an alias never stands for a catalog entry |
| Resources.Aliases | resource/src/lib.rs:147-156 | the table has 15 aliases; which alias names which kind is stated by `WellKnownIsAliasTable` |
| Resources.WellKnownIsAliasTable | resource/src/lib.rs:147-156 | exactly the 15 aliases resolve, each to its kind |
| Resources.WellKnownCaseSensitive | resource/src/lib.rs:147-156 | matching is case-sensitive: "Pod" is not an alias |
| Resources.ApiResourceOf | resource/src/lib.rs:243-254 | a catalog entry returns its own scope and type; a built-in kind is core `v1` |
| Resources.WellKnownScopes | resource/src/lib.rs:243-254 | pods and config maps are namespaced, namespaces and nodes cluster-scoped, component statuses namespaced |
| Resources.PluralIsAlias | resource/src/lib.rs:243-254 | every built-in kind's plural is one of its aliases |
| Resources.ComponentStatusesScopeMismatch | resource/src/lib.rs:251 | component statuses are declared namespaced, yet their typed accessor targets all namespaces |
| Resources.Display | resource/src/lib.rs:292-303 | a catalog entry shows its lower-cased kind |
| Resources.DisplayIsAlias | resource/src/lib.rs:292-303 | a built-in kind's text is one of its aliases and holds no '/' |
| Resources.FindMap | resource/src/lib.rs:256-264 | none exactly when no cached list resolves the name |
| Resources.FindMapFirst | resource/src/lib.rs:256-264 | a found answer is that of the first cached list that resolves the name |
| Resources.WithCacheReadsOnlyCache | resource/src/lib.rs:143-145 | resolution depends only on the cache, never on live discovery |
| Resources.WithCache | resource/src/lib.rs:143-145 | an alias first, then the cached lists; stated by `WellKnownIsAliasTable`, `WithCacheReadsOnlyCache` and `EmptyCacheResolvesAliasesOnly` |
| Resources.OtherOf | resource/src/lib.rs:286-289 | a catalog entry from the first cached list that resolves the name; stated by `FindMap` and `FindMapFirst` |
| Resources.EmptyCacheResolvesAliasesOnly | resource/src/lib.rs:286-289 | with nothing cached only the aliases resolve |
| Resources.ArgResource | resource/src/lib.rs:105-110 | a named reference gives its type |
| Resources.ArgName | resource/src/lib.rs:112-117 | no name exactly for a type-only reference |
| Resources.ArgDisplay | resource/src/lib.rs:120-127 | a type-only reference shows its type, a named one `type/name` |
| Resources.NamedArg | resource/src/lib.rs:65-74 | a token without '/' is refused; a result is always a named reference |
| Resources.NamedArgOf | resource/src/lib.rs:36-40 | `named_resource` for each token of the named shape; `FromStringsNamedShape` states the result |
| Resources.NamedArgSplits | resource/src/lib.rs:65-74 | `type/name` resolves exactly when its type does, to that type and the whole rest as name |
| Resources.NamedDisplayRoundTrip | resource/src/lib.rs:65-74 | a built-in reference's text resolves back to it |
| Resources.NamesAreNotChecked | resource/src/lib.rs:65-74 | the name after the first '/' may be empty or hold further '/' |
| Resources.Product | resource/src/lib.rs:50-59 | there are as many references as types times names |
| Resources.ProductAt | resource/src/lib.rs:50-59 | entry `i·M+j` pairs type `i` with name `j`: the types are the outer loop |
| Resources.TypesOnly | resource/src/lib.rs:43-49 | one type-only reference per type, in order |
| Resources.FromStrings | resource/src/lib.rs:29-63 | an empty token list fails |
| Resources.MixedShapesFail | resource/src/lib.rs:36-40 | one bare token next to a `type/name` token fails the whole call |
| Resources.FromStringsNamedShape | resource/src/lib.rs:36-40 | in the `type/name` shape the call succeeds exactly when every token resolves, one reference per token in order |
| Resources.FromStringsTypesOnly | resource/src/lib.rs:43-49 | a single token succeeds exactly when every comma piece resolves, one reference per piece in order |
| Resources.FromStringsTypesAndNames | resource/src/lib.rs:50-59 | with names, entry `i·M+j` is type piece `i` named by name `j` |
| Resources.TypesAndNamesIsProduct | resource/src/lib.rs:50-59 | with names the result is the product of the resolved types and the names |
| Resources.TypeListAt | resource/src/lib.rs:43-49 | each piece of a resolved type list resolves on its own to the type at its position |
| Resources.TypeList | resource/src/lib.rs:42-46 | every comma piece resolved, the first failure refusing all; stated by `TypeListAt` and `TypesAndNamesIsProduct` |
| Resources.ResolvePiece | resource/src/lib.rs:44-45 | one comma piece through `with_cache`, refused when it resolves to nothing; `TypeListAt` states the result |
| Resources.OneResource | resource/src/lib.rs:322-326 | "pod" gives one reference to pods |
| Resources.ManyResources | resource/src/lib.rs:329-342 | "pod,node" gives pods then nodes |
| Resources.TwoTypes | resource/src/lib.rs:43-49 | any two resolvable types `a,b` give the two, in order |
| Resources.ResourceAndManyNames | resource/src/lib.rs:356-369 | "pod bazooka darbooka" gives two named pods in name order |
| Resources.ManyNamedResources | resource/src/lib.rs:384-399 | "pod/bazooka node/elephant" keeps token order |
| Resources.TwoNamed | resource/src/lib.rs:36-40 | any two resolvable `type/name` tokens give the two references in order |
| Resources.InvalidMix | resource/src/lib.rs:402-404 | "pod/bazooka node" is refused |
| CanI.FromText | rk/src/cli/command/auth/cani.rs:41-50 | text starting with '/' is a URL as given; other text succeeds exactly when it resolves to something, and the last reference is taken |
| CanI.FromTextKeepsLastType | rk/src/cli/command/auth/cani.rs:44-49 | "pod,node" asks about nodes only |
| CanI.FromTextLastOfTwo | rk/src/cli/command/auth/cani.rs:44-49 | of any two types `a,b` only the second is asked about |
| CanI.FromTextUrl | rk/src/cli/command/auth/cani.rs:41-43 | a URL path is never resolved, whatever the cache holds |
| CanI.ResourceAttributesOf | rk/src/cli/command/auth/cani.rs:83-116 | verb, group, version and plural of the type; empty name and subresource; no namespace for a cluster-scoped type, the chosen namespace otherwise |
| CanI.ResourceAttributesIgnoreName | rk/src/cli/command/auth/cani.rs:89-116 | a named reference asks the same as its bare type |
| CanI.ResourceAttributesNamespace | rk/src/cli/command/auth/cani.rs:99-102 | a namespace is sent exactly for a namespaced type with an explicitly named namespace |
| CanI.NonResourceAttributesOf | rk/src/cli/command/auth/cani.rs:118-127 | exactly the path and the verb |
| CanI.Spec | rk/src/cli/command/auth/cani.rs:70-81 | exactly one of the two attribute sets is present, matching the kind of object |
| Show.KeepCells | src/show.rs:71-76 | removing a column never adds cells |
| Show.Without | src/show.rs:71-76 | the header loses exactly the cells named so |
| Show.RemoveColumn | src/show.rs:71-76 | removing a column keeps the number of rows |
| Show.KeepHeaderCells | src/show.rs:71-76 | the header row loses exactly its cells with that name |
| Show.KeepAllCells | src/show.rs:71-76 | a row is unchanged when no header cell has that name |
| Show.KeepCellsAligned | src/show.rs:71-76 | a row as long as the header stays as long as the new header |
| Show.RemoveColumnHeader | src/show.rs:71-76 | afterwards the header lacks the name, and aligned rows stay aligned |
| Show.RemoveAbsentColumn | src/show.rs:71-76 | a table without such a column is unchanged |
| Show.CurrentTableSettings | ui/src/show.rs:106-111 | blank style, no left padding, two spaces of right padding, none above or below |
| Show.Table.constructor | ui/src/show.rs:73-79 | a built table holds the rows with the default style and padding |
| Show.Table.WithStyle | src/show.rs:70-76 | only the style changes |
| Show.Table.WithSettings | ui/src/show.rs:76-77 | style and padding are replaced, the cells kept |
| Show.Table.RemoveColumnNamed | ui/src/show.rs:77-79 | only the cells change, and they lose that column |
| Show.NameOf | ui/src/show.rs:165-177 | the bare name without show-kind; with it, the kind, a separator and the name |
| Show.NameOfSplits | src/show.rs:226-238 | with show-kind the text splits at its first '/' into the lower-cased kind and the name |
| Show.HumanTimeBoundaries | src/show.rs:246-296 | −2 s is invalid; 0, 119, 120, 28799 and 28800 s give "0s", "119s", "2m", "7h59m", "8h" |
| Show.HumanTime | src/show.rs:246-296 | the older age ladder; stated by `HumanTimeBoundaries`, `HumanTimeTenMinutes`, `HumanTimeMinusOne`, `HumanTimeAgrees` and `HumanTimeDisagrees` |
| Show.HumanTimeTenMinutes | src/show.rs:259-272 | 600 s gives "0h10m" where Kubernetes gives "10m" |
| Show.HumanTimeMinusOne | src/show.rs:252-258 | −1 s gives "-1s" where Kubernetes gives "0s" |
| Show.HumanTimeAgrees | src/show.rs:246-296 | outside −1 s and 10 min–3 h the formatter equals Kubernetes' ladder |
| Show.HumanTimeDisagrees | src/show.rs:246-296 | inside those ranges it always differs |
| Show.HumanSpanDropsLeadingUnit | ui/src/show.rs:209-233 | one day six hours gives "6h"; one minute thirty seconds gives "30s" |
| Show.HumanSpan | ui/src/show.rs:185-233 | the newer age text of a rounded span; stated by `HumanSpanDropsLeadingUnit`, `HumanSpanSingleDay` and the `HumanSpanAgrees` lemmas |
| Show.HumanSpanSingleDay | ui/src/show.rs:209-224 | a single day is never shown |
| Show.Balanced | ui/src/show.rs:185-234 | the components add back up to the seconds, each below its unit's bound |
| Show.BalancedParts | ui/src/show.rs:185-234 | balanced days, hours, minutes and seconds are the quotients and remainders Kubernetes' ladder divides out |
| Show.HumanSpanAgreesWithinDay | ui/src/show.rs:185-234 | under a minute, from two to ten minutes and from three hours to a day the newer formatter equals Kubernetes' ladder |
| Show.HumanSpanAgreesFromTwoDays | ui/src/show.rs:185-234 | from two days on the newer formatter equals Kubernetes' ladder, through days-and-hours, days and years |
| Show.HumanSpanAgrees | ui/src/show.rs:185-234 | for balanced spans outside 1–2 min, 10 min–3 h and 1–2 d it equals Kubernetes' ladder |
| Status.TerminatedOf | rk/src/ext/container.rs:31-34 | the terminated state exactly when there is a state and it is terminated |
| Status.WaitingOf | rk/src/ext/container.rs:35-37 | the waiting state exactly when there is a state and it is waiting |
| Status.TerminationReasonFallback | rk/src/ext/container.rs:44-52 | without a reason, "Signal:<n>" exactly when there is a signal, else "ExitCode:<n>" |
| Status.IsRestartable | rk/src/ext/container.rs:8-10 | a sidecar: the restart policy is exactly "Always"; `CountRestartable`, `TotalContainers` and `OrdinaryInitContainersNeverReport` state what it selects |
| Status.TerminationReason | rk/src/ext/container.rs:44-52 | the reason, else the signal or exit code; stated by `TerminationReasonFallback` |
| Status.TerminatedReason | rk/src/ext/container.rs:17-19 | a reason exactly for a terminated container, and it is the termination reason |
| Status.WaitingReason | rk/src/ext/container.rs:21-27 | the waiting reason exactly when there is one other than "PodInitializing" |
| Status.CountReady | src/ext/pod.rs:17-23 | exactly the number of statuses whose ready flag is set; none exactly when no status is ready, all exactly when every one is |
| Status.CountReadyOne | src/ext/pod.rs:17-23 | one status counts 1 when ready, else 0 |
| Status.CountReadyAppend | src/ext/pod.rs:17-23 | the count over two runs of statuses is the sum of their counts |
| Status.ReadyContainers | src/ext/pod.rs:17-23 | the number of ready container statuses, 0 when there are none; all exactly when every status is ready |
| Status.CountRestartable | src/ext/pod.rs:25-34 | exactly the number of restartable containers; none or all exactly when none or all are restartable |
| Status.CountRestartableOne | src/ext/pod.rs:25-34 | one container counts 1 when restartable, else 0 |
| Status.CountRestartableAppend | src/ext/pod.rs:25-34 | the count over two runs of containers is the sum of their counts |
| Status.TotalContainers | src/ext/pod.rs:25-34 | the number of containers plus the number of restartable init containers; ordinary init containers never count |
| Status.SumRestartsAppend | src/ext/pod.rs:35-41 | the sum is additive over a split |
| Status.SumRestarts | src/ext/pod.rs:35-41 | the sum of the restart counts; stated by `SumRestartsAppend`, `SumRestartsBounds` and `SumRestartsNonNegative` |
| Status.Restarts | src/ext/pod.rs:35-41 | a pod's restarts, zero without statuses; stated by `RestartsBounds` |
| Status.SumRestartsBounds | src/ext/pod.rs:35-41 | with non-negative counts the sum bounds each count |
| Status.SumRestartsNonNegative | src/ext/pod.rs:35-41 | with non-negative counts the sum is non-negative |
| Status.RestartsBounds | src/ext/pod.rs:35-41 | a pod's restarts are at least every container's count |
| Status.FirstOfType | rk/src/ext/component.rs:6-10 | the first condition of that type: none exactly when there is none, and the condition at the first position of that type otherwise (pods look their conditions up the same way) |
| Status.PodScheduledReason | src/ext/pod.rs:13-15 | the reason of the first "PodScheduled" condition; none without a status, without conditions or without such a condition |
| Status.LastInitValue | src/ext/pod.rs:55-85 | none exactly when no status qualifies |
| Status.LastInitValueIsLast | src/ext/pod.rs:55-85 | when status `i` qualifies and none after it does, the value is status `i`'s, shown at position `i` |
| Status.InitQualifies | src/ext/pod.rs:62-73 | an init status that did not end with exit code 0 and belongs to a sidecar of that name; `InitContainerStatus`, `OrdinaryInitContainersNeverReport` and `WaitingSidecarReports` state its effect |
| Status.InitValue | src/ext/pod.rs:74-81 | the termination reason, else the waiting reason, else `idx/total`; `LastInitValue` and `WaitingSidecarReports` state its use |
| Status.InitContainerStatus | src/ext/pod.rs:55-85 | none exactly when no init status qualifies |
| Status.OrdinaryInitContainersNeverReport | src/ext/pod.rs:62-73 | only restartable init containers can qualify |
| Status.WaitingSidecarReports | src/ext/pod.rs:62-84 | a waiting sidecar gives "Init:<reason>" |
| Status.PodReason | src/ext/pod.rs:44-50 | "SchedulingGated" overrides all; else the pod reason; else the phase or "" |
| Status.KubectlStatus | src/ext/pod.rs:51-52 | an init status, prefixed "Init:", replaces everything else |
| Status.Condition | rk/src/ext/component.rs:6-10 | none without conditions, else the first of that type |
| Status.Healthy | rk/src/ext/component.rs:12-14 | the first "Healthy" condition; none exactly when there are no conditions or none is "Healthy" |
| Status.IsTrueCaseSensitive | rk/src/ext/component.rs:48-50 | "true" and "TRUE" are not true |
| Status.IsTrue | rk/src/ext/component.rs:48-50 | the status is exactly "True"; stated by `IsTrueCaseSensitive` |
| Render.MaybeStrip | ui/src/show/impls.rs:39-56 | unchanged when managed fields are shown; otherwise no managed fields and every other field equal |
| Render.MaybeStripIdempotent | ui/src/show/impls.rs:47-54 | stripping twice equals stripping once |
| Render.StripAll | rk/src/show/impls/objectlist.rs:27-31 | every item stripped, in order |
| Render.StripItemsInPlace | rk/src/show/impls/objectlist.rs:27-31 | the array afterwards holds the stripped items of what it held |
| Render.DefaultTable | ui/src/show.rs:27-35 | the header row then the data row, and an error of either propagates |
| Render.NormalTable | ui/src/show.rs:27-30 | the `normal` table of each kind; stated by `DefaultTable`, `VecTable`, `SubjectReviewHeaderOnly` and `OutputTable` |
| Render.WideTable | ui/src/show.rs:32-35 | the `wide` table of each kind; stated by `DefaultTable`, `VecTable`, `SubjectReviewWidePanics` and `OutputTable` |
| Render.Header | ui/src/show.rs:21 | `header` for every kind shown; stated by `RowsMatchHeaders`, `PairShown` and `CreatedShown` |
| Render.Data | ui/src/show.rs:22 | `data` for every kind shown; stated by `RowsMatchHeaders`, `ConfigMapDataCount` and `ComponentStatusCells` |
| Render.ObjectHeader | ui/src/show/impls/configmap.rs:4-11 | the header of a config map, node, namespace, component status or review; stated by `RowsMatchHeaders` |
| Render.ObjectData | ui/src/show/impls/configmap.rs:13-33 | the data row of a config map, node, namespace, component status or review; stated by `RowsMatchHeaders` and `ConfigMapDataCount` |
| Render.VecTable | ui/src/show.rs:126-144 | empty for no elements; else the first element's header and one data row per element, in order |
| Render.ListItems | rk/src/show/impls/objectlist.rs:7-21 | a list shows as its items, in order |
| Render.SubjectRows | ui/src/show/impls/subjectreview.rs:43-75 | no rows without status or user information; every row has two cells |
| Render.ExtraRows | ui/src/show/impls/subjectreview.rs:68-75 | one row per extra entry: "Extra: key" and its values in brackets |
| Render.SubjectRowsOrder | ui/src/show/impls/subjectreview.rs:29-41 | Username, Uid and Groups in that order, then the extras; groups are bracketed and comma-joined |
| Render.AllOk | src/show.rs:207-219 | succeeds exactly when every part does, with their texts in order |
| Render.Output | ui/src/show.rs:73-104 | the text `output` produces for the format, engine and column flag |
| Render.OutputOf | ui/src/show.rs:73-104 | the text for each format, which the `Output` method is proved to produce; stated by `OutputTable`, `TemplateFormatsUnsupported` and `JsonYamlAgree` |
| Render.LayOut | src/show.rs:67-78 | the laid-out rows, without NAMESPACE unless namespaces are shown, in the engine's style |
| Render.OutputTable | src/show.rs:67-102 | for Normal and Wide the table without NAMESPACE unless namespaces are shown, and unchanged when they are |
| Render.TemplateFormatsUnsupported | src/show.rs:31-65 | template-style formats are unsupported |
| Render.JsonYamlAgree | ui/src/show/impls/created.rs:18-26 | json and yaml serialise the same document, stripped unless managed fields are shown |
| Render.JsonText | ui/src/show.rs:23 | `json` of each kind; stated by `JsonYamlAgree`, `ItemsSerialise` and `PairShown` |
| Render.YamlText | ui/src/show.rs:24 | `yaml` of each kind; stated by `JsonYamlAgree`, `ItemsSerialise` and `PairShown` |
| Render.ObjectListStripKeepsRest | rk/src/show/impls/objectlist.rs:23-45 | a list's items lose only their managed fields, and the list metadata is kept |
| Render.ItemsSerialise | ui/src/show.rs:146-162 | a Vec's json joins with line feeds and its yaml concatenates |
| Render.ListsHaveNoName | rk/src/show/impls/objectlist.rs:47-49 | lists, Vecs and created objects have no `name` |
| Render.NameText | ui/src/show.rs:25 | `name` for every kind shown; stated by `ListsHaveNoName`, `PairShown` and `SystemInfoShown` |
| Render.NameAny | app/src/cli/command/node/resources.rs:28 | kube's `name_any`: the name, else the generated name; `FromNodeShape` states it heads each node's row |
| Render.PairShown | ui/src/show/impls.rs:17-37 | header Key, Value; the pair as row; the key as name; no json or yaml |
| Render.CreatedShown | ui/src/show/impls/created.rs:8-16 | an empty header and the cell "kind/name created" |
| Render.LegacyAge | src/show.rs:240-243 | the older `age`: `HumanTime` of the time since creation, empty without a timestamp |
| Render.CurrentAge | ui/src/show.rs:179-182 | the newer `age`: `HumanSpan` of the rounded time since creation, empty without a timestamp |
| Render.RowsMatchHeaders | ui/src/show/impls/configmap.rs:4-33 | for config maps, nodes, namespaces and component statuses the data row is as long as the header; other formats fail |
| Render.ConfigMapDataCount | ui/src/show/impls/configmap.rs:13-33 | DATA counts data and binary data entries, an absent map none; the namespace cell is the namespace or "" |
| Render.NamespaceIgnoresColumnFlag | src/show/impls/namespace.rs:4-10 | namespaces render the same with or without the NAMESPACE column |
| Render.NamespaceStatus | src/ext/namespace.rs:8-10 | the status is the phase or "Unknown" |
| Render.ComponentStatusCells | rk/src/show/impls/componentstatus.rs:14-37 | "Healthy" exactly for a true Healthy condition, "Unknown" with none; message and error come from the condition or "" |
| Render.ComponentCells | rk/src/show/impls/componentstatus.rs:17-29 | status, message and error of a component; stated by `ComponentStatusCells` |
| Render.AccessReviewAnswer | src/show/impls/accessreview.rs:26-56 | "yes…" exactly when allowed, otherwise "no…"; a missing status is "no"; allowed outside Wide is "yes" |
| Render.AccessReviewDenied | src/show/impls/accessreview.rs:43-53 | a refusal reads "no (denied)" exactly when it says it denied |
| Render.AccessReviewText | src/show/impls/accessreview.rs:30-54 | "yes" (with the reason when wide) or "no" with the denial, reason and evaluation error; stated by `AccessReviewAnswer` and `AccessReviewDenied` |
| Render.SettingsOf | ui/src/show.rs:106-111 | the blank style with the older engine, `table_settings` with the newer; `OutputTable` states its use |
| Render.SubjectReviewHeaderOnly | ui/src/show/impls/subjectreview.rs:43-45 | without user information only the header row |
| Render.SubjectReviewWidePanics | ui/src/show/impls/subjectreview.rs:11-13 | the wide table reaches the unreachable data row |
| Render.SystemInfoShown | ui/src/show/impls/node.rs:39-63 | json and yaml serialise unstripped; header, data and name fail |
| Commands.ResolveArgs | app/src/cli/command/get.rs:54-59 | absent tokens fail; otherwise success exactly when resolution succeeds; every failure is the generic error |
| Commands.RawName | app/src/cli/command/get.rs:36-39 | at most one leading '/' is removed |
| Commands.RawNameStripsOnce | app/src/cli/command/get.rs:36-39 | of two leading slashes one stays |
| Commands.EffectiveParams | app/src/cli/command/get.rs:42-43 | show-kind is on when asked or with more than one reference; the other flags are kept |
| Commands.SameKindStillShowsKind | app/src/cli/command/get.rs:42-43 | two pods by name already force show-kind |
| Commands.RenderAllInOrder | app/src/cli/command/get.rs:45-49 | references render in order; the first failure stops the rest and is the outcome |
| Commands.RenderAll | app/src/cli/command/get.rs:45-49 | the ordered rendering of the references; stated by `RenderAllInOrder`, `RenderAllStep` and `RenderStopsAt` |
| Commands.RenderAllStep | app/src/cli/command/get.rs:45-49 | each reference is shown, and the rest follow only when it succeeded |
| Commands.RenderStopsAt | app/src/cli/command/get.rs:45-49 | a failure showing the current reference is the command's outcome after what was printed; a text is printed before the rest |
| Commands.RenderEach | app/src/cli/command/get.rs:45-49 | the loop prints what the ordered rendering gives |
| Commands.GetExec | app/src/cli/command/get.rs:34-52 | the command's prints and outcome |
| Commands.GetRun | app/src/cli/command/get.rs:34-52 | the prints and outcome of `get`; stated by `GetExec`, `RenderAllInOrder` and `GetNamespaceColumn` |
| Commands.GetNamespaceColumn | app/src/cli/command/get.rs:44 | the NAMESPACE column is shown exactly when every namespace is listed |
| Commands.IgnoreNotFound | rk/src/cli/command/delete.rs:216-227 | success exactly for a 404 API error with the flag set; otherwise the same error |
| Commands.DeleteOne | rk/src/cli/command/delete.rs:199-205 | a bare type is unsupported; a named one succeeds exactly when the delete does or its error is ignored |
| Commands.DeleteEachInOrder | rk/src/cli/command/delete.rs:196-206 | `delete_resources` itself prints nothing outside a dry run; deletes are sent in order with the same parameters and stop at the first error not ignored |
| Commands.DeleteEach | rk/src/cli/command/delete.rs:196-206 | the ordered deletion of the references; stated by `DeleteEachInOrder`, `DeleteEachSends` and `DeleteEachOutcome` |
| Commands.DeleteEachSends | rk/src/cli/command/delete.rs:196-206 | the loop itself prints nothing (what each deletion prints is left out); the requests sent are the references in order, each with the same parameters, all of them on success |
| Commands.DeleteEachOutcome | rk/src/cli/command/delete.rs:196-206 | success exactly when every deletion succeeds or is ignored; otherwise the last request sent is the first failure, and its error is the outcome |
| Commands.DryRunLines | rk/src/cli/command/delete.rs:197-198 | one "<ref> deleted (dry run)" line per reference, in order |
| Commands.DryRunLinesStep | rk/src/cli/command/delete.rs:196-198 | the lines printed after the reference at `i` are those before it plus its own |
| Commands.DryRunLinesSnoc | rk/src/cli/command/delete.rs:197-198 | one more reference adds its line at the end |
| Commands.DeleteEachStep | rk/src/cli/command/delete.rs:196-206 | each reference is sent, and the rest follow only when it succeeded or its error was ignored |
| Commands.DeleteStopsAt |rk/src/cli/command/delete.rs:196-206| the current request joins those sent; its failure ends the run as the outcome, otherwise the rest follow |
| Commands.DeleteLoop | rk/src/cli/command/delete.rs:196-206 | the loop prints, sends and ends as the ordered deletion does |
| Commands.DeleteResources | rk/src/cli/command/delete.rs:194-208 | `delete_resources` on resolved references |
| Commands.DeleteResourcesRun | rk/src/cli/command/delete.rs:194-208 | the prints, requests and outcome of `delete_resources`; stated by `DeleteEachInOrder`, `ClientDryRunNeverDeletes` and `NoTokensFail` |
| Commands.DeleteRunOf | rk/src/cli/command/delete.rs:184-192 | deletion from a file is unsupported, otherwise `delete_resources` |
| Commands.ClientDryRunNeverDeletes | rk/src/cli/command/delete.rs:197-198 | a client dry run sends nothing and prints one line per reference |
| Commands.SameParamsForEveryRequest | rk/src/cli/command/delete.rs:195 | every request carries the parameters built from cascade and dry-run |
| Commands.NoTokensFail | rk/src/cli/command/delete.rs:210-214 | absent tokens fail with the generic error and send nothing |
| ApiResourcesCommand.OptionVec | rk/src/cli/command/api_resource.rs:96-101 | an absent list is ""; a one-item list is its item |
| ApiResourcesCommand.OptionVecSplits | rk/src/cli/command/api_resource.rs:96-101 | a present list of comma-free items splits back from its text |
| ApiResourcesCommand.OptionVecAbsentIsEmpty | rk/src/cli/command/api_resource.rs:96-101 | absent and empty lists show alike |
| ApiResourcesCommand.NewRow | rk/src/cli/command/api_resource.rs:65-94 | name, kind and namespaced copied; the list's API version; short names and categories via `option_vec`; verbs joined by ',' |
| ApiResourcesCommand.CollectSound | rk/src/cli/command/api_resource.rs:36-50 | every row stands for a resource passing both filters |
| ApiResourcesCommand.CollectComplete | rk/src/cli/command/api_resource.rs:36-50 | every resource passing both filters has its row |
| ApiResourcesCommand.CollectAppend | rk/src/cli/command/api_resource.rs:36-50 | the input order is kept |
| ApiResourcesCommand.CollectUnfiltered | rk/src/cli/command/api_resource.rs:36-50 | without filters every resource has its row, in order |
| ApiResourcesCommand.Collect | rk/src/cli/command/api_resource.rs:36-50 | the rows of one list; stated by `CollectSound`, `CollectComplete` and `CollectUnfiltered` |
| ApiResourcesCommand.CollectAll | rk/src/cli/command/api_resource.rs:16-22 | the rows of every list in order; stated by `CollectAppend` |
| ApiResourcesCommand.FiltersHold | rk/src/cli/command/api_resource.rs:44-48 | no subresource unless asked; the namespaced filter holds; the API version is the list's |
| ApiResourcesCommand.Keeps | rk/src/cli/command/api_resource.rs:44-47 | the two filters: subresources only when asked, and the namespaced flag when given; `CollectSound` and `CollectComplete` state the collection it selects |
| ApiResourcesCommand.TableOf | rk/src/cli/command/api_resource.rs:24-25 | the header, then one line per row |
| ApiResourcesCommand.Exec | rk/src/cli/command/api_resource.rs:15-34 | the text of the command for its format |
| ApiResourcesCommand.ExecText | rk/src/cli/command/api_resource.rs:15-34 | the text the `Exec` method is proved to print; stated by `NormalShowsFiveColumns` |
| ApiResourcesCommand.KeepCellsDropOne | rk/src/cli/command/api_resource.rs:26-30 | a column named once loses exactly its cell |
| ApiResourcesCommand.VerbsOnce | rk/src/cli/command/api_resource.rs:26-30 | VERBS heads exactly the sixth column |
| ApiResourcesCommand.CategoriesOnce | rk/src/cli/command/api_resource.rs:26-30 | once VERBS is gone, CATEGORIES heads exactly the sixth column |
| ApiResourcesCommand.DropVerbsAndCategories | rk/src/cli/command/api_resource.rs:26-30 | dropping both from a seven-cell line keeps its first five cells |
| ApiResourcesCommand.NormalShowsFiveColumns | rk/src/cli/command/api_resource.rs:26-30 | the normal format shows NAME, SHORTNAMES, APIVERSION, NAMESPACED, KIND and five cells per resource |
| Images.FromName | src/cli/command/node/image.rs:88-115 | a name without '/' is its own path with no server or id; otherwise the server has no '/' and the path starts with '/'; tags and digests hold no ':' |
| Images.FromNameRoundTrip | src/cli/command/node/image.rs:88-115 | a written `server/body:tag` or `server/body@algo:value` reads back into its parts |
| Images.FromNameOfParts | src/cli/command/node/image.rs:88-115 | the round trip for a tagged name given by its parts |
| Images.FluentBitTag | src/cli/command/node/image.rs:150-156 | "cr.fluentbit.io/fluent/fluent-bit:3.2.8" gives the expected server, path and tag |
| Images.DigestAfterTag | src/cli/command/node/image.rs:93-106 | a digest after a tag leaves the tag in the path and splits at the last ':' |
| Images.ShortestFrom | src/cli/command/node/image.rs:130-144 | the fold yields a valid index |
| Images.ShortestFromFindsFirst | src/cli/command/node/image.rs:130-144 | the fold finds the first shortest host |
| Images.FirstShortestUnique | src/cli/command/node/image.rs:130-144 | the first shortest host is unique |
| Images.FindCommon | src/cli/command/node/image.rs:130-144 | a valid index |
| Images.FindCommonMeaning | src/cli/command/node/image.rs:130-144 | the first shortest host when every host ends with it, else 0 |
| Images.FindCommonPicksSuffix | src/cli/command/node/image.rs:130-144 | `docker.io` wins over `registry-1.docker.io` in either order |
| Images.Servers | src/cli/command/node/image.rs:24-35 | the server of every name, in order |
| Images.Paths | src/cli/command/node/image.rs:24-35 | the path of every name, in order |
| Images.RemoveAt | src/cli/command/node/image.rs:38-40 | `Vec::remove` within bounds: exactly entry `i` goes, the others keep their order; what removing the host leaves is stated by `InfoHost` |
| Images.RemoveEqualMeaning | src/cli/command/node/image.rs:38-40 | exactly the entries different from the host remain |
| Images.RemoveEqual | src/cli/command/node/image.rs:40 | `retain_mut` dropping the host; stated by `RemoveEqualMeaning` |
| Images.HostAndAlso | src/cli/command/node/image.rs:37-40 | the host is one of the registries, and the other registries are exactly those different from it |
| Images.GatherStep | src/cli/command/node/image.rs:24-35 | one more name adds its server, path, tag and digest |
| Images.Gather | src/cli/command/node/image.rs:24-35 | the loop collects servers, digests and tags in name order |
| Images.GatherPaths | src/cli/command/node/image.rs:24-35 | the paths inserted into an ordered set |
| Images.GatherPathsInOrder | src/cli/command/node.rs:104-140 | the paths pushed in name order |
| Images.FromContainerImage | src/cli/command/node/image.rs:17-50 | the image information the names and size give |
| Images.InfoOf | src/cli/command/node/image.rs:17-50 | the conversion the method is proved equal to; stated by `InfoAbsent`, `InfoPathIsLeast` and `InfoHost` |
| Images.InfoAbsent | src/cli/command/node/image.rs:17-50 | none exactly without names, without a size, or with no names |
| Images.InfoPathIsLeast | src/cli/command/node/image.rs:17-50 | the path is the least parsed path, and one of them |
| Images.InfoHost | src/cli/command/node/image.rs:38-40 | the host is the common server; no copy of it stays among the other servers |
| Images.TagsAppend | src/cli/command/node/image.rs:24-35 | tags keep name order |
| Images.Tags | src/cli/command/node/image.rs:28-34 | the tags of the names in order; stated by `TagsAppend` and `Gather` |
| Images.HashesLastWins | src/cli/command/node/image.rs:24-35 | each algorithm keeps the last name's digest |
| Images.Hashes | src/cli/command/node/image.rs:28-32 | each algorithm's digest; stated by `HashesLastWins` and `Gather` |
| Images.Dedup | src/cli/command/node.rs:129-130 | merging neighbours keeps the first entry and never lengthens |
| Images.LegacyFromContainerImage | src/cli/command/node.rs:104-140 | the older conversion's outcome |
| Images.LegacyInfoOf | src/cli/command/node.rs:104-140 | the older conversion, stated by `LegacyPathIsFirst` and `LegacyAgreesButPath` |
| Images.LegacyPathIsFirst | src/cli/command/node.rs:129-130 | the older version shows the first name's path |
| Images.LegacyAgreesButPath | src/cli/command/node.rs:104-140 | both versions agree but for the path; the older one panics on an empty name list |
| Images.LegacyAndCurrentDisagree | src/cli/command/node.rs:129-130 | names "r/z", "r/a" show "/a" in the newer and "/z" in the older |
| NodeResourcesCommand.AllKeysMeaning | app/src/cli/command/node/resources.rs:12-20 | a name is collected exactly when some node reports it in the chosen map |
| NodeResourcesCommand.AllKeys | app/src/cli/command/node/resources.rs:13-20 | every node's chosen names in order; stated by `AllKeysMeaning` |
| NodeResourcesCommand.Chosen | app/src/cli/command/node/resources.rs:55-61 | the capacity or the allocatable map of a node; `AllKeysMeaning` and `ColumnsFromChosenMaps` state which names it contributes |
| NodeResourcesCommand.Rank | app/src/cli/command/node/resources.rs:72-85 | a standard name ranks by its position in the standard order; every other name ranks after all of them |
| NodeResourcesCommand.PresentMeaning | app/src/cli/command/node/resources.rs:72-85 | the standard names present, in the standard order |
| NodeResourcesCommand.PresentBySet | app/src/cli/command/node/resources.rs:72-85 | a standard name is listed exactly when present |
| NodeResourcesCommand.Except | app/src/cli/command/node/resources.rs:88-89 | the names not standard, still ascending |
| NodeResourcesCommand.ResourceNames | app/src/cli/command/node/resources.rs:64-90 | the loop gives the present standard names, then the rest ascending |
| NodeResourcesCommand.OrderedNames | app/src/cli/command/node/resources.rs:64-90 | the order the loop is proved to produce; stated by `NamesExactlyOnce`, `StandardNamesFirst` and `RestAscending` |
| NodeResourcesCommand.NamesExactlyOnce | app/src/cli/command/node/resources.rs:67-70 | every key appears exactly once, and nothing else |
| NodeResourcesCommand.StandardNamesFirst | app/src/cli/command/node/resources.rs:72-85 | every standard name precedes every other name |
| NodeResourcesCommand.RestAscending | app/src/cli/command/node/resources.rs:88-89 | the other names are in ascending order |
| NodeResourcesCommand.LookupsMeaning | app/src/cli/command/node/resources.rs:37-53 | for distinct names each value is the quantity or "-" |
| NodeResourcesCommand.LookupsStep |app/src/cli/command/node/resources.rs:37-53| each name's value is its quantity or "-", and the name is gone for the rest |
| NodeResourcesCommand.Lookups | app/src/cli/command/node/resources.rs:37-53 | one value per name; the values are stated by `LookupsMeaning` |
| NodeResourcesCommand.QuantitiesOf | app/src/cli/command/node/resources.rs:38-43 | the chosen map, empty when absent; `NodeValues` states the lookups in it |
| NodeResourcesCommand.NodeValues | app/src/cli/command/node/resources.rs:37-53 | the loop removes and reads each name in turn |
| NodeResourcesCommand.ColumnsFromChosenMaps | app/src/cli/command/node/resources.rs:12-20 | a column exists exactly when some node reports that name in the chosen map |
| NodeResourcesCommand.FromNodeShape |app/src/cli/command/node/resources.rs:21-35| one node's header is NODE and the names, and its row is the node's name then each name's quantity or "-" |
| NodeResourcesCommand.FromNodesShape | app/src/cli/command/node/resources.rs:21-35 | one entry per node in order; header "NODE" then the names, values as long as the header |
| NodeResourcesCommand.FromNodes | app/src/cli/command/node/resources.rs:12-25 | one table per node over the ordered names; stated by `FromNodesShape` and `ColumnsFromChosenMaps` |
| NodeResourcesCommand.FromNode | app/src/cli/command/node/resources.rs:27-35 | header NODE then the names, row the node name then its values; stated by `FromNodeShape` |
| NodeResourcesCommand.ResourcesShown | app/src/cli/command/node/resources.rs:92-120 | the stored header and data, name "resources", and the other formats unsupported |
| CreateClusterRoleCommand.ResourceToGk | app/src/cli/command/basic/create/clusterrole.rs:143-149 | "r.g" splits at the first '.' into group "g" and kind "r"; without '.' the group is "" |
| CreateClusterRoleCommand.ResourceToGkParts | app/src/cli/command/basic/create/clusterrole.rs:143-149 | a dot-free kind and any group read back |
| CreateClusterRoleCommand.GroupKinds | app/src/cli/command/basic/create/clusterrole.rs:132-140 | one group-kind per resource, in order |
| CreateClusterRoleCommand.Push | app/src/cli/command/basic/create/clusterrole.rs:132-140 | adding a kind keeps the group keys distinct |
| CreateClusterRoleCommand.GroupsOf | app/src/cli/command/basic/create/clusterrole.rs:132-140 | the groups have distinct keys |
| CreateClusterRoleCommand.Firsts | app/src/cli/command/basic/create/clusterrole.rs:132-140 | the groups named, each exactly once, and no other |
| CreateClusterRoleCommand.KindsOf | app/src/cli/command/basic/create/clusterrole.rs:132-140 | a group never seen has no kinds |
| CreateClusterRoleCommand.LookupAt | app/src/cli/command/basic/create/clusterrole.rs:132-140 | a stored group's kinds are found |
| CreateClusterRoleCommand.GroupsInFirstOrder | app/src/cli/command/basic/create/clusterrole.rs:132-140 | groups come in first-appearance order |
| CreateClusterRoleCommand.GroupsHoldTheirKinds | app/src/cli/command/basic/create/clusterrole.rs:132-140 | each group holds its kinds in input order, duplicates kept |
| CreateClusterRoleCommand.GroupsOfSnoc | app/src/cli/command/basic/create/clusterrole.rs:132-140 | one more resource is pushed under its group |
| CreateClusterRoleCommand.Resources | app/src/cli/command/basic/create/clusterrole.rs:132-140 | the loop builds that grouping |
| CreateClusterRoleCommand.NonResourceUrls | app/src/cli/command/basic/create/clusterrole.rs:118-130 | a rule exactly when URLs are given, carrying only them and the verbs |
| CreateClusterRoleCommand.PolicyRulesMeaning | app/src/cli/command/basic/create/clusterrole.rs:102-116 | one rule per group with all verbs and names, then at most the URL rule |
| CreateClusterRoleCommand.PolicyRules | app/src/cli/command/basic/create/clusterrole.rs:102-116 | the rules; stated by `PolicyRulesMeaning` |
| CreateClusterRoleCommand.AggregationRuleOf | app/src/cli/command/basic/create/clusterrole.rs:86-98 | one label selector from the pairs |
| CreateClusterRoleCommand.ClusterRoleOf | app/src/cli/command/basic/create/clusterrole.rs:73-84 | the given name; with an aggregation rule no rules, otherwise the policy rules |
| CreateClusterRoleCommand.AggregationLabels | app/src/cli/command/basic/create/clusterrole.rs:86-98 | the selector's labels are the pairs, a later one overriding |
| CreateClusterRoleCommand.LastValueMeaning | app/src/cli/command/basic/create/clusterrole.rs:86-98 | the value kept for a key is its last |
| CreateClusterRoleCommand.Exec | app/src/cli/command/basic/create/clusterrole.rs:60-71 | the created role is echoed, a create error propagates |
| KeyValues.PairRoundTrip | rk-args/src/kv.rs:20-26 | a pair reads back its key and value, and parts read back as a pair |
| KeyValues.AsPair | rk-args/src/kv.rs:20-22 | the key and the value as a pair; `PairRoundTrip` states that it inverts `FromParts` |
| KeyValues.FromParts | rk-args/src/kv.rs:61-66 | a key-value from a key and a value; `PairRoundTrip` states that `AsPair` recovers them |
| KeyValues.FromText | rk-args/src/kv.rs:48-53 | fails exactly without '=', with "Invalid key=value: no '=' in <text>"; else key '=' value is the text, the key free of '=' |
| KeyValues.FromTextRoundTrip | rk-args/src/kv.rs:131-136 | a key free of '=' and any value come back from `key=value` |
| KeyValues.FromTextRefuses | rk-args/src/kv.rs:138-142 | "aaa-bbb" is refused with its message |
| KeyValues.FromLines | rk-args/src/kv.rs:55-59 | succeeds exactly when every line has '='; one entry per line; else the first bad line's error |
| KeyValues.FromLinesTrailingNewline | rk-args/src/kv.rs:144-152 | a trailing line feed adds no entry |
| KeyValues.PathFromStr | rk-args/src/kv.rs:115-121 | `from_text`, then the path conversion; errors unchanged |
| KeyValues.ToPath | rk-args/src/kv.rs:107-113 | the same key with the value read as a path; `PathFromStrParts` states the result |
| KeyValues.PathFromStrParts | rk-args/src/kv.rs:107-121 | the text after the first '=' is the path under the key |
| KeyValues.FromPath | rk-args/src/kv.rs:79-84 | keyed by the file name, refused without one |
| KeyValues.FromPathFileName | rk-args/src/kv.rs:154-160 | a bare file name keys itself, and a name under a directory keys by that name |
| KeyValues.FromPathRoot | rk-args/src/kv.rs:161-165 | "/" has no file name |
| KeyValues.PathToKey | rk-args/src/kv.rs:123-125 | the file name of the path, if any; `FromPathFileName` and `FromPathRoot` state both cases |
| KeyValues.MatchLabels | app/src/cli/command/basic/create/clusterrole.rs:86-98 | every pair's key is a label, with its last value |
| KeyValues.LabelMap | app/src/cli/command/basic/create/clusterrole.rs:86-98 | the keys present are the pairs' keys, each with its last value |
| KeyValues.Selector | rk-args/src/kv.rs:44-46 | exactly the one label of the key and value |
| Features.FromSample | features/src/lib.rs:25-34 | none exactly without "name" or "stage"; both copied; enabled exactly for the gauge 1 |
| Features.FromScrapeAppend | features/src/lib.rs:16-23 | the scrape order is kept |
| Features.FromScrapeOne | features/src/lib.rs:16-23 | one sample gives its feature exactly when it is of the metric with both labels |
| Features.FromScrapeMeaning | features/src/lib.rs:14-23 | every feature comes from a sample of the metric, and every such sample with both labels gives one |
| Features.FromScrape | features/src/lib.rs:16-23 | the features of a scrape; stated by `FromScrapeAppend`, `FromScrapeOne` and `FromScrapeMeaning` |

## Left out

- Network, file and clock access are parameters of the functions that need them. Each is an abstract function in the model:
  - the live discovery client's answers;
  - the files the cache loads;
  - the fetch of `get`;
  - the delete and create calls;
  - the raw GET;
  - the current time;
  - jiff's span rounding.
  `Kubeapi::new`, `raw_get`, `metrics`, `info`, `version`, `CanI::ask`, `WhoAmI::ask`, `NamedResource::delete` and the cluster-info command are not part of this model.
- Printing is modelled as the sequence of texts printed; the `Ui` plumbing is not part of this model.
- Commands.DeleteEach: `printed` holds only what `delete_resources` prints itself; the object, status or error that `NamedResource::delete` (rk-resource/src/named.rs:29-33) prints for each request is left out, because that function is not part of this model.
- Serialisation (serde json and yaml), tabled's text layout, kube's `GroupVersion` parsing and `api_version`, and URL host extraction are opaque parameters. Only the rows, style and padding handed to the layout are modelled.
- `todo!` and `unreachable!` bodies are outcomes (`Unsupported`, `Panic`), not aborts. The same goes for index panics such as `remove(0)` on an empty vector.
- Floating-point sample values are reals: NaN is not modelled. Histogram and summary payloads are not modelled.
- The `k8s_openapi_ext` builders (`api_group`, `resources`, `verbs`, `resource_names`, `match_labels`, `ClusterRole::new`) are taken to set exactly the named fields.
- Rust's `Path::file_name` is modelled on '/'-separated text. `OsStr` encoding and platform separators are not modelled.
- `KeyValues.AsPair` is one function for both `as_pair` and `into_pair`, since a value model does not tell a borrow from a move.
- `KeyValue::load`, `from_direntry`, the base64 conversions and `value_parser` are not modelled (file access, foreign encoding, clap plumbing).
- `ImageInfo::print` and the node command's listing are not modelled (printing only).
- The `Resource::Other` list and get, the bare-type delete and deletion from a file reach `todo!`; they appear only as `Unsupported` outcomes.
- The discovery fan-out is awaited one request at a time in the code; it is modelled as an ordered loop.
- `Cache::took` is a parameter; no timing is modelled.
- Discovery.ScopeOf: the conversion that pairs a discovered entry with its scope belongs to a crate that is not part of this model. The scope of every `Resource::Other` is reconstructed from the entry's `namespaced` flag, and CanI namespacing and dynamic API routing rest on that reconstruction.
- Strings.ToLower: lower-cases ASCII letters only. Rust's `str::to_lowercase` is Unicode-aware and can change a text's length; the length contracts of `Show.NameOf` and `Kubeapi.FullName` hold for the ASCII version.
- Status.SumRestarts: sums over unbounded integers. The source sums `i32` counts, which panics on overflow in a debug build and wraps in a release build; `Status.RestartsBounds` holds only while the sum fits in `i32`.
- Images.FindCommon: compares host lengths in characters. `find_common` compares `len()`, which counts UTF-8 bytes; the two agree on ASCII hosts.
- NodeResourcesCommand.LookupsMeaning: states the quantity-or-"-" lookup only for distinct names. `resource_names` never repeats a name; a repeated name would read "-" the second time, since the entry was removed.
- Superseded copies that repeat logic already modelled are not modelled separately:
  - `src/resource.rs` and the older named-resource files;
  - the older `Output` trait in `src/output*`;
  - the older show implementations for config maps, pods and object lists;
  - the older `Kubectl` handles;
  - the older `api_resource`, `get` and `cani` commands.
