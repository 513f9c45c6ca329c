/** Where the discovery cache lives, and the kubeconfig selection flags. */
module KubeOptions {
  import opened Wrappers
  import opened Strings
  import opened Paths

  datatype KubeapiOptions = KubeapiOptions(
    cacheDir: Option<Path>,
    asUser: Option<string>,
    asGroup: Option<seq<string>>,
    asUid: Option<string>)

  /** kube's `KubeconfigError`, reduced to the one variant this code raises. */
  datatype KubeconfigError = MissingClusterUrl

  /**
   * `cache_dir`: the explicit directory, else the home directory (a parameter:
   * the lookup is an environment query), else the empty path; then `.kube/cache`
   * below it.
   */
  function CacheDir(options: KubeapiOptions, home: Option<Path>): Path {
    var base := if options.cacheDir.Some? then options.cacheDir.value else home.UnwrapOr([]);
    JoinPath(JoinPath(base, ".kube"), "cache")
  }

  /** The cache lives in `<base>/.kube/cache`, or in the relative `.kube/cache` when there is no base. */
  lemma CacheDirLayout(options: KubeapiOptions, home: Option<Path>)
    ensures var base := if options.cacheDir.Some? then options.cacheDir.value else home.UnwrapOr([]);
            (base == [] ==> CacheDir(options, home) == ".kube/cache")
            && (base != [] && base[|base| - 1] != '/' ==> CacheDir(options, home) == base + "/.kube/cache")
            && (base != [] && base[|base| - 1] == '/' ==> CacheDir(options, home) == base + ".kube/cache")
  {
    var base := if options.cacheDir.Some? then options.cacheDir.value else home.UnwrapOr([]);
    KubeCacheBelow(base);
  }

  /** `.kube/cache` joined below a base directory, one separator between. */
  lemma KubeCacheBelow(base: Path)
    ensures base == [] ==> JoinPath(JoinPath(base, ".kube"), "cache") == ".kube/cache"
    ensures base != [] && base[|base| - 1] != '/' ==> JoinPath(JoinPath(base, ".kube"), "cache") == base + "/.kube/cache"
    ensures base != [] && base[|base| - 1] == '/' ==> JoinPath(JoinPath(base, ".kube"), "cache") == base + ".kube/cache"
  {
    var kube := JoinPath(base, ".kube");
    assert ".kube"[0] != '/' && "cache"[0] != '/';
    if base == [] {
      assert kube == ".kube";
    } else if base[|base| - 1] != '/' {
      assert kube == base + "/.kube";
      assert kube[|kube| - 1] == 'e';
      assert kube + "/" + "cache" == base + "/.kube/cache";
    } else {
      assert kube == base + ".kube";
      assert kube[|kube| - 1] == 'e';
      assert kube + "/" + "cache" == base + ".kube/cache";
    }
  }

  /** The cache directory never ends with a separator. */
  lemma CacheDirEndsWithCache(options: KubeapiOptions, home: Option<Path>)
    ensures var dir := CacheDir(options, home); |dir| >= 5 && dir[|dir| - 5..] == "cache"
  {
    CacheDirLayout(options, home);
  }

  /**
   * `discovery_cache_for_config`: `<cache dir>/discovery/<host>`, where `host`
   * is the host of the configured cluster URL (URL parsing is not modelled).
   */
  function DiscoveryCacheForConfig(options: KubeapiOptions, home: Option<Path>, host: Option<string>): (r: Result<Path, KubeconfigError>)
    ensures r.Err? <==> host.None?
    ensures r.Ok? && host.value != [] && host.value[0] != '/' ==>
              r.value == CacheDir(options, home) + "/discovery/" + host.value
  {
    match host
    case None => Err(MissingClusterUrl)
    case Some(server) =>
      var cache := CacheDir(options, home);
      CacheDirEndsWithCache(options, home);
      assert cache[|cache| - 1] == 'e';
      var discovery := JoinPath(cache, "discovery");
      assert discovery == cache + "/discovery";
      assert discovery[|discovery| - 1] == 'y';
      Ok(JoinPath(discovery, server))
  }

  /** The `--cluster`, `--context` and `--user` flags. */
  datatype KubeConfigOptions = KubeConfigOptions(cluster: Option<string>, context: Option<string>, user: Option<string>)

  /** kube's `config::KubeConfigOptions`: the same three selections. */
  datatype KubeKubeConfigOptions = KubeKubeConfigOptions(context: Option<string>, cluster: Option<string>, user: Option<string>)

  /** `kube_config_options`: each selection carried over unchanged. */
  function ToKubeConfigOptions(o: KubeConfigOptions): (r: KubeKubeConfigOptions)
    ensures r.context == o.context && r.cluster == o.cluster && r.user == o.user
  {
    KubeKubeConfigOptions(o.context, o.cluster, o.user)
  }
}
