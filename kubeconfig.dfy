/**
 * The kubeconfig file as the client reads it, and the repair applied on load:
 * a `current-context` that names no context is replaced by the first context.
 */
module Kubeconfigs {
  import opened Wrappers

  datatype Context = Context(cluster: string, user: Option<string>, namespace: Option<string>)
  datatype NamedContext = NamedContext(name: string, context: Option<Context>)
  datatype NamedCluster = NamedCluster(name: string, server: Option<string>)
  datatype NamedAuthInfo = NamedAuthInfo(name: string)

  datatype Kubeconfig = Kubeconfig(
    currentContext: Option<string>,
    contexts: seq<NamedContext>,
    clusters: seq<NamedCluster>,
    authInfos: seq<NamedAuthInfo>)

  /** `KubeconfigExt::get_context`: the first context carrying exactly that name. */
  function GetContext(kc: Kubeconfig, name: string): (r: Option<NamedContext>)
    ensures r.None? <==> forall i :: 0 <= i < |kc.contexts| ==> kc.contexts[i].name != name
    ensures r.Some? ==> exists i :: 0 <= i < |kc.contexts| && kc.contexts[i] == r.value && r.value.name == name
                                  && forall j :: 0 <= j < i ==> kc.contexts[j].name != name
  {
    FirstNamed(kc.contexts, name)
  }

  function FirstNamed(contexts: seq<NamedContext>, name: string): (r: Option<NamedContext>)
    ensures r.None? <==> forall i :: 0 <= i < |contexts| ==> contexts[i].name != name
    ensures r.Some? ==> exists i :: 0 <= i < |contexts| && contexts[i] == r.value && r.value.name == name
                                  && forall j :: 0 <= j < i ==> contexts[j].name != name
  {
    if contexts == [] then None
    else if contexts[0].name == name then Some(contexts[0])
    else
      var r := FirstNamed(contexts[1..], name);
      assert r.Some? ==> exists i :: 1 <= i < |contexts| && contexts[i] == r.value
                          && forall j :: 0 <= j < i ==> contexts[j].name != name by {
        if r.Some? {
          var k :| 0 <= k < |contexts| - 1 && contexts[1..][k] == r.value
                   && forall j :: 0 <= j < k ==> contexts[1..][j].name != name;
          forall j | 0 <= j < k + 1 ensures contexts[j].name != name {
            if j > 0 { assert contexts[j] == contexts[1..][j - 1]; }
          }
        }
      }
      r
  }

  /** `KubeconfigExt::current_context`: the context `current-context` names, if it exists. */
  function CurrentContext(kc: Kubeconfig): (r: Option<NamedContext>)
    ensures r.Some? <==> kc.currentContext.Some? && exists i :: 0 <= i < |kc.contexts| && kc.contexts[i].name == kc.currentContext.value
    ensures r.Some? ==> r.value.name == kc.currentContext.value
  {
    match kc.currentContext
    case None => None
    case Some(name) => GetContext(kc, name)
  }

  /** `sanitize_kubeconfig` */
  function Sanitize(kc: Kubeconfig): Kubeconfig {
    if CurrentContext(kc).None? then
      kc.(currentContext := if kc.contexts == [] then None else Some(kc.contexts[0].name))
    else kc
  }

  /** A `current-context` that names an existing context is left alone. */
  lemma SanitizeKeepsValid(kc: Kubeconfig)
    requires CurrentContext(kc).Some?
    ensures Sanitize(kc) == kc
  {
  }

  /**
   * Otherwise only `current-context` changes: it becomes the first context's
   * name, or nothing when there are no contexts.
   */
  lemma SanitizeRepairs(kc: Kubeconfig)
    requires CurrentContext(kc).None?
    ensures Sanitize(kc).currentContext == if kc.contexts == [] then None else Some(kc.contexts[0].name)
    ensures Sanitize(kc).(currentContext := kc.currentContext) == kc
  {
  }

  /** After repair a current context exists exactly when some context does, and repairing again changes nothing. */
  lemma SanitizeIdempotent(kc: Kubeconfig)
    ensures CurrentContext(Sanitize(kc)).Some? <==> kc.contexts != []
    ensures Sanitize(Sanitize(kc)) == Sanitize(kc)
  {
    var s := Sanitize(kc);
    if kc.contexts != [] && CurrentContext(kc).None? {
      assert s.contexts[0].name == s.currentContext.value;
    }
  }

  /** `get_clusters` */
  function Clusters(kc: Kubeconfig): seq<NamedCluster> { kc.clusters }

  /** `get_contexts` */
  function Contexts(kc: Kubeconfig): seq<NamedContext> { kc.contexts }

  /** `get_users` */
  function Users(kc: Kubeconfig): seq<NamedAuthInfo> { kc.authInfos }

  /** Repairing the configuration touches only `current-context`: the getters read the lists of the file. */
  lemma SanitizeKeepsLists(kc: Kubeconfig)
    ensures Clusters(Sanitize(kc)) == kc.clusters
    ensures Contexts(Sanitize(kc)) == kc.contexts
    ensures Users(Sanitize(kc)) == kc.authInfos
  {
  }
}
