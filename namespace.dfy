/** The namespace selection of a command: every namespace, the context's default, or one by name. */
module Namespaces {
  import opened Wrappers

  datatype Namespace = All | Default | Named(name: string)

  /** `#[default]` */
  const DefaultNamespace: Namespace := Default

  /** `Namespace::new(all_namespaces, namespace)` */
  function New(allNamespaces: bool, namespace: Option<string>): (r: Namespace)
    ensures allNamespaces ==> r == All
    ensures !allNamespaces && namespace.None? ==> r == Default
    ensures !allNamespaces && namespace.Some? ==> r == Named(namespace.value)
  {
    if allNamespaces then All
    else match namespace
      case None => Default
      case Some(n) => Named(n)
  }

  /** `namespace()`: the explicit name, if one was chosen. */
  function NamespaceName(ns: Namespace): (r: Option<string>)
    ensures r.Some? <==> ns.Named?
    ensures ns.Named? ==> r == Some(ns.name)
  {
    match ns
    case All => None
    case Default => None
    case Named(n) => Some(n)
  }

  /** Building from flags and reading the name back give the name given, unless every namespace was asked for. */
  lemma NewNameRoundTrip(allNamespaces: bool, namespace: Option<string>)
    ensures NamespaceName(New(allNamespaces, namespace)) == if allNamespaces then None else namespace
  {
  }
}
