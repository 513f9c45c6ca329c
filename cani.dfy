/**
 * `auth can-i`: the object argument is either a non-resource URL or a resource
 * reference, and the access review's spec carries the attributes of exactly
 * one of the two.
 */
module CanI {
  import opened Wrappers
  import opened Strings
  import opened Discovery
  import opened Namespaces
  import opened Resources
  import Kubeapi

  datatype Object = ResourceObject(arg: ResourceArg) | NonResourceUrl(path: string)

  datatype ResourceAttributes = ResourceAttributes(
    verb: Option<string>,
    group: Option<string>,
    version: Option<string>,
    resource: Option<string>,
    subresource: Option<string>,
    name: Option<string>,
    namespace: Option<string>)

  datatype NonResourceAttributes = NonResourceAttributes(path: Option<string>, verb: Option<string>)

  datatype SelfSubjectAccessReviewSpec = SelfSubjectAccessReviewSpec(
    resourceAttributes: Option<ResourceAttributes>,
    nonResourceAttributes: Option<NonResourceAttributes>)

  /**
   * `Object::from_text`: a text starting with '/' is a non-resource URL taken
   * as is; any other text is resolved as a single resource token and the last
   * reference it yields is kept.
   */
  function FromText(text: string, k: Kubeapi.Kubeapi, syntax: GvSyntax): (r: Result<Object, InvalidResourceSpec>)
    ensures StartsWith(text, "/") ==> r == Ok(NonResourceUrl(text))
    ensures !StartsWith(text, "/") ==>
              (r.Ok? <==> FromStrings([text], k, syntax).Ok? && FromStrings([text], k, syntax).value != [])
    ensures !StartsWith(text, "/") && r.Ok? ==>
              var args := FromStrings([text], k, syntax).value;
              r.value == ResourceObject(args[|args| - 1])
  {
    if StartsWith(text, "/") then Ok(NonResourceUrl(text))
    else
      match FromStrings([text], k, syntax)
      case Err(e) => Err(e)
      case Ok(args) => if args == [] then Err(InvalidResourceSpec) else Ok(ResourceObject(args[|args| - 1]))
  }

  /** A comma-separated type list names several types, and only the last is asked about. */
  lemma FromTextKeepsLastType(k: Kubeapi.Kubeapi, syntax: GvSyntax)
    ensures FromText("pod,node", k, syntax) == Ok(ResourceObject(TypeOnly(Nodes)))
  {
    assert "pod,node" == "pod" + [','] + "node";
    FromTextLastOfTwo("pod", "node", k, syntax);
  }

  lemma FromTextLastOfTwo(a: string, b: string, k: Kubeapi.Kubeapi, syntax: GvSyntax)
    requires a != [] && a[0] != '/'
    requires ',' !in a && ',' !in b && '/' !in a && '/' !in b
    requires WithCache(a, k, syntax).Some? && WithCache(b, k, syntax).Some?
    ensures FromText(a + [','] + b, k, syntax) == Ok(ResourceObject(TypeOnly(WithCache(b, k, syntax).value)))
  {
    var text := a + [','] + b;
    assert text[..1] == [a[0]];
    assert !StartsWith(text, "/");
    TwoTypes(a, b, k, syntax);
    var args := FromStrings([text], k, syntax).value;
    assert args[|args| - 1] == TypeOnly(WithCache(b, k, syntax).value);
  }

  /** A URL path is never resolved, whatever the cache holds. */
  lemma FromTextUrl(path: string, k: Kubeapi.Kubeapi, syntax: GvSyntax)
    ensures FromText("/" + path, k, syntax) == Ok(NonResourceUrl("/" + path))
  {
    assert ("/" + path)[..1] == "/";
  }

  /**
   * `resource_attributes`: verb, group, version and plural from the reference's
   * type, an empty name and subresource, and the namespace only for a
   * namespaced type.
   */
  function ResourceAttributesOf(k: Kubeapi.Kubeapi, arg: ResourceArg, verb: string): (ra: ResourceAttributes)
    ensures var (scope, resource) := ApiResourceOf(ArgResource(arg));
            ra.verb == Some(verb)
            && ra.group == Some(resource.group)
            && ra.version == Some(resource.version)
            && ra.resource == Some(resource.plural)
            && ra.name == Some("") && ra.subresource == Some("")
            && (scope == Cluster ==> ra.namespace.None?)
            && (scope == Namespaced ==> ra.namespace == NamespaceName(k.namespace))
  {
    var (scope, resource) := ApiResourceOf(ArgResource(arg));
    var namespace := match scope
      case Cluster => None
      case Namespaced => NamespaceName(k.namespace);
    ResourceAttributes(Some(verb), Some(resource.group), Some(resource.version), Some(resource.plural), Some(""), Some(""), namespace)
  }

  /** The object's name plays no part: a named reference asks the same as its bare type. */
  lemma ResourceAttributesIgnoreName(k: Kubeapi.Kubeapi, nr: NamedResource, verb: string)
    ensures ResourceAttributesOf(k, TypeAndName(nr), verb) == ResourceAttributesOf(k, TypeOnly(nr.resource), verb)
  {
  }

  /** A namespace is sent only for a namespaced type and an explicitly chosen namespace. */
  lemma ResourceAttributesNamespace(k: Kubeapi.Kubeapi, arg: ResourceArg, verb: string)
    ensures ResourceAttributesOf(k, arg, verb).namespace.Some? <==>
              ApiResourceOf(ArgResource(arg)).0 == Namespaced && k.namespace.Named?
  {
  }

  /** `non_resource_attributes` */
  function NonResourceAttributesOf(path: string, verb: string): (na: NonResourceAttributes)
    ensures na.path == Some(path) && na.verb == Some(verb)
  {
    NonResourceAttributes(Some(path), Some(verb))
  }

  /** `spec`: exactly one of the two attribute sets, matching the object's kind. */
  function Spec(obj: Object, k: Kubeapi.Kubeapi, verb: string): (s: SelfSubjectAccessReviewSpec)
    ensures s.resourceAttributes.Some? <==> s.nonResourceAttributes.None?
    ensures s.resourceAttributes.Some? <==> obj.ResourceObject?
    ensures obj.ResourceObject? ==> s.resourceAttributes == Some(ResourceAttributesOf(k, obj.arg, verb))
    ensures obj.NonResourceUrl? ==> s.nonResourceAttributes == Some(NonResourceAttributesOf(obj.path, verb))
  {
    match obj
    case ResourceObject(arg) => SelfSubjectAccessReviewSpec(Some(ResourceAttributesOf(k, arg, verb)), None)
    case NonResourceUrl(path) => SelfSubjectAccessReviewSpec(None, Some(NonResourceAttributesOf(path, verb)))
  }
}
