/**
 * What each shown kind contributes to the `Show` engine (header, data row,
 * json, yaml, name, and the overridden tables and outputs), the `Vec<T>` and
 * `ObjectList<K>` lists, and `output`, the dispatch on the output format.
 *
 * The Rust code implements the `Show` trait once per type; here the shown
 * values form one closed datatype and each trait method is a function that
 * matches on it. Serialisation, table layout, title-case tables, the clock and
 * jiff's rounding are foreign and come in through `Env`.
 */
module Render {
  import opened Wrappers
  import opened Strings
  import opened Faults
  import opened Fallible
  import opened Show
  import opened Status
  import CanI

  // ---------------------------------------------------------------------------
  // Objects

  datatype ManagedFieldsEntry = ManagedFieldsEntry(manager: string, operation: string)

  datatype ObjectMeta = ObjectMeta(
    name: Option<string>,
    generateName: Option<string>,
    namespace: Option<string>,
    creationTimestamp: Option<int>,
    managedFields: Option<seq<ManagedFieldsEntry>>)

  datatype ListMeta = ListMeta(resourceVersion: Option<string>, continueToken: Option<string>)

  datatype NodeSystemInfo = NodeSystemInfo(
    architecture: string, bootId: string, containerRuntimeVersion: string, kernelVersion: string,
    kubeProxyVersion: string, kubeletVersion: string, machineId: string, operatingSystem: string,
    osImage: string, systemUuid: string)

  /** The quantities a node reports, by resource name. */
  type Quantities = map<string, string>

  datatype NodeStatus = NodeStatus(capacity: Option<Quantities>, allocatable: Option<Quantities>, nodeInfo: Option<NodeSystemInfo>)

  datatype SubjectAccessReviewStatus = SubjectAccessReviewStatus(
    allowed: bool, denied: Option<bool>, evaluationError: Option<string>, reason: Option<string>)

  /** The `extra` map of a user, in its (key-ordered) iteration order. */
  datatype UserInfo = UserInfo(
    username: Option<string>, uid: Option<string>, groups: Option<seq<string>>,
    extra: Option<seq<(string, seq<string>)>>)

  datatype SelfSubjectReviewStatus = SelfSubjectReviewStatus(userInfo: Option<UserInfo>)

  /** The part of an object that depends on its kind. */
  datatype Body =
    | ConfigMapBody(data: Option<map<string, string>>, binaryData: Option<map<string, string>>)
    | NodeBody(status: Option<NodeStatus>)
    | NamespaceBody(phase: Option<string>)
    | ComponentStatusBody(component: ComponentStatus)
    | AccessReviewBody(spec: CanI.SelfSubjectAccessReviewSpec, review: Option<SubjectAccessReviewStatus>)
    | SubjectReviewBody(subject: Option<SelfSubjectReviewStatus>)
      /** A kind without a table of its own (a secret, a cluster role, …), only ever echoed as created. */
    | OtherKind(kind: string)

  datatype KubeObject = KubeObject(meta: ObjectMeta, body: Body)

  /** The objects of a kind that implements `Show`. */
  type ShownObject = o: KubeObject | !o.body.OtherKind?
    witness KubeObject(ObjectMeta(None, None, None, None, None), NamespaceBody(None))

  /** `K::kind`, the kind's name. */
  function Kind(body: Body): string {
    match body
    case ConfigMapBody(_, _) => "ConfigMap"
    case NodeBody(_) => "Node"
    case NamespaceBody(_) => "Namespace"
    case ComponentStatusBody(_) => "ComponentStatus"
    case AccessReviewBody(_, _) => "SelfSubjectAccessReview"
    case SubjectReviewBody(_) => "SelfSubjectReview"
    case OtherKind(kind) => kind
  }

  /** `name_any`: the name, else the generate-name prefix, else "". */
  function NameAny(meta: ObjectMeta): string {
    if meta.name.Some? then meta.name.value else meta.generateName.UnwrapOr("")
  }

  // ---------------------------------------------------------------------------
  // Stripping managed fields

  /**
   * `maybe_strip_managed_fields`: the object itself when managed fields are
   * shown, else a copy that differs only in having no managed fields.
   */
  function MaybeStrip(o: KubeObject, params: ShowParams): (r: KubeObject)
    ensures params.showManagedFields ==> r == o
    ensures !params.showManagedFields ==> r.meta.managedFields.None?
    ensures r.(meta := r.meta.(managedFields := o.meta.managedFields)) == o
  {
    if params.showManagedFields then o else o.(meta := o.meta.(managedFields := None))
  }

  /** Stripping twice strips no more than once. */
  lemma MaybeStripIdempotent(o: KubeObject, params: ShowParams)
    ensures MaybeStrip(MaybeStrip(o, params), params) == MaybeStrip(o, params)
  {
  }

  /** Every item with its managed fields removed, in order. */
  function StripAll(items: seq<KubeObject>): (r: seq<KubeObject>)
    ensures |r| == |items|
    ensures forall i :: 0 <= i < |items| ==> r[i] == MaybeStrip(items[i], ShowParams(false, false, false))
  {
    seq(|items|, i requires 0 <= i < |items| => MaybeStrip(items[i], ShowParams(false, false, false)))
  }

  /** `objects.iter_mut().for_each(|k| k.meta_mut().managed_fields = None)` on the cloned items. */
  method StripItemsInPlace(items: array<KubeObject>)
    modifies items
    ensures items[..] == StripAll(old(items[..]))
  {
    var i := 0;
    while i < items.Length
      invariant 0 <= i <= items.Length
      invariant forall j :: 0 <= j < i ==> items[j] == MaybeStrip(old(items[j]), ShowParams(false, false, false))
      invariant forall j :: i <= j < items.Length ==> items[j] == old(items[j])
    {
      items[i] := items[i].(meta := items[i].meta.(managedFields := None));
      i := i + 1;
    }
  }

  // ---------------------------------------------------------------------------
  // Shown values

  /** The values the engine renders, one variant per `Show` implementation. */
  datatype Renderable =
    | Object(obj: ShownObject)
      /** `Created<K>`: the echo of a created object. */
    | Created(created: KubeObject)
      /** `ObjectList<K>`: a listed page of objects. */
    | ObjectList(listMeta: ListMeta, items: seq<ShownObject>)
    | SystemInfo(info: NodeSystemInfo)
      /** `(String, String)` */
    | Pair(key: string, value: string)
      /** The node resources table of one node. */
    | NodeResources(resources: seq<string>, values: seq<string>)
      /** `Vec<T>` */
    | Items(elements: seq<Renderable>)

  /** What json and yaml serialise. */
  datatype Document =
    | ObjectDoc(object: KubeObject)
    | ListDoc(listMeta: ListMeta, objects: seq<KubeObject>)
    | InfoDoc(info: NodeSystemInfo)

  /**
   * The foreign parts: the clock (whole seconds), jiff's rounding of a span of
   * seconds into components, serde's compact and pretty json and its yaml
   * (each already `unwrap_or_default`), the title-case table of a serialised
   * value, and tabled's layout of rows under a style and padding.
   */
  datatype Env = Env(
    now: int,
    round: int -> Option<SpanParts>,
    json: Document -> string,
    jsonPretty: Document -> string,
    yaml: Document -> string,
    titleCase: NodeSystemInfo -> Rows,
    layout: (Rows, Style, Padding) -> string)

  /** `age` of the older engine: chrono's signed difference from now. */
  function LegacyAge(meta: ObjectMeta, env: Env): string {
    if meta.creationTimestamp.Some? then HumanTime(env.now - meta.creationTimestamp.value) else ""
  }

  /** `age` of the newer engine: jiff's rounded difference from now. */
  function CurrentAge(meta: ObjectMeta, env: Env): string {
    if meta.creationTimestamp.Some? then HumanSpan(env.round(env.now - meta.creationTimestamp.value)) else ""
  }

  const NotSupported := "This method is not supported yet"

  /** The header row of a shown object. */
  function ObjectHeader(o: ShownObject, fmt: OutputFormat): Result<Row, Fault> {
    match o.body
    case ConfigMapBody(_, _) =>
      if fmt.IsTable() then Ok(["NAMESPACE", "NAME", "DATA", "AGE"]) else Err(Unsupported("ConfigMap header"))
    case NodeBody(_) =>
      if fmt == Normal then Ok(["NAMESPACE", "NAME"])
      else if fmt == Wide then Ok(["NAMESPACE", "NAME", "AGE"])
      else Err(Unsupported("Node header"))
    case NamespaceBody(_) =>
      if fmt.IsTable() then Ok(["NAME", "STATUS", "AGE"]) else Err(Unsupported("Namespace header"))
    case ComponentStatusBody(_) =>
      if fmt.IsTable() then Ok(["NAME", "STATUS", "MESSAGE", "ERROR"]) else Err(Unsupported("ComponentStatus header"))
    case AccessReviewBody(_, _) => Ok([])
    case SubjectReviewBody(_) => Ok(["ATTRIBUTE", "VALUE"])
    case OtherKind(_) => assert false; Ok([])
  }

  /** The STATUS, MESSAGE and ERROR cells of a component status. */
  function ComponentCells(cs: ComponentStatus): (string, string, string) {
    match Healthy(cs)
    case Some(healthy) =>
      (if IsTrue(healthy) then "Healthy" else "Unhealthy", healthy.message.UnwrapOr(""), healthy.error.UnwrapOr(""))
    case None => ("Unknown", "", "")
  }

  /** The data row of a shown object. */
  function ObjectData(o: ShownObject, params: ShowParams, fmt: OutputFormat, env: Env): Result<Row, Fault> {
    var name := NameOf(Kind(o.body), NameAny(o.meta), params);
    var namespace := o.meta.namespace.UnwrapOr("");
    match o.body
    case ConfigMapBody(data, binaryData) =>
      var count := (if data.Some? then |data.value| else 0) + (if binaryData.Some? then |binaryData.value| else 0);
      if fmt.IsTable() then Ok([namespace, name, NatToString(count), CurrentAge(o.meta, env)])
      else Err(Unsupported("ConfigMap data"))
    case NodeBody(_) =>
      if fmt == Normal then Ok([namespace, name])
      else if fmt == Wide then Ok([namespace, name, CurrentAge(o.meta, env)])
      else Err(Unsupported("Node data"))
    case NamespaceBody(phase) =>
      if fmt.IsTable() then Ok([name, phase.UnwrapOr("Unknown"), LegacyAge(o.meta, env)])
      else Err(Unsupported("Namespace data"))
    case ComponentStatusBody(cs) =>
      var (status, message, error) := ComponentCells(cs);
      if fmt.IsTable() then Ok([name, status, message, error]) else Err(Unsupported("ComponentStatus data"))
    case AccessReviewBody(_, _) => Err(Panic("unreachable"))
    case SubjectReviewBody(_) => Err(Panic("unreachable"))
    case OtherKind(_) => assert false; Ok([])
  }

  /** `header` */
  function Header(r: Renderable, fmt: OutputFormat): Result<Row, Fault> {
    match r
    case Object(o) => ObjectHeader(o, fmt)
    case Created(_) => Ok([])
    case ObjectList(_, _) => Err(Unsupported("Not supported on Vec<T>"))
    case SystemInfo(_) => Err(Unsupported("NodeSystemInfo header"))
    case Pair(_, _) => Ok(["Key", "Value"])
    case NodeResources(resources, _) => Ok(resources)
    case Items(_) => Err(Unsupported("Not supported on Vec<T>"))
  }

  /** `data` */
  function Data(r: Renderable, params: ShowParams, fmt: OutputFormat, env: Env): Result<Row, Fault> {
    match r
    case Object(o) => ObjectData(o, params, fmt, env)
    case Created(o) => Ok([ToLower(Kind(o.body)) + "/" + NameAny(o.meta) + " created"])
    case ObjectList(_, _) => Err(Unsupported("Not supported on Vec<T>"))
    case SystemInfo(_) => Err(Unsupported("NodeSystemInfo data"))
    case Pair(key, value) => Ok([key, value])
    case NodeResources(_, values) => Ok(values)
    case Items(_) => Err(Unsupported("Not supported on Vec<T>"))
  }

  /** The trait's default `normal` and `wide`: the header row, then the data row. */
  function DefaultTable(r: Renderable, params: ShowParams, fmt: OutputFormat, env: Env): (t: Result<Rows, Fault>)
    ensures t.Ok? <==> Header(r, fmt).Ok? && Data(r, params, fmt, env).Ok?
    ensures t.Ok? ==> t.value == [Header(r, fmt).value, Data(r, params, fmt, env).value]
    ensures Header(r, fmt).Err? ==> t == Err(Header(r, fmt).error)
  {
    match Header(r, fmt)
    case Err(e) => Err(e)
    case Ok(header) =>
      match Data(r, params, fmt, env)
      case Err(e) => Err(e)
      case Ok(data) => Ok([header, data])
  }

  /**
   * `Vec<T>::normal` and `wide`: the first element's header (none for an
   * empty list), then one data row per element in order.
   */
  function VecTable(xs: seq<Renderable>, params: ShowParams, fmt: OutputFormat, env: Env): (t: Result<Rows, Fault>)
    ensures xs == [] ==> t == Ok([])
    ensures xs != [] && t.Ok? ==>
              Header(xs[0], fmt).Ok? && |t.value| == |xs| + 1 && t.value[0] == Header(xs[0], fmt).value
              && forall i :: 0 <= i < |xs| ==> Data(xs[i], params, fmt, env).Ok? && t.value[i + 1] == Data(xs[i], params, fmt, env).value
    ensures xs != [] ==> (t.Ok? <==> Header(xs[0], fmt).Ok? && forall i :: 0 <= i < |xs| ==> Data(xs[i], params, fmt, env).Ok?)
  {
    if xs == [] then Ok([])
    else
      match Header(xs[0], fmt)
      case Err(e) => Err(e)
      case Ok(header) =>
        match TryCollect(xs, x => Data(x, params, fmt, env))
        case Err(e) => Err(e)
        case Ok(rows) => Ok([header] + rows)
  }

  /** The objects of a list page as shown values. */
  function ListItems(items: seq<ShownObject>): (xs: seq<Renderable>)
    ensures |xs| == |items| && forall i :: 0 <= i < |items| ==> xs[i] == Object(items[i])
  {
    seq(|items|, i requires 0 <= i < |items| => Object(items[i]))
  }

  /** `username`, `uid`, `groups` and `extra` of a self-subject review, in that order. */
  function SubjectRows(status: Option<SelfSubjectReviewStatus>): (rows: Rows)
    ensures status.None? || status.value.userInfo.None? ==> rows == []
    ensures forall i :: 0 <= i < |rows| ==> |rows[i]| == 2
  {
    if status.None? || status.value.userInfo.None? then []
    else
      var info := status.value.userInfo.value;
      (if info.username.Some? then [["Username", info.username.value]] else [])
      + (if info.uid.Some? then [["Uid", info.uid.value]] else [])
      + (if info.groups.Some? then [["Groups", "[" + Join(info.groups.value, ",") + "]"]] else [])
      + (if info.extra.Some? then ExtraRows(info.extra.value) else [])
  }

  /** One row per extra entry, "Extra: key" and its values in brackets. */
  function ExtraRows(extra: seq<(string, seq<string>)>): (rows: Rows)
    ensures |rows| == |extra|
    ensures forall i :: 0 <= i < |extra| ==>
              rows[i] == ["Extra: " + extra[i].0, "[" + Join(extra[i].1, ",") + "]"]
  {
    seq(|extra|, i requires 0 <= i < |extra| => ["Extra: " + extra[i].0, "[" + Join(extra[i].1, ",") + "]"])
  }

  /** The present user-information fields come in the order Username, Uid, Groups, then the extras. */
  lemma SubjectRowsOrder(info: UserInfo)
    requires info.username.Some? && info.uid.Some? && info.groups.Some?
    ensures var rows := SubjectRows(Some(SelfSubjectReviewStatus(Some(info))));
            |rows| == 3 + (if info.extra.Some? then |info.extra.value| else 0)
            && rows[0][0] == "Username" && rows[1][0] == "Uid" && rows[2][0] == "Groups"
            && rows[2][1] == "[" + Join(info.groups.value, ",") + "]"
  {
  }

  /** `normal` */
  function NormalTable(r: Renderable, params: ShowParams, env: Env): Result<Rows, Fault> {
    match r
    case Object(o) =>
      if o.body.SubjectReviewBody? then Ok([["ATTRIBUTE", "VALUE"]] + SubjectRows(o.body.subject))
      else DefaultTable(r, params, Normal, env)
    case SystemInfo(info) => Ok(env.titleCase(info))
    case NodeResources(_, _) => Err(Unsupported("Not supported on Resources for normal"))
    case ObjectList(_, items) => VecTable(ListItems(items), params, Normal, env)
    case Items(xs) => VecTable(xs, params, Normal, env)
    case _ => DefaultTable(r, params, Normal, env)
  }

  /** `wide`: only lists and node resources override the default. */
  function WideTable(r: Renderable, params: ShowParams, env: Env): Result<Rows, Fault> {
    match r
    case NodeResources(_, _) => Err(Unsupported("Not supported on Resources for wide"))
    case ObjectList(_, items) => VecTable(ListItems(items), params, Wide, env)
    case Items(xs) => VecTable(xs, params, Wide, env)
    case _ => DefaultTable(r, params, Wide, env)
  }

  /** The document json and yaml serialise, after the conditional stripping. */
  function Serialised(r: Renderable, params: ShowParams): Option<Document> {
    match r
    case Object(o) => Some(ObjectDoc(MaybeStrip(o, params)))
    case Created(o) => Some(ObjectDoc(MaybeStrip(o, params)))
    case ObjectList(meta, items) => Some(ListDoc(meta, if params.showManagedFields then items else StripAll(items)))
    case SystemInfo(info) => Some(InfoDoc(info))
    case _ => None
  }

  /** The texts of several outcomes, or the first failure. */
  function AllOk(parts: seq<Result<string, Fault>>): (r: Result<seq<string>, Fault>)
    ensures r.Ok? <==> forall i :: 0 <= i < |parts| ==> parts[i].Ok?
    ensures r.Ok? ==> |r.value| == |parts| && forall i :: 0 <= i < |parts| ==> r.value[i] == parts[i].value
  {
    TryCollect(parts, (p: Result<string, Fault>) => p)
  }

  /** `json`; a list of values joins its elements' json with line feeds. */
  function JsonText(r: Renderable, params: ShowParams, env: Env): Result<string, Fault> {
    match r
    case Items(xs) =>
      var parts := seq(|xs|, i requires 0 <= i < |xs| => JsonText(xs[i], params, env));
      (match AllOk(parts)
       case Err(e) => Err(e)
       case Ok(texts) => Ok(Join(texts, "\n")))
    case SystemInfo(info) => Ok(env.json(InfoDoc(info)))
    case Pair(_, _) => Err(Unsupported("pair json"))
    case NodeResources(_, _) => Err(Unsupported("Not supported on Resources for json"))
    case _ => Ok(env.jsonPretty(Serialised(r, params).value))
  }

  /** `yaml`; a list of values concatenates its elements' yaml. */
  function YamlText(r: Renderable, params: ShowParams, env: Env): Result<string, Fault> {
    match r
    case Items(xs) =>
      var parts := seq(|xs|, i requires 0 <= i < |xs| => YamlText(xs[i], params, env));
      (match AllOk(parts)
       case Err(e) => Err(e)
       case Ok(texts) => Ok(Join(texts, "")))
    case Pair(_, _) => Err(Unsupported("pair yaml"))
    case NodeResources(_, _) => Err(Unsupported("Not supported on Resources for yaml"))
    case _ => Ok(env.yaml(Serialised(r, params).value))
  }

  /** `name` */
  function NameText(r: Renderable): Result<string, Fault> {
    match r
    case Pair(key, _) => Ok(key)
    case NodeResources(_, _) => Ok("resources")
    case Object(o) =>
      if o.body.AccessReviewBody? || o.body.SubjectReviewBody? then Err(Panic("unreachable"))
      else Err(Unsupported("name"))
    case _ => Err(Unsupported("name"))
  }

  /** The yes/no answer of an access review; a missing status counts as not allowed. */
  function AccessReviewText(status: Option<SubjectAccessReviewStatus>, fmt: OutputFormat): string {
    var st := status.UnwrapOr(SubjectAccessReviewStatus(false, None, None, None));
    var reason := if st.reason.Some? then " - " + st.reason.value else "";
    if st.allowed then "yes" + (if fmt.IsWide() then reason else "")
    else
      "no" + (if st.denied == Some(true) then " (denied)" else "") + reason
      + (if st.evaluationError.Some? then " - " + st.evaluationError.value else "")
  }

  /**
   * The answer starts with "yes" exactly when the review allowed the request,
   * and otherwise with "no"; only the wide format explains a "yes", and a
   * review without a status reads "no".
   */
  lemma AccessReviewAnswer(status: Option<SubjectAccessReviewStatus>, fmt: OutputFormat)
    ensures var text := AccessReviewText(status, fmt);
            (StartsWith(text, "yes") <==> status.Some? && status.value.allowed)
            && (!StartsWith(text, "yes") ==> StartsWith(text, "no"))
            && (status.None? ==> text == "no")
            && (status.Some? && status.value.allowed && !fmt.IsWide() ==> text == "yes")
  {
    var text := AccessReviewText(status, fmt);
    if !(status.Some? && status.value.allowed) {
      assert text[..2] == "no";
      assert text[1] == 'o';
    }
  }

  /** "(denied)" appears exactly for a refused review that says it denied the request. */
  lemma AccessReviewDenied(st: SubjectAccessReviewStatus, fmt: OutputFormat)
    requires !st.allowed && st.reason.None? && st.evaluationError.None?
    ensures AccessReviewText(Some(st), fmt) == if st.denied == Some(true) then "no (denied)" else "no"
  {
  }

  /** Which trait generation renders: the older engine (blank style only) or the newer one (`table_settings`). */
  datatype Engine = Legacy | Current

  function SettingsOf(engine: Engine): TableSettings {
    match engine
    case Legacy => TableSettings(Blank, DefaultPadding)
    case Current => CurrentTableSettings()
  }

  /** The cells a table output lays out: the NAMESPACE column is dropped unless namespaces are shown. */
  function TableRows(rows: Rows, namespace: bool): Rows {
    if namespace then rows else RemoveColumn(rows, NamespaceColumn)
  }

  /** `output`, as a value: the text, or how rendering failed. */
  function OutputOf(r: Renderable, namespace: bool, params: ShowParams, fmt: OutputFormat, engine: Engine, env: Env): Result<string, Fault> {
    if r.Object? && r.obj.body.AccessReviewBody? && fmt != Json && fmt != Yaml then
      Ok(AccessReviewText(r.obj.body.review, fmt))
    else
      match fmt
      case Normal | Wide =>
        var rows := if fmt == Normal then NormalTable(r, params, env) else WideTable(r, params, env);
        if rows.Err? then Err(rows.error)
        else
          var settings := SettingsOf(engine);
          Ok(env.layout(TableRows(rows.value, namespace), settings.style, settings.padding))
      case Json => JsonText(r, params, env)
      case Yaml => YamlText(r, params, env)
      case Name => NameText(r)
      case _ => Err(Unsupported(NotSupported))
  }

  /**
   * `output`: build the table, apply the engine's settings and drop the
   * NAMESPACE column unless namespaces are shown; the other formats delegate.
   */
  method Output(r: Renderable, namespace: bool, params: ShowParams, fmt: OutputFormat, engine: Engine, env: Env)
    returns (out: Result<string, Fault>)
    ensures out == OutputOf(r, namespace, params, fmt, engine, env)
  {
    if r.Object? && r.obj.body.AccessReviewBody? && fmt != Json && fmt != Yaml {
      return Ok(AccessReviewText(r.obj.body.review, fmt));
    }
    match fmt {
      case Normal =>
        var rows := NormalTable(r, params, env);
        if rows.Err? {
          return Err(rows.error);
        }
        out := LayOut(rows.value, namespace, engine, env);
      case Wide =>
        var rows := WideTable(r, params, env);
        if rows.Err? {
          return Err(rows.error);
        }
        out := LayOut(rows.value, namespace, engine, env);
      case Json => out := JsonText(r, params, env);
      case Yaml => out := YamlText(r, params, env);
      case Name => out := NameText(r);
      case _ => out := Err(Unsupported(NotSupported));
    }
  }

  /** The table part of `output`, on a `Table` built from the rows. */
  method LayOut(rows: Rows, namespace: bool, engine: Engine, env: Env) returns (out: Result<string, Fault>)
    ensures out == Ok(env.layout(TableRows(rows, namespace), SettingsOf(engine).style, SettingsOf(engine).padding))
  {
    var table := new Table(rows);
    match engine {
      case Legacy => table.WithStyle(Blank);
      case Current => table.WithSettings(CurrentTableSettings());
    }
    if !namespace {
      table.RemoveColumnNamed(NamespaceColumn);
    }
    out := Ok(env.layout(table.rows, table.style, table.padding));
  }

  // ---------------------------------------------------------------------------
  // Properties of the dispatch

  /**
   * For a table format the text is the layout of the format's table, without
   * the NAMESPACE column exactly when namespaces are not shown.
   */
  lemma OutputTable(r: Renderable, namespace: bool, params: ShowParams, fmt: OutputFormat, engine: Engine, env: Env)
    requires fmt.IsTable() && !(r.Object? && r.obj.body.AccessReviewBody?)
    requires (if fmt == Normal then NormalTable(r, params, env) else WideTable(r, params, env)).Ok?
    ensures var rows := (if fmt == Normal then NormalTable(r, params, env) else WideTable(r, params, env)).value;
            OutputOf(r, namespace, params, fmt, engine, env)
              == Ok(env.layout(TableRows(rows, namespace), SettingsOf(engine).style, SettingsOf(engine).padding))
            && (!namespace && rows != [] ==> NamespaceColumn !in TableRows(rows, namespace)[0])
            && (namespace ==> TableRows(rows, namespace) == rows)
  {
    var rows := (if fmt == Normal then NormalTable(r, params, env) else WideTable(r, params, env)).value;
    if !namespace && rows != [] {
      RemoveColumnHeader(rows, NamespaceColumn);
    }
  }

  /** The template-style formats are unsupported for every value except an access review. */
  lemma TemplateFormatsUnsupported(r: Renderable, namespace: bool, params: ShowParams, fmt: OutputFormat, engine: Engine, env: Env)
    requires fmt.IsTemplate() && !(r.Object? && r.obj.body.AccessReviewBody?)
    ensures OutputOf(r, namespace, params, fmt, engine, env) == Err(Unsupported(NotSupported))
  {
  }

  /** Json and yaml serialise the same document, stripped unless managed fields are shown. */
  lemma JsonYamlAgree(r: Renderable, params: ShowParams, env: Env)
    requires r.Object? || r.Created? || r.ObjectList?
    ensures Serialised(r, params).Some?
    ensures JsonText(r, params, env) == Ok(env.jsonPretty(Serialised(r, params).value))
    ensures YamlText(r, params, env) == Ok(env.yaml(Serialised(r, params).value))
    ensures !params.showManagedFields ==>
              match Serialised(r, params).value
              case ObjectDoc(o) => o.meta.managedFields.None?
              case ListDoc(_, objects) => forall i :: 0 <= i < |objects| ==> objects[i].meta.managedFields.None?
              case InfoDoc(_) => false
  {
  }

  /** A list's items keep everything but their managed fields, and the list metadata is kept. */
  lemma ObjectListStripKeepsRest(meta: ListMeta, items: seq<ShownObject>, params: ShowParams)
    requires !params.showManagedFields
    ensures var d := Serialised(ObjectList(meta, items), params).value;
            d.ListDoc? && d.listMeta == meta && |d.objects| == |items|
            && forall i :: 0 <= i < |items| ==>
                 d.objects[i].body == items[i].body
                 && d.objects[i].meta.(managedFields := items[i].meta.managedFields) == items[i].meta
  {
  }

  /** A list of values concatenates its elements' yaml and joins their json with line feeds. */
  lemma ItemsSerialise(xs: seq<Renderable>, params: ShowParams, env: Env)
    requires forall i :: 0 <= i < |xs| ==> JsonText(xs[i], params, env).Ok? && YamlText(xs[i], params, env).Ok?
    ensures JsonText(Items(xs), params, env).Ok? && YamlText(Items(xs), params, env).Ok?
    ensures JsonText(Items(xs), params, env).value == Join(seq(|xs|, i requires 0 <= i < |xs| => JsonText(xs[i], params, env).value), "\n")
    ensures YamlText(Items(xs), params, env).value == Join(seq(|xs|, i requires 0 <= i < |xs| => YamlText(xs[i], params, env).value), "")
  {
    var jparts := seq(|xs|, i requires 0 <= i < |xs| => JsonText(xs[i], params, env));
    var yparts := seq(|xs|, i requires 0 <= i < |xs| => YamlText(xs[i], params, env));
    assert AllOk(jparts).value == seq(|xs|, i requires 0 <= i < |xs| => JsonText(xs[i], params, env).value);
    assert AllOk(yparts).value == seq(|xs|, i requires 0 <= i < |xs| => YamlText(xs[i], params, env).value);
  }

  /** A list's `name` is unsupported. */
  lemma ListsHaveNoName(r: Renderable)
    requires r.Items? || r.ObjectList? || r.Created?
    ensures NameText(r).Err? && NameText(r).error.Unsupported?
  {
  }

  /** A key/value pair: header Key and Value, the pair as its row, the key as its name, no json or yaml. */
  lemma PairShown(key: string, value: string, params: ShowParams, fmt: OutputFormat, env: Env)
    ensures DefaultTable(Pair(key, value), params, fmt, env) == Ok([["Key", "Value"], [key, value]])
    ensures NameText(Pair(key, value)) == Ok(key)
    ensures JsonText(Pair(key, value), params, env).Err? && YamlText(Pair(key, value), params, env).Err?
  {
  }

  /** A created object: an empty header and the single cell "kind/name created". */
  lemma CreatedShown(o: KubeObject, params: ShowParams, fmt: OutputFormat, env: Env)
    ensures Header(Created(o), fmt) == Ok([])
    ensures var cells := Data(Created(o), params, fmt, env).value;
            |cells| == 1 && EndsWith(cells[0], " created")
            && cells[0] == ToLower(Kind(o.body)) + "/" + NameAny(o.meta) + " created"
  {
  }

  /** The table kinds: the data row always has as many cells as the header, and the formats other than the tables fail. */
  lemma RowsMatchHeaders(o: ShownObject, params: ShowParams, fmt: OutputFormat, env: Env)
    requires o.body.ConfigMapBody? || o.body.NodeBody? || o.body.NamespaceBody? || o.body.ComponentStatusBody?
    ensures fmt.IsTable() ==> ObjectHeader(o, fmt).Ok? && ObjectData(o, params, fmt, env).Ok?
                              && |ObjectData(o, params, fmt, env).value| == |ObjectHeader(o, fmt).value|
    ensures !fmt.IsTable() ==> ObjectHeader(o, fmt).Err? && ObjectData(o, params, fmt, env).Err?
  {
  }

  /** A config map's DATA cell counts the data and the binary data entries; an absent map counts none. */
  lemma ConfigMapDataCount(meta: ObjectMeta, data: Option<map<string, string>>, binaryData: Option<map<string, string>>,
                           params: ShowParams, fmt: OutputFormat, env: Env)
    requires fmt.IsTable()
    ensures var cells := ObjectData(KubeObject(meta, ConfigMapBody(data, binaryData)), params, fmt, env).value;
            ParseDigits(cells[2]) == (if data.Some? then |data.value| else 0) + (if binaryData.Some? then |binaryData.value| else 0)
            && cells[0] == meta.namespace.UnwrapOr("")
  {
    var count := (if data.Some? then |data.value| else 0) + (if binaryData.Some? then |binaryData.value| else 0);
    ParseNatToString(count);
  }

  /** The namespace table has no NAMESPACE column, so showing or hiding namespaces renders it the same. */
  lemma NamespaceIgnoresColumnFlag(o: ShownObject, params: ShowParams, fmt: OutputFormat, engine: Engine, env: Env)
    requires o.body.NamespaceBody? && fmt.IsTable()
    ensures OutputOf(Object(o), false, params, fmt, engine, env) == OutputOf(Object(o), true, params, fmt, engine, env)
  {
    var rows := (if fmt == Normal then NormalTable(Object(o), params, env) else WideTable(Object(o), params, env)).value;
    RemoveAbsentColumn(rows, NamespaceColumn);
  }

  /** A namespace without a phase reads "Unknown". */
  lemma NamespaceStatus(o: ShownObject, params: ShowParams, fmt: OutputFormat, env: Env)
    requires o.body.NamespaceBody? && fmt.IsTable()
    ensures ObjectData(o, params, fmt, env).value[1] == if o.body.phase.Some? then o.body.phase.value else "Unknown"
  {
  }

  /**
   * A component status: "Healthy" or "Unhealthy" from its first Healthy
   * condition with that condition's message and error, else "Unknown" and two
   * empty cells.
   */
  lemma ComponentStatusCells(cs: ComponentStatus)
    ensures var (status, message, error) := ComponentCells(cs);
            (status == "Healthy" <==> Healthy(cs).Some? && Healthy(cs).value.status == "True")
            && (status == "Unknown" <==> Healthy(cs).None?)
            && (Healthy(cs).None? ==> message == "" && error == "")
            && (Healthy(cs).Some? ==> message == Healthy(cs).value.message.UnwrapOr("") && error == Healthy(cs).value.error.UnwrapOr(""))
  {
  }

  /** A self-subject review without user information shows only the header row. */
  lemma SubjectReviewHeaderOnly(o: ShownObject, params: ShowParams, env: Env)
    requires o.body.SubjectReviewBody? && (o.body.subject.None? || o.body.subject.value.userInfo.None?)
    ensures NormalTable(Object(o), params, env) == Ok([["ATTRIBUTE", "VALUE"]])
  {
    assert SubjectRows(o.body.subject) == [];
    assert [["ATTRIBUTE", "VALUE"]] + SubjectRows(o.body.subject) == [["ATTRIBUTE", "VALUE"]];
  }

  /** A self-subject review has no wide table of its own: the default table needs its data row, which is unreachable. */
  lemma SubjectReviewWidePanics(o: ShownObject, params: ShowParams, env: Env)
    requires o.body.SubjectReviewBody?
    ensures WideTable(Object(o), params, env) == Err(Panic("unreachable"))
  {
  }

  /** The node system information serialises unstripped, and has no header, data or name. */
  lemma SystemInfoShown(info: NodeSystemInfo, params: ShowParams, fmt: OutputFormat, env: Env)
    ensures JsonText(SystemInfo(info), params, env) == Ok(env.json(InfoDoc(info)))
    ensures YamlText(SystemInfo(info), params, env) == Ok(env.yaml(InfoDoc(info)))
    ensures Header(SystemInfo(info), fmt).Err? && Data(SystemInfo(info), params, fmt, env).Err? && NameText(SystemInfo(info)).Err?
  {
  }
}
