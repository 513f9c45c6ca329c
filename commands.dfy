/**
 * The `get` and `delete` commands: resolve the resource arguments, then act on
 * each reference in order. Talking to the API server is a parameter: `fetch`
 * stands for `ResourceArg::get`, `rawGet` for `Kubeapi::raw_get` and `call`
 * for `NamedResource::delete`. What the commands write to standard output is
 * returned as the sequence of printed lines.
 */
module Commands {
  import opened Wrappers
  import opened Strings
  import opened Faults
  import opened Discovery
  import opened Resources
  import opened Show
  import Kubeapi
  import Params
  import KubeParams
  import Render

  /** The generic error that stands in for any resolution failure. */
  const ResolutionError: KubeError := KubeError.Other("LinesCodecMaxLineLengthExceeded")

  /**
   * `Get::resources` and `Delete::resources`: absent tokens count as none, and
   * any resolution failure is replaced by one fixed generic error.
   */
  function ResolveArgs(tokens: Option<seq<string>>, k: Kubeapi.Kubeapi, syntax: GvSyntax): (r: Result<seq<ResourceArg>, KubeError>)
    ensures tokens.None? ==> r == Err(ResolutionError)
    ensures tokens.Some? ==> (r.Ok? <==> FromStrings(tokens.value, k, syntax).Ok?)
    ensures tokens.Some? && r.Ok? ==> r.value == FromStrings(tokens.value, k, syntax).value
    ensures r.Err? ==> r.error == ResolutionError
  {
    var given := if tokens.Some? then tokens.value else [];
    match FromStrings(given, k, syntax)
    case Ok(args) => Ok(args)
    case Err(_) => Err(ResolutionError)
  }

  /** What a command printed before it finished, and how it finished. */
  datatype Run = Run(printed: seq<string>, outcome: Result<(), Fault>)

  // ---------------------------------------------------------------------------
  // get
  // ---------------------------------------------------------------------------

  datatype Get = Get(params: ShowParams, raw: Option<string>, subresource: Option<string>, resources: Option<seq<string>>)

  /** The raw path with at most one leading '/' removed. */
  function RawName(raw: string): (name: string)
    ensures StartsWith(raw, "/") ==> raw == "/" + name
    ensures !StartsWith(raw, "/") ==> name == raw
  {
    if StartsWith(raw, "/") then raw[1..] else raw
  }

  /** Only the first of several leading slashes is removed. */
  lemma RawNameStripsOnce(rest: string)
    ensures RawName("//" + rest) == "/" + rest
  {
    assert ("//" + rest)[..1] == "/";
    assert ("//" + rest)[1..] == "/" + rest;
  }

  /** The parameters the objects are shown with: the kind is forced when more than one reference was resolved. */
  function EffectiveParams(params: ShowParams, args: seq<ResourceArg>): (p: ShowParams)
    ensures p.showKind <==> params.showKind || |args| > 1
    ensures p.showLabels == params.showLabels && p.showManagedFields == params.showManagedFields
  {
    params.(showKind := params.showKind || |args| > 1)
  }

  /** The forcing counts references, not kinds: two pods by name already force it. */
  lemma SameKindStillShowsKind(k: Kubeapi.Kubeapi, syntax: GvSyntax)
    ensures var r := ResolveArgs(Some(["pod", "bazooka", "darbooka"]), k, syntax);
            r.Ok? && |r.value| == 2
            && ArgResource(r.value[0]) == ArgResource(r.value[1]) == Pods
            && EffectiveParams(ShowParams(false, false, false), r.value).showKind
  {
    ResourceAndManyNames(k, syntax);
  }

  /** One reference: fetch it, then render it; a fetch error or a panic while rendering ends the command. */
  function Fetched(arg: ResourceArg, namespace: bool, params: ShowParams, fmt: OutputFormat, engine: Render.Engine,
                   env: Render.Env, fetch: ResourceArg -> Result<Render.Renderable, Fault>): Result<string, Fault>
  {
    match fetch(arg)
    case Err(f) => Err(f)
    case Ok(data) => Render.OutputOf(data, namespace, params, fmt, engine, env)
  }

  /** How every reference of one `get` is shown: with the same flags, format and cluster answers. */
  function Shown(namespace: bool, params: ShowParams, fmt: OutputFormat, engine: Render.Engine, env: Render.Env,
                 fetch: ResourceArg -> Result<Render.Renderable, Fault>): ResourceArg -> Result<string, Fault>
  {
    arg => Fetched(arg, namespace, params, fmt, engine, env, fetch)
  }

  /** The render loop of `Get::exec`: each reference in order until the first failure. */
  function RenderAll(args: seq<ResourceArg>, show: ResourceArg -> Result<string, Fault>): Run
    decreases |args|
  {
    if args == [] then Run([], Ok(()))
    else
      match show(args[0])
      case Err(f) => Run([], Err(f))
      case Ok(text) =>
        var rest := RenderAll(args[1..], show);
        Run([text] + rest.printed, rest.outcome)
  }

  /**
   * Every reference before the first failure is printed, in resolution order;
   * the failure ends the command and is its outcome.
   */
  lemma {:induction false} RenderAllInOrder(args: seq<ResourceArg>, show: ResourceArg -> Result<string, Fault>)
    decreases |args|
    ensures var run := RenderAll(args, show);
            |run.printed| <= |args|
            && (forall i :: 0 <= i < |run.printed| ==> show(args[i]) == Ok(run.printed[i]))
            && (run.outcome.Ok? ==> |run.printed| == |args|)
            && (run.outcome.Err? ==> |run.printed| < |args| && show(args[|run.printed|]) == Err(run.outcome.error))
  {
    if args != [] && show(args[0]).Ok? {
      RenderAllInOrder(args[1..], show);
    }
  }

  /** `Get::exec`, as a function of the command line and the cluster's answers. */
  function GetRun(g: Get, k: Kubeapi.Kubeapi, syntax: GvSyntax, fmt: OutputFormat, engine: Render.Engine, env: Render.Env,
                  fetch: ResourceArg -> Result<Render.Renderable, Fault>, rawGet: string -> Result<string, KubeError>): Run
  {
    if g.raw.Some? then
      match rawGet(RawName(g.raw.value))
      case Err(e) => Run([], Err(Kube(e)))
      case Ok(text) => Run([text], Ok(()))
    else
      match ResolveArgs(g.resources, k, syntax)
      case Err(e) => Run([], Err(Kube(e)))
      case Ok(args) => RenderAll(args, Shown(Kubeapi.ShowNamespace(k), EffectiveParams(g.params, args), fmt, engine, env, fetch))
  }

  /** One step of the render loop: the reference at `i` is shown, then the rest unless it failed. */
  lemma RenderAllStep(args: seq<ResourceArg>, i: nat, show: ResourceArg -> Result<string, Fault>)
    requires i < |args|
    ensures RenderAll(args[i..], show)
            == match show(args[i])
               case Err(f) => Run([], Err(f))
               case Ok(text) => Then([text], RenderAll(args[i + 1..], show))
  {
    assert args[i..][0] == args[i];
    assert args[i..][1..] == args[i + 1..];
  }

  /** The render loop of `Get::exec`, printing as it goes. */
  method RenderEach(args: seq<ResourceArg>, namespace: bool, params: ShowParams, fmt: OutputFormat, engine: Render.Engine,
                    env: Render.Env, fetch: ResourceArg -> Result<Render.Renderable, Fault>)
    returns (printed: seq<string>, outcome: Result<(), Fault>)
    ensures Run(printed, outcome) == RenderAll(args, Shown(namespace, params, fmt, engine, env, fetch))
  {
    ghost var show := Shown(namespace, params, fmt, engine, env, fetch);
    printed := [];
    var i := 0;
    while i < |args|
      invariant 0 <= i <= |args|
      invariant RenderAll(args, show) == Then(printed, RenderAll(args[i..], show))
    {
      var data := fetch(args[i]);
      if data.Err? {
        RenderStopsAt(args, i, printed, show);
        return printed, Err(data.error);
      }
      var text := Render.Output(data.value, namespace, params, fmt, engine, env);
      assert show(args[i]) == text;
      RenderStopsAt(args, i, printed, show);
      if text.Err? {
        return printed, Err(text.error);
      }
      printed := printed + [text.value];
      i := i + 1;
    }
    assert args[i..] == [];
    return printed, Ok(());
  }

  /**
   * The loop's step: a failure showing the reference at `i` is the outcome
   * after what was printed, and a text joins the printed ones.
   */
  lemma RenderStopsAt(args: seq<ResourceArg>, i: nat, printed: seq<string>, show: ResourceArg -> Result<string, Fault>)
    requires i < |args|
    requires RenderAll(args, show) == Then(printed, RenderAll(args[i..], show))
    ensures show(args[i]).Err? ==> RenderAll(args, show) == Run(printed, Err(show(args[i]).error))
    ensures show(args[i]).Ok? ==> RenderAll(args, show) == Then(printed + [show(args[i]).value], RenderAll(args[i + 1..], show))
  {
    RenderAllStep(args, i, show);
    var rest := RenderAll(args[i + 1..], show);
    if show(args[i]).Err? {
      assert printed + [] == printed;
    } else {
      assert printed + ([show(args[i]).value] + rest.printed) == (printed + [show(args[i]).value]) + rest.printed;
    }
  }

  /** A run that first printed `before`. */
  function Then(before: seq<string>, run: Run): Run {
    Run(before + run.printed, run.outcome)
  }

  /** `Get::exec` */
  method GetExec(g: Get, k: Kubeapi.Kubeapi, syntax: GvSyntax, fmt: OutputFormat, engine: Render.Engine, env: Render.Env,
                 fetch: ResourceArg -> Result<Render.Renderable, Fault>, rawGet: string -> Result<string, KubeError>)
    returns (printed: seq<string>, outcome: Result<(), Fault>)
    ensures Run(printed, outcome) == GetRun(g, k, syntax, fmt, engine, env, fetch, rawGet)
  {
    if g.raw.Some? {
      var name := RawName(g.raw.value);
      var text := rawGet(name);
      if text.Err? {
        return [], Err(Kube(text.error));
      }
      return [text.value], Ok(());
    }
    var resolved := ResolveArgs(g.resources, k, syntax);
    if resolved.Err? {
      return [], Err(Kube(resolved.error));
    }
    var args := resolved.value;
    printed, outcome := RenderEach(args, Kubeapi.ShowNamespace(k), EffectiveParams(g.params, args), fmt, engine, env, fetch);
  }

  /** The NAMESPACE column is asked for exactly when every namespace is listed. */
  lemma GetNamespaceColumn(g: Get, k: Kubeapi.Kubeapi, syntax: GvSyntax, fmt: OutputFormat, engine: Render.Engine, env: Render.Env,
                           fetch: ResourceArg -> Result<Render.Renderable, Fault>, rawGet: string -> Result<string, KubeError>)
    requires g.raw.None? && ResolveArgs(g.resources, k, syntax).Ok?
    ensures var args := ResolveArgs(g.resources, k, syntax).value;
            GetRun(g, k, syntax, fmt, engine, env, fetch, rawGet)
            == RenderAll(args, Shown(k.namespace.All?, EffectiveParams(g.params, args), fmt, engine, env, fetch))
  {
  }

  // ---------------------------------------------------------------------------
  // delete
  // ---------------------------------------------------------------------------

  datatype Delete = Delete(
    cascade: Params.Cascade,
    dryRun: Params.DryRun,
    filename: Option<string>,
    force: bool,
    ignoreNotFound: bool,
    recursive: bool,
    all: bool,
    wait: bool,
    resources: Option<seq<string>>)

  /** `Delete::ignore_not_found`: a 404 from the API server is success when the flag is set. */
  function IgnoreNotFound(d: Delete, err: KubeError): (r: Result<(), KubeError>)
    ensures r.Ok? <==> d.ignoreNotFound && err.Api? && err.code == 404
    ensures r.Err? ==> r.error == err
  {
    if d.ignoreNotFound && err.Api? && err.code == 404 then Ok(()) else Err(err)
  }

  /**
   * `ResourceArg::delete` followed by `ignore_not_found`: a type-only
   * reference is not implemented, whether or not `all` is set; a named one is
   * sent to the API server.
   */
  function DeleteOne(d: Delete, arg: ResourceArg, dp: KubeParams.DeleteParams,
                     call: (NamedResource, KubeParams.DeleteParams) -> Result<(), KubeError>): (r: Result<(), Fault>)
    ensures arg.TypeOnly? ==> r.Err? && r.error.Unsupported?
    ensures arg.TypeAndName? ==>
              (r.Ok? <==> call(arg.named, dp).Ok? || IgnoreNotFound(d, call(arg.named, dp).error).Ok?)
    ensures arg.TypeAndName? && r.Err? ==> r.error == Kube(call(arg.named, dp).error)
  {
    match arg
    case TypeOnly(_) =>
      if d.all then Err(Unsupported("Deleting ALL resources is not implemented yet"))
      else Err(Unsupported("Deleting SOME resources is not implemented yet"))
    case TypeAndName(named) =>
      match call(named, dp)
      case Ok(_) => Ok(())
      case Err(e) =>
        match IgnoreNotFound(d, e)
        case Ok(_) => Ok(())
        case Err(e2) => Err(Kube(e2))
  }

  /**
   * What `delete` itself printed, the delete requests it sent (each with its
   * parameters), and how it finished. The text each request prints on its own
   * (the deleted object, the status or the error) is not part of `printed`.
   */
  datatype DeleteRun = DeleteRun(printed: seq<string>, attempted: seq<(ResourceArg, KubeParams.DeleteParams)>, outcome: Result<(), Fault>)

  /** The line printed for a reference under a client-side dry run. */
  function DryRunLine(arg: ResourceArg): string {
    ArgDisplay(arg) + " deleted (dry run)"
  }

  /**
   * The loop of `delete_resources` outside a client-side dry run: each
   * reference in order, stopping at the first failure that is not ignored.
   */
  function DeleteEach(args: seq<ResourceArg>, dp: KubeParams.DeleteParams, delete: ResourceArg -> Result<(), Fault>): DeleteRun
    decreases |args|
  {
    if args == [] then DeleteRun([], [], Ok(()))
    else
      match delete(args[0])
      case Err(f) => DeleteRun([], [(args[0], dp)], Err(f))
      case Ok(_) =>
        var rest := DeleteEach(args[1..], dp, delete);
        DeleteRun([], [(args[0], dp)] + rest.attempted, rest.outcome)
  }

  /** How every reference of one `delete` is deleted: with the same flags, parameters and cluster answers. */
  function Deletion(d: Delete, dp: KubeParams.DeleteParams,
                    call: (NamedResource, KubeParams.DeleteParams) -> Result<(), KubeError>): ResourceArg -> Result<(), Fault>
  {
    arg => DeleteOne(d, arg, dp, call)
  }

  /**
   * Requests go out in order, all with the same parameters; the command
   * succeeds iff every deletion does (or is ignored), and otherwise ends with
   * the first failure, sending nothing after it.
   */
  lemma DeleteEachInOrder(d: Delete, args: seq<ResourceArg>, dp: KubeParams.DeleteParams,
                          call: (NamedResource, KubeParams.DeleteParams) -> Result<(), KubeError>)
    ensures var run := DeleteEach(args, dp, Deletion(d, dp, call));
            run.printed == []
            && |run.attempted| <= |args|
            && (forall i :: 0 <= i < |run.attempted| ==> run.attempted[i] == (args[i], dp))
            && (run.outcome.Ok? <==> forall i :: 0 <= i < |args| ==> DeleteOne(d, args[i], dp, call).Ok?)
            && (run.outcome.Ok? ==> |run.attempted| == |args|)
            && (run.outcome.Err? ==>
                  |run.attempted| > 0
                  && (forall i :: 0 <= i < |run.attempted| - 1 ==> DeleteOne(d, args[i], dp, call).Ok?)
                  && DeleteOne(d, args[|run.attempted| - 1], dp, call) == Err(run.outcome.error))
  {
    DeleteEachSends(args, dp, Deletion(d, dp, call));
    DeleteEachOutcome(args, dp, Deletion(d, dp, call));
  }

  /**
   * The loop itself prints nothing (each request's own output is outside the
   * model), and the requests sent are a prefix of the references, all with the
   * same parameters.
   */
  lemma {:induction false} DeleteEachSends(args: seq<ResourceArg>, dp: KubeParams.DeleteParams,
                                           delete: ResourceArg -> Result<(), Fault>)
    decreases |args|
    ensures var run := DeleteEach(args, dp, delete);
            run.printed == []
            && |run.attempted| <= |args|
            && (forall i :: 0 <= i < |run.attempted| ==> run.attempted[i] == (args[i], dp))
            && (run.outcome.Ok? ==> |run.attempted| == |args|)
            && (run.outcome.Err? ==> |run.attempted| > 0)
  {
    if args != [] {
      DeleteEachSends(args[1..], dp, delete);
      var rest := DeleteEach(args[1..], dp, delete);
      if delete(args[0]).Ok? {
        forall i | 1 <= i < |rest.attempted| + 1 ensures ([(args[0], dp)] + rest.attempted)[i] == (args[i], dp) {
          assert args[1..][i - 1] == args[i];
        }
      }
    }
  }

  /** The outcome is success iff every deletion succeeds (or is ignored), else the first failure, the last one sent. */
  lemma {:induction false} DeleteEachOutcome(args: seq<ResourceArg>, dp: KubeParams.DeleteParams,
                                             delete: ResourceArg -> Result<(), Fault>)
    decreases |args|
    ensures var run := DeleteEach(args, dp, delete);
            (run.outcome.Ok? <==> forall i :: 0 <= i < |args| ==> delete(args[i]).Ok?)
            && (run.outcome.Err? ==>
                  0 < |run.attempted| <= |args|
                  && (forall i :: 0 <= i < |run.attempted| - 1 ==> delete(args[i]).Ok?)
                  && delete(args[|run.attempted| - 1]) == Err(run.outcome.error))
  {
    if args != [] {
      DeleteEachOutcome(args[1..], dp, delete);
      var rest := DeleteEach(args[1..], dp, delete);
      if delete(args[0]).Ok? {
        if rest.outcome.Ok? {
          forall i | 0 <= i < |args| ensures delete(args[i]).Ok? {
            if i > 0 {
              assert args[i] == args[1..][i - 1];
            }
          }
        } else {
          var j := |rest.attempted| - 1;
          assert args[1..][j] == args[j + 1];
          forall i | 0 <= i < j + 1 ensures delete(args[i]).Ok? {
            if i > 0 {
              assert args[i] == args[1..][i - 1];
            }
          }
        }
      }
    }
  }

  /** The dry-run lines, one per reference, in order. */
  function DryRunLines(args: seq<ResourceArg>): (lines: seq<string>)
    ensures |lines| == |args|
    ensures forall i :: 0 <= i < |args| ==> lines[i] == DryRunLine(args[i])
  {
    if args == [] then [] else [DryRunLine(args[0])] + DryRunLines(args[1..])
  }

  /** The loop of `delete_resources` over resolved references. */
  function DeleteLoopRun(d: Delete, args: seq<ResourceArg>, dp: KubeParams.DeleteParams,
                         call: (NamedResource, KubeParams.DeleteParams) -> Result<(), KubeError>): DeleteRun
  {
    if d.dryRun == Params.Client then DeleteRun(DryRunLines(args), [], Ok(()))
    else DeleteEach(args, dp, Deletion(d, dp, call))
  }

  /** `Delete::delete_resources`, as a function of the command line and the cluster's answers. */
  function DeleteResourcesRun(d: Delete, k: Kubeapi.Kubeapi, syntax: GvSyntax,
                              call: (NamedResource, KubeParams.DeleteParams) -> Result<(), KubeError>): DeleteRun
  {
    match ResolveArgs(d.resources, k, syntax)
    case Err(e) => DeleteRun([], [], Err(Kube(e)))
    case Ok(args) => DeleteLoopRun(d, args, Params.DeleteParams(d.cascade, d.dryRun), call)
  }

  /** `Delete::exec`: deleting from a file is not implemented. */
  function DeleteRunOf(d: Delete, k: Kubeapi.Kubeapi, syntax: GvSyntax,
                       call: (NamedResource, KubeParams.DeleteParams) -> Result<(), KubeError>): DeleteRun
  {
    if d.filename.Some? then DeleteRun([], [], Err(Unsupported("Deleting from a file is not implemented yet")))
    else DeleteResourcesRun(d, k, syntax, call)
  }

  /** One step of the deletion loop: the reference at `i` is sent, then the rest unless it failed. */
  lemma DeleteEachStep(args: seq<ResourceArg>, dp: KubeParams.DeleteParams, delete: ResourceArg -> Result<(), Fault>, i: nat)
    requires i < |args|
    ensures var one := delete(args[i]);
            DeleteEach(args[i..], dp, delete)
            == if one.Err? then DeleteRun([], [(args[i], dp)], Err(one.error))
               else After([(args[i], dp)], DeleteEach(args[i + 1..], dp, delete))
  {
    assert args[i..][0] == args[i];
    assert args[i..][1..] == args[i + 1..];
  }

  /**
   * The loop's step: the request for the reference at `i` joins those sent;
   * a failure is then the outcome, and otherwise the rest follow.
   */
  lemma DeleteStopsAt(args: seq<ResourceArg>, dp: KubeParams.DeleteParams, delete: ResourceArg -> Result<(), Fault>, i: nat,
                      attempted: seq<(ResourceArg, KubeParams.DeleteParams)>)
    requires i < |args|
    requires DeleteEach(args, dp, delete) == After(attempted, DeleteEach(args[i..], dp, delete))
    ensures var one := delete(args[i]);
            one.Err? ==> DeleteEach(args, dp, delete) == DeleteRun([], attempted + [(args[i], dp)], Err(one.error))
    ensures var one := delete(args[i]);
            one.Ok? ==> DeleteEach(args, dp, delete) == After(attempted + [(args[i], dp)], DeleteEach(args[i + 1..], dp, delete))
  {
    DeleteEachStep(args, dp, delete, i);
    var rest := DeleteEach(args[i + 1..], dp, delete);
    if delete(args[i]).Ok? {
      assert attempted + ([(args[i], dp)] + rest.attempted) == (attempted + [(args[i], dp)]) + rest.attempted;
    }
  }

  /** The loop of `delete_resources`, printing and sending requests as it goes. */
  method DeleteLoop(d: Delete, args: seq<ResourceArg>, dp: KubeParams.DeleteParams,
                    call: (NamedResource, KubeParams.DeleteParams) -> Result<(), KubeError>)
    returns (printed: seq<string>, attempted: seq<(ResourceArg, KubeParams.DeleteParams)>, outcome: Result<(), Fault>)
    ensures DeleteRun(printed, attempted, outcome) == DeleteLoopRun(d, args, dp, call)
  {
    ghost var delete := Deletion(d, dp, call);
    printed, attempted := [], [];
    var i := 0;
    while i < |args|
      invariant 0 <= i <= |args|
      invariant d.dryRun == Params.Client ==> printed == DryRunLines(args[..i]) && attempted == []
      invariant d.dryRun != Params.Client ==>
                  printed == [] && DeleteEach(args, dp, delete) == After(attempted, DeleteEach(args[i..], dp, delete))
    {
      if d.dryRun == Params.Client {
        DryRunLinesStep(args, i);
        printed := printed + [DryRunLine(args[i])];
      } else {
        DeleteStopsAt(args, dp, delete, i, attempted);
        var done := DeleteOne(d, args[i], dp, call);
        assert done == delete(args[i]);
        attempted := attempted + [(args[i], dp)];
        if done.Err? {
          return [], attempted, Err(done.error);
        }
      }
      i := i + 1;
    }
    assert args[..i] == args;
    assert args[i..] == [];
    return printed, attempted, Ok(());
  }

  /** A deletion run that first sent `before`. */
  function After(before: seq<(ResourceArg, KubeParams.DeleteParams)>, run: DeleteRun): DeleteRun {
    DeleteRun(run.printed, before + run.attempted, run.outcome)
  }

  /** `Delete::delete_resources` */
  method DeleteResources(d: Delete, k: Kubeapi.Kubeapi, syntax: GvSyntax,
                         call: (NamedResource, KubeParams.DeleteParams) -> Result<(), KubeError>)
    returns (printed: seq<string>, attempted: seq<(ResourceArg, KubeParams.DeleteParams)>, outcome: Result<(), Fault>)
    ensures DeleteRun(printed, attempted, outcome) == DeleteResourcesRun(d, k, syntax, call)
  {
    var dp := Params.DeleteParams(d.cascade, d.dryRun);
    var resolved := ResolveArgs(d.resources, k, syntax);
    if resolved.Err? {
      return [], [], Err(Kube(resolved.error));
    }
    printed, attempted, outcome := DeleteLoop(d, resolved.value, dp, call);
  }

  /** One more reference under a dry run adds its line after the earlier ones. */
  lemma DryRunLinesStep(args: seq<ResourceArg>, i: nat)
    requires i < |args|
    ensures DryRunLines(args[..i + 1]) == DryRunLines(args[..i]) + [DryRunLine(args[i])]
  {
    assert args[..i + 1] == args[..i] + [args[i]];
    DryRunLinesSnoc(args[..i], args[i]);
  }

  lemma {:induction false} DryRunLinesSnoc(args: seq<ResourceArg>, arg: ResourceArg)
    ensures DryRunLines(args + [arg]) == DryRunLines(args) + [DryRunLine(arg)]
  {
    if args == [] {
      assert args + [arg] == [arg];
    } else {
      assert (args + [arg])[1..] == args[1..] + [arg];
      DryRunLinesSnoc(args[1..], arg);
    }
  }

  /** A client-side dry run sends no delete request and prints one line per reference. */
  lemma ClientDryRunNeverDeletes(d: Delete, k: Kubeapi.Kubeapi, syntax: GvSyntax,
                                 call: (NamedResource, KubeParams.DeleteParams) -> Result<(), KubeError>)
    requires d.filename.None? && d.dryRun == Params.Client
    ensures var run := DeleteRunOf(d, k, syntax, call);
            run.attempted == []
            && (run.outcome.Ok? <==> ResolveArgs(d.resources, k, syntax).Ok?)
            && (run.outcome.Ok? ==>
                  var args := ResolveArgs(d.resources, k, syntax).value;
                  |run.printed| == |args| && forall i :: 0 <= i < |args| ==> run.printed[i] == ArgDisplay(args[i]) + " deleted (dry run)")
  {
  }

  /** Every request carries the parameters built once from the cascade and dry-run flags. */
  lemma SameParamsForEveryRequest(d: Delete, k: Kubeapi.Kubeapi, syntax: GvSyntax,
                                  call: (NamedResource, KubeParams.DeleteParams) -> Result<(), KubeError>)
    ensures var run := DeleteRunOf(d, k, syntax, call);
            forall i :: 0 <= i < |run.attempted| ==> run.attempted[i].1 == Params.DeleteParams(d.cascade, d.dryRun)
  {
    var resolved := ResolveArgs(d.resources, k, syntax);
    if d.filename.None? && resolved.Ok? && d.dryRun != Params.Client {
      DeleteEachInOrder(d, resolved.value, Params.DeleteParams(d.cascade, d.dryRun), call);
    }
  }

  /** Without resource tokens the command fails with the generic error and sends nothing. */
  lemma NoTokensFail(d: Delete, k: Kubeapi.Kubeapi, syntax: GvSyntax,
                     call: (NamedResource, KubeParams.DeleteParams) -> Result<(), KubeError>)
    requires d.filename.None? && d.resources.None?
    ensures DeleteRunOf(d, k, syntax, call) == DeleteRun([], [], Err(Kube(ResolutionError)))
  {
  }
}
