/** kube's request parameter types, reduced to the fields this client sets. */
module KubeParams {
  import opened Wrappers

  datatype PropagationPolicy = Orphan | Background | Foreground

  datatype DeleteParams = DeleteParams(
    dryRun: bool,
    gracePeriodSeconds: Option<nat>,
    propagationPolicy: Option<PropagationPolicy>)

  const DefaultDeleteParams: DeleteParams := DeleteParams(false, None, None)

  /** `DeleteParams::background()`, `foreground()` and `orphan()` */
  function WithPolicy(policy: PropagationPolicy): DeleteParams {
    DefaultDeleteParams.(propagationPolicy := Some(policy))
  }

  /** `DeleteParams::dry_run()` */
  function MarkDryRun(dp: DeleteParams): DeleteParams {
    dp.(dryRun := true)
  }

  datatype PostParams = PostParams(dryRun: bool, fieldManager: Option<string>)

  const DefaultPostParams: PostParams := PostParams(false, None)

  datatype GetParams = GetParams(resourceVersion: Option<string>)

  const DefaultGetParams: GetParams := GetParams(None)

  datatype ListParams = ListParams(labelSelector: Option<string>, fieldSelector: Option<string>, limit: Option<nat>)

  const DefaultListParams: ListParams := ListParams(None, None, None)
}

/** The parameter constructors of `Kubeapi`, and the `--cascade` and `--dry-run` choices. */
module Params {
  import opened Wrappers
  import KubeParams

  datatype Cascade = Background | Foreground | Orphan

  /** `Cascade::default()` */
  const DefaultCascade: Cascade := Background

  /** `DryRun`; `Off` is the Rust variant `DryRun::None`, the default. */
  datatype DryRun = Off | Server | Client

  const DefaultDryRun: DryRun := Off

  /** `get_params`, `list_params` and `post_params`: the library defaults, whatever the client's state. */
  function GetParams(): KubeParams.GetParams { KubeParams.DefaultGetParams }

  function ListParams(): KubeParams.ListParams { KubeParams.DefaultListParams }

  function PostParams(): KubeParams.PostParams { KubeParams.DefaultPostParams }

  /** `delete_params(cascade, dry_run)` */
  function DeleteParams(cascade: Cascade, dryRun: DryRun): (dp: KubeParams.DeleteParams)
    ensures dp.dryRun <==> dryRun == Server
    ensures dp.gracePeriodSeconds.None? && dp.propagationPolicy.Some?
  {
    var dp := match cascade
      case Background => KubeParams.WithPolicy(KubeParams.Background)
      case Foreground => KubeParams.WithPolicy(KubeParams.Foreground)
      case Orphan => KubeParams.WithPolicy(KubeParams.Orphan);
    match dryRun
    case Server => KubeParams.MarkDryRun(dp)
    case Off => dp
    case Client => dp
  }

  /** Which cascade a propagation policy stands for. */
  function CascadeOf(policy: KubeParams.PropagationPolicy): Cascade {
    match policy
    case Background => Background
    case Foreground => Foreground
    case Orphan => Orphan
  }

  /** Each cascade selects the propagation policy of the same name: the choice can be read back. */
  lemma DeleteParamsCascadeRoundTrip(cascade: Cascade, dryRun: DryRun)
    ensures CascadeOf(DeleteParams(cascade, dryRun).propagationPolicy.value) == cascade
  {
  }

  /** A client-side dry run sends the same parameters as no dry run: only the server variant marks them. */
  lemma ClientDryRunSendsPlainParams(cascade: Cascade)
    ensures DeleteParams(cascade, Client) == DeleteParams(cascade, Off)
    ensures DeleteParams(cascade, Server) == DeleteParams(cascade, Off).(dryRun := true)
  {
  }

  /** `post_params_with_manager`: the default parameters with the field manager set. */
  function PostParamsWithManager(manager: string): (pp: KubeParams.PostParams)
    ensures pp.fieldManager == Some(manager)
    ensures pp.(fieldManager := None) == KubeParams.DefaultPostParams
  {
    KubeParams.DefaultPostParams.(fieldManager := Some(manager))
  }
}
