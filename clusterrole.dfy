/**
 * `create clusterrole`: the cluster role built from the command line, either
 * policy rules grouped by API group or an aggregation rule selecting other
 * roles by label.
 */
module CreateClusterRoleCommand {
  import opened Wrappers
  import opened Strings
  import opened Faults
  import opened OrderedMaps
  import opened KeyValues
  import Render

  /** The `--non-resource-url`, `--resource`, `--resource-name` and `--verb` lists. */
  datatype PolicyRulesArgs = PolicyRulesArgs(
    nonResourceUrl: seq<string>,
    resource: seq<string>,
    resourceName: seq<string>,
    verb: seq<string>)

  datatype CreateClusterRole = CreateClusterRole(
    name: string,
    policyRules: PolicyRulesArgs,
    aggregationRule: Option<seq<KeyValue<string>>>)

  datatype PolicyRule = PolicyRule(
    apiGroups: Option<seq<string>>,
    resources: Option<seq<string>>,
    verbs: seq<string>,
    resourceNames: Option<seq<string>>,
    nonResourceUrls: Option<seq<string>>)

  datatype AggregationRule = AggregationRule(clusterRoleSelectors: Option<seq<LabelSelector>>)

  datatype ClusterRole = ClusterRole(
    name: string,
    rules: Option<seq<PolicyRule>>,
    aggregationRule: Option<AggregationRule>)

  /** `PolicyRule::default()` */
  const DefaultRule: PolicyRule := PolicyRule(None, None, [], None, None)

  /** `resource_to_gk`: "resource.group" gives the group (all after the first '.') and the resource. */
  function ResourceToGk(resource: string): (r: (string, string))
    ensures '.' !in resource ==> r == ("", resource)
    ensures '.' in resource ==> resource == r.1 + "." + r.0 && '.' !in r.1
  {
    match SplitOnce(resource, '.')
    case Some((res, group)) => (group, res)
    case None => ("", resource)
  }

  /** Any resource name free of '.' and any group, dots and all, come back apart. */
  lemma ResourceToGkParts(res: string, group: string)
    requires '.' !in res
    ensures ResourceToGk(res + "." + group) == (group, res)
  {
    SplitOnceUnique(res, group, '.');
  }

  // ---------------------------------------------------------------------------
  // Grouping by API group

  /** The group and resource of each `--resource`, in order. */
  function GroupKinds(resources: seq<string>): (r: seq<(string, string)>)
    ensures |r| == |resources|
    ensures forall i :: 0 <= i < |r| ==> r[i] == ResourceToGk(resources[i])
  {
    seq(|resources|, i requires 0 <= i < |resources| => ResourceToGk(resources[i]))
  }

  /** `map.entry(group).or_default().push(kind)` */
  function Push(m: OrderedMap<string, seq<string>>, group: string, kind: string): (r: OrderedMap<string, seq<string>>)
    requires DistinctKeys(m)
    ensures DistinctKeys(r)
  {
    Insert(m, group, (match Lookup(m, group) case Some(kinds) => kinds case None => []) + [kind])
  }

  /** The fold of `resources()`: each resource pushed under its group. */
  function GroupsOf(gks: seq<(string, string)>): (r: OrderedMap<string, seq<string>>)
    ensures DistinctKeys(r)
    decreases |gks|
  {
    if gks == [] then []
    else Push(GroupsOf(gks[..|gks| - 1]), gks[|gks| - 1].0, gks[|gks| - 1].1)
  }

  /** The distinct elements, each where it first appears. */
  function Firsts(xs: seq<string>): (r: seq<string>)
    ensures forall x :: x in r <==> x in xs
    ensures forall i, j :: 0 <= i < j < |r| ==> r[i] != r[j]
    decreases |xs|
  {
    if xs == [] then []
    else
      var init := xs[..|xs| - 1];
      assert xs == init + [xs[|xs| - 1]];
      assert xs[|xs| - 1] in init ==> xs[|xs| - 1] in Firsts(init);
      Firsts(init) + (if xs[|xs| - 1] in init then [] else [xs[|xs| - 1]])
  }

  lemma KeysSnoc(gks: seq<(string, string)>)
    requires gks != []
    ensures Keys(gks) == Keys(gks[..|gks| - 1]) + [gks[|gks| - 1].0]
  {
    var a := Keys(gks);
    var b := Keys(gks[..|gks| - 1]) + [gks[|gks| - 1].0];
    assert |a| == |b|;
    forall i | 0 <= i < |a| ensures a[i] == b[i] {
      if i < |gks| - 1 {
        assert gks[..|gks| - 1][i] == gks[i];
      }
    }
  }

  /** The resources given under `group`, in input order, repeats kept. */
  function KindsOf(gks: seq<(string, string)>, group: string): (r: seq<string>)
    ensures group !in Keys(gks) ==> r == []
    decreases |gks|
  {
    if gks == [] then []
    else
      var init := gks[..|gks| - 1];
      KeysSnoc(gks);
      KindsOf(init, group) + (if gks[|gks| - 1].0 == group then [gks[|gks| - 1].1] else [])
  }

  /** Keys are found where they stand. */
  lemma {:induction false} LookupAt<V>(m: OrderedMap<string, V>, i: nat)
    requires DistinctKeys(m) && i < |m|
    decreases |m|
    ensures Lookup(m, m[i].0) == Some(m[i].1)
  {
    if i > 0 {
      LookupAt(m[1..], i - 1);
    }
  }

  /** The groups appear in the order they are first named. */
  lemma {:induction false} GroupsInFirstOrder(gks: seq<(string, string)>)
    decreases |gks|
    ensures Keys(GroupsOf(gks)) == Firsts(Keys(gks))
  {
    if gks != [] {
      var init := gks[..|gks| - 1];
      GroupsInFirstOrder(init);
      KeysSnoc(gks);
      assert Keys(gks)[..|Keys(gks)| - 1] == Keys(init);
    }
  }

  /** Under each group are its resources in input order, repeats kept; no other group is there. */
  lemma {:induction false} GroupsHoldTheirKinds(gks: seq<(string, string)>, g: string)
    decreases |gks|
    ensures Lookup(GroupsOf(gks), g) == if g in Keys(gks) then Some(KindsOf(gks, g)) else None
  {
    if gks != [] {
      var init := gks[..|gks| - 1];
      var (g0, k0) := gks[|gks| - 1];
      var m := GroupsOf(init);
      var before := match Lookup(m, g0) case Some(kinds) => kinds case None => [];
      assert GroupsOf(gks) == Insert(m, g0, before + [k0]);
      assert KindsOf(gks, g) == KindsOf(init, g) + (if g0 == g then [k0] else []);
      KeysSnoc(gks);
      if g == g0 {
        GroupsHoldTheirKinds(init, g0);
        assert before == KindsOf(init, g0);
      } else {
        GroupsHoldTheirKinds(init, g);
        InsertOtherKey(m, g0, before + [k0], g);
        assert KindsOf(gks, g) == KindsOf(init, g);
        assert g in Keys(gks) <==> g in Keys(init);
      }
    }
  }

  /** One more resource is pushed under its group. */
  lemma GroupsOfSnoc(gks: seq<(string, string)>, i: nat)
    requires i < |gks|
    ensures GroupsOf(gks[..i + 1]) == Push(GroupsOf(gks[..i]), gks[i].0, gks[i].1)
  {
    assert gks[..i + 1][..i] == gks[..i];
  }

  /** `resources()`: each `--resource` pushed in turn into its group's entry. */
  method Resources(args: PolicyRulesArgs) returns (groups: OrderedMap<string, seq<string>>)
    ensures groups == GroupsOf(GroupKinds(args.resource))
  {
    var gks := GroupKinds(args.resource);
    groups := [];
    for i := 0 to |args.resource|
      invariant groups == GroupsOf(gks[..i])
    {
      var (group, kind) := ResourceToGk(args.resource[i]);
      var kinds := match Lookup(groups, group) case Some(ks) => ks case None => [];
      GroupsOfSnoc(gks, i);
      groups := Insert(groups, group, kinds + [kind]);
    }
    assert gks[..|args.resource|] == gks;
  }

  // ---------------------------------------------------------------------------
  // Rules

  /** The rule of one group: that group, its resources, and every verb and resource name. */
  function GroupRule(group: string, kinds: seq<string>, args: PolicyRulesArgs): PolicyRule {
    DefaultRule.(apiGroups := Some([group]), resources := Some(kinds), verbs := args.verb,
                 resourceNames := Some(args.resourceName))
  }

  /** `non_resource_urls`: a rule for the URLs and verbs alone, when any URL is given. */
  function NonResourceUrls(args: PolicyRulesArgs): (r: Option<PolicyRule>)
    ensures r.Some? <==> args.nonResourceUrl != []
    ensures r.Some? ==> r.value == PolicyRule(None, None, args.verb, None, Some(args.nonResourceUrl))
  {
    if args.nonResourceUrl == [] then None
    else Some(DefaultRule.(nonResourceUrls := Some(args.nonResourceUrl), verbs := args.verb))
  }

  /** `policy_rules`: one rule per group, then the non-resource rule if there is one. */
  function PolicyRules(args: PolicyRulesArgs): (r: seq<PolicyRule>) {
    var groups := GroupsOf(GroupKinds(args.resource));
    seq(|groups|, i requires 0 <= i < |groups| => GroupRule(groups[i].0, groups[i].1, args))
      + (match NonResourceUrls(args) case Some(rule) => [rule] case None => [])
  }

  /**
   * Rule i names the i-th group first named and exactly the resources given
   * under it, with all verbs and resource names; a last rule holds the
   * non-resource URLs exactly when some are given.
   */
  lemma PolicyRulesMeaning(args: PolicyRulesArgs)
    ensures var gks := GroupKinds(args.resource);
      var groups := Firsts(Keys(gks));
      var r := PolicyRules(args);
      && |r| == |groups| + (if args.nonResourceUrl == [] then 0 else 1)
      && (forall i :: 0 <= i < |groups| ==>
            r[i] == PolicyRule(Some([groups[i]]), Some(KindsOf(gks, groups[i])), args.verb, Some(args.resourceName), None))
      && (args.nonResourceUrl != [] ==>
            r[|r| - 1] == PolicyRule(None, None, args.verb, None, Some(args.nonResourceUrl)))
  {
    var gks := GroupKinds(args.resource);
    var m := GroupsOf(gks);
    GroupsInFirstOrder(gks);
    forall i | 0 <= i < |m| ensures m[i].1 == KindsOf(gks, m[i].0) {
      LookupAt(m, i);
      GroupsHoldTheirKinds(gks, m[i].0);
    }
  }

  // ---------------------------------------------------------------------------
  // The role

  /** `aggregation_rule`: one selector matching the given labels, when any are given. */
  function AggregationRuleOf(c: CreateClusterRole): (r: Option<AggregationRule>)
    ensures r.None? <==> c.aggregationRule.None?
    ensures r.Some? ==>
              var kvs := c.aggregationRule.value;
              r.value.clusterRoleSelectors == Some([MatchLabels(seq(|kvs|, i requires 0 <= i < |kvs| => AsPair(kvs[i])))])
  {
    match c.aggregationRule
    case None => None
    case Some(kvs) =>
      var labels := seq(|kvs|, i requires 0 <= i < |kvs| => AsPair(kvs[i]));
      Some(AggregationRule(Some([MatchLabels(labels)])))
  }

  /** `cluster_role`: named as given; the aggregation rule when there is one, the policy rules otherwise. */
  function ClusterRoleOf(c: CreateClusterRole): (r: ClusterRole)
    ensures r.name == c.name
    ensures c.aggregationRule.Some? ==> r.rules.None? && r.aggregationRule == AggregationRuleOf(c)
    ensures c.aggregationRule.None? ==> r.rules == Some(PolicyRules(c.policyRules)) && r.aggregationRule.None?
  {
    var role := ClusterRole(c.name, None, None);
    match AggregationRuleOf(c)
    case Some(rule) => role.(aggregationRule := Some(rule))
    case None => role.(rules := Some(PolicyRules(c.policyRules)))
  }

  /** The aggregation selector carries each given key, with the value given last for it. */
  lemma AggregationLabels(c: CreateClusterRole, k: string)
    requires c.aggregationRule.Some?
    ensures var kvs := c.aggregationRule.value;
      var labels := ClusterRoleOf(c).aggregationRule.value.clusterRoleSelectors.value[0].matchLabels.value;
      && (k in labels <==> exists i :: 0 <= i < |kvs| && kvs[i].key == k)
      && (forall i :: 0 <= i < |kvs| && kvs[i].key == k && (forall j :: i < j < |kvs| ==> kvs[j].key != k) ==>
            labels[k] == kvs[i].value)
  {
    var kvs := c.aggregationRule.value;
    var pairs := seq(|kvs|, i requires 0 <= i < |kvs| => AsPair(kvs[i]));
    assert ClusterRoleOf(c).aggregationRule.value.clusterRoleSelectors.value[0] == MatchLabels(pairs);
    assert forall i :: 0 <= i < |kvs| ==> pairs[i].0 == kvs[i].key && pairs[i].1 == kvs[i].value;
    LastValueMeaning(pairs, k);
  }

  /** The last value of a key is that of its last pair, and there is one exactly when some pair has the key. */
  lemma {:induction false} LastValueMeaning(pairs: seq<(string, string)>, k: string)
    decreases |pairs|
    ensures LastValue(pairs, k).Some? <==> exists i :: 0 <= i < |pairs| && pairs[i].0 == k
    ensures forall i :: 0 <= i < |pairs| && pairs[i].0 == k && (forall j :: i < j < |pairs| ==> pairs[j].0 != k) ==>
              LastValue(pairs, k) == Some(pairs[i].1)
  {
    if pairs != [] {
      var init := pairs[..|pairs| - 1];
      LastValueMeaning(init, k);
      if pairs[|pairs| - 1].0 != k {
        forall i | 0 <= i < |pairs| && pairs[i].0 == k ensures i < |pairs| - 1 && init[i] == pairs[i] {
        }
      }
    }
  }

  /** `exec`: the role is created through the cluster API (a parameter here) and echoed back. */
  function Exec(c: CreateClusterRole, create: ClusterRole -> Result<Render.KubeObject, KubeError>): (r: Result<Render.Renderable, Fault>)
    ensures r.Ok? <==> create(ClusterRoleOf(c)).Ok?
    ensures r.Ok? ==> r.value == Render.Created(create(ClusterRoleOf(c)).value)
    ensures r.Err? ==> r.error == Kube(create(ClusterRoleOf(c)).error)
  {
    match create(ClusterRoleOf(c))
    case Ok(k) => Ok(Render.Created(k))
    case Err(e) => Err(Kube(e))
  }
}
