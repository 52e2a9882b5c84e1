/** Desired labels of a pod from current cluster state (resolver.go). */
module Resolver {
  import opened Prelude
  import opened Names
  import opened Directions
  import opened Resolution
  import opened Cluster

  /** A key some source asks for, with the direction it asks for. */
  type Grant = (VnetKey, Direction)

  // ---- the desired labels, as a function of the cluster ----

  ghost function BaselineGrants(memberships: seq<Membership>, podNS: string): set<Grant> {
    set m | m in memberships && ParseDirection(m.direction).Some? ::
      (CanonicalVnetKey(m.ref, podNS), ParseDirection(m.direction).value)
  }

  /** An empty binding direction means `both`. */
  function BindingDirection(b: Binding): Option<Base> {
    ParseBareDirection(if b.direction == "" then "both" else b.direction)
  }

  predicate BindingApplies(b: Binding, labels: map<LabelKey, string>) {
    Selects(b.podSelector, labels) && BindingDirection(b).Some?
  }

  ghost function BindingGrants(c: Cluster, ns: string, labels: map<LabelKey, string>): set<Grant> {
    set k | k in c.bindings && k.ns == ns && BindingApplies(c.bindings[k], labels) ::
      (CanonicalVnetKey(c.bindings[k].ref, ns), Direction(BindingDirection(c.bindings[k]).value, false))
  }

  /** A join label with a bare direction, other than the meaningless `<X>.cluster`. */
  predicate LabelApplies(labels: map<LabelKey, string>, k: LabelKey)
    requires k in labels
  {
    k.Join? && ParseBareDirection(labels[k]).Some? && !IsPrefixedClusterSuffix(k.suffix)
  }

  ghost function LabelGrants(ns: string, labels: map<LabelKey, string>): set<Grant> {
    set k | k in labels && LabelApplies(labels, k) ::
      (CanonicalSuffix(k.suffix, ns), Direction(ParseBareDirection(labels[k]).value, false))
  }

  ghost function Grants(c: Cluster, ns: string, labels: map<LabelKey, string>, scope: Scope): set<Grant> {
    match scope
    case ClusterBaseline => if c.clusterBaseline.Some? then BaselineGrants(c.clusterBaseline.value, ns) else {}
    case NamespaceBaseline => if ns in c.nsBaselines then BaselineGrants(c.nsBaselines[ns], ns) else {}
    case PodTier => BindingGrants(c, ns, labels) + LabelGrants(ns, labels)
  }

  /** The grants a namespace may use, under the identity they are stamped with. */
  ghost function Permitted(c: Cluster, ns: string, grants: set<Grant>): set<Grant> {
    set g | g in grants && Permits(c, g.0, ns) :: (StampedVnetKey(g.0), g.1)
  }

  ghost function TierDirs(c: Cluster, ns: string, labels: map<LabelKey, string>, scope: Scope, v: VnetKey)
    : set<Direction>
  {
    set g | g in Permitted(c, ns, Grants(c, ns, labels, scope)) && g.0 == v :: g.1
  }

  /** The direction in which a pod with these labels is a member of v, if it is one. */
  ghost function Effective(c: Cluster, ns: string, labels: map<LabelKey, string>, v: VnetKey): Option<Base> {
    match Decide(TierDirs(c, ns, labels, ClusterBaseline, v), TierDirs(c, ns, labels, NamespaceBaseline, v),
                 TierDirs(c, ns, labels, PodTier, v))
    case Some(b) => if b == NoDir then None else Some(b)
    case None => None
  }

  /** The value an operator-managed label should have, or None if the pod should not carry it. */
  ghost function DesiredValue(c: Cluster, ns: string, pod: Pod, k: LabelKey): Option<string> {
    match k
    case Stamp(v) => (match Effective(c, ns, pod.labels, v) case Some(b) => Some(BaseName(b)) case None => None)
    case HostPort(id) => if id in pod.hostPorts then Some("true") else None
    case _ => None
  }

  ghost function Candidates(c: Cluster, ns: string, pod: Pod): set<LabelKey> {
    (set g | g in Permitted(c, ns, Grants(c, ns, pod.labels, ClusterBaseline)) :: Stamp(g.0)) +
    (set g | g in Permitted(c, ns, Grants(c, ns, pod.labels, NamespaceBaseline)) :: Stamp(g.0)) +
    (set g | g in Permitted(c, ns, Grants(c, ns, pod.labels, PodTier)) :: Stamp(g.0)) +
    (set id | id in pod.hostPorts :: HostPort(id))
  }

  ghost function Desired(c: Cluster, ns: string, pod: Pod): map<LabelKey, string> {
    map k | k in Candidates(c, ns, pod) && DesiredValue(c, ns, pod, k).Some? :: DesiredValue(c, ns, pod, k).value
  }

  lemma DesiredLookup(c: Cluster, ns: string, pod: Pod, k: LabelKey)
    ensures Lookup(Desired(c, ns, pod), k) == DesiredValue(c, ns, pod, k)
  {
    hide Permitted, Grants;
    if k.Stamp? && DesiredValue(c, ns, pod, k).Some? {
      var scope := EffectiveHasGrant(c, ns, pod.labels, k.key);
      var d :| d in TierDirs(c, ns, pod.labels, scope, k.key);
      assert (k.key, d) in Permitted(c, ns, Grants(c, ns, pod.labels, scope));
    }
  }

  lemma EffectiveHasGrant(c: Cluster, ns: string, labels: map<LabelKey, string>, v: VnetKey) returns (scope: Scope)
    requires Effective(c, ns, labels, v).Some?
    ensures TierDirs(c, ns, labels, scope, v) != {}
  {
    scope := if TierDirs(c, ns, labels, ClusterBaseline, v) != {} then ClusterBaseline
             else if TierDirs(c, ns, labels, NamespaceBaseline, v) != {} then NamespaceBaseline
             else PodTier;
  }

  /** A membership is only ever granted by a key the pod's namespace is permitted to use. */
  lemma EffectiveIsPermitted(c: Cluster, ns: string, labels: map<LabelKey, string>, v: VnetKey) returns (key: VnetKey)
    requires Effective(c, ns, labels, v).Some?
    ensures Permits(c, key, ns) && StampedVnetKey(key) == v
  {
    var scope := EffectiveHasGrant(c, ns, labels, v);
    var d :| d in TierDirs(c, ns, labels, scope, v);
    assert (v, d) in Permitted(c, ns, Grants(c, ns, labels, scope));
    var g :| g in Grants(c, ns, labels, scope) && Permits(c, g.0, ns) && (StampedVnetKey(g.0), g.1) == (v, d);
    key := g.0;
  }

  /** Every membership stamp other than the cluster's names an existing vnet that admits the pod's namespace. */
  lemma StampsNameAdmittingVnets(c: Cluster, ns: string, pod: Pod, v: ObjectKey)
    requires VnetName(v) && v.name != CLUSTER && Stamp(CanonicalKey(v)) in Desired(c, ns, pod)
    ensures v in c.vnets && Admits(c, v.ns, c.vnets[v].allowed, ns)
  {
    DesiredLookup(c, ns, pod, Stamp(CanonicalKey(v)));
    var key := EffectiveIsPermitted(c, ns, pod.labels, CanonicalKey(v));
    CanonicalKeyOfUserVnet(v);
    assert key == CanonicalKey(v);
    PermitsCanonical(c, v, ns);
  }

  // ---- the algorithm ----

  ghost function GrantsOf(rules: seq<Rule>): set<Grant> {
    set r | r in rules :: (r.vnet, r.dir)
  }

  lemma GrantsOfAppend(rules: seq<Rule>, more: seq<Rule>)
    ensures GrantsOf(rules + more) == GrantsOf(rules) + GrantsOf(more)
  {
  }

  method BaselineRules(memberships: seq<Membership>, podNS: string, source: string) returns (rules: seq<Rule>)
    ensures GrantsOf(rules) == BaselineGrants(memberships, podNS)
  {
    rules := [];
    for i := 0 to |memberships|
      invariant GrantsOf(rules) == BaselineGrants(memberships[..i], podNS)
    {
      var m := memberships[i];
      assert memberships[..i + 1] == memberships[..i] + [m];
      var dir := ParseDirection(m.direction);
      if dir.Some? {
        var rule := Rule(CanonicalVnetKey(m.ref, podNS), dir.value, source);
        GrantsOfAppend(rules, [rule]);
        rules := rules + [rule];
      }
    }
    assert memberships[..|memberships|] == memberships;
  }

  method BindingRules(rd: Reader, ns: string, labels: map<LabelKey, string>) returns (r: Result<seq<Rule>>)
    modifies rd
    ensures r.Ok? ==> GrantsOf(r.value) == BindingGrants(rd.c, ns, labels) && rd.failed == old(rd.failed)
    ensures r.Err? ==> rd.failed
  {
    hide CanonicalVnetKey, Selects, ParseBareDirection;
    var list := rd.Read(set k | k in rd.c.bindings && k.ns == ns);
    if list.Err? { return Err; }
    var rules, todo := [], list.value;
    while todo != {}
      invariant todo <= list.value && rd.failed == old(rd.failed)
      invariant GrantsOf(rules) ==
                set k | k in rd.c.bindings && k.ns == ns && k !in todo && BindingApplies(rd.c.bindings[k], labels) ::
                  (CanonicalVnetKey(rd.c.bindings[k].ref, ns),
                   Direction(BindingDirection(rd.c.bindings[k]).value, false))
    {
      var k :| k in todo;
      var b := rd.c.bindings[k];
      if BindingApplies(b, labels) {
        var rule := Rule(CanonicalVnetKey(b.ref, ns), Direction(BindingDirection(b).value, false),
                         "VirtualNetworkBinding/" + k.name);
        GrantsOfAppend(rules, [rule]);
        rules := rules + [rule];
      }
      todo := todo - {k};
    }
    assert GrantsOf(rules) == BindingGrants(rd.c, ns, labels);
    r := Ok(rules);
  }

  method PodLabelRules(ns: string, labels: map<LabelKey, string>) returns (rules: seq<Rule>)
    ensures GrantsOf(rules) == LabelGrants(ns, labels)
  {
    rules := [];
    var todo := labels.Keys;
    while todo != {}
      invariant todo <= labels.Keys
      invariant GrantsOf(rules) ==
                set k | k in labels && k !in todo && LabelApplies(labels, k) ::
                  (CanonicalSuffix(k.suffix, ns), Direction(ParseBareDirection(labels[k]).value, false))
    {
      var k :| k in todo;
      if LabelApplies(labels, k) {
        var rule := Rule(CanonicalSuffix(k.suffix, ns), Direction(ParseBareDirection(labels[k]).value, false),
                         "pod label " + RenderLabel(k));
        GrantsOfAppend(rules, [rule]);
        rules := rules + [rule];
      }
      todo := todo - {k};
    }
  }

  /** Drops, in place, the rules naming vnets the namespace may not join: the first n slots are what survives. */
  method FilterPermittedRules(rd: Reader, rules: array<Rule>, podNS: string) returns (r: Result<nat>)
    modifies rd, rules
    ensures r.Ok? ==> r.value <= rules.Length && rd.failed == old(rd.failed)
    ensures r.Ok? ==> GrantsOf(rules[..r.value]) == Permitted(rd.c, podNS, GrantsOf(old(rules[..])))
    ensures r.Err? ==> rd.failed
  {
    ghost var input := rules[..];
    var n := 0;
    for i := 0 to rules.Length
      invariant 0 <= n <= i && rd.failed == old(rd.failed)
      invariant rules[i..] == input[i..]
      invariant GrantsOf(rules[..n]) == Permitted(rd.c, podNS, GrantsOf(input[..i]))
    {
      var rule := rules[i];
      assert rule == input[i];
      PermittedPrefix(rd.c, podNS, input, i);
      var ok := IsPermitted(rd, rule.vnet, podNS);
      if ok.Err? { return Err; }
      if ok.value {
        ghost var kept := rules[..n];
        rules[n] := rule.(vnet := StampedVnetKey(rule.vnet));
        n := n + 1;
        assert rules[..n] == kept + [rules[n - 1]];
        GrantsOfAppend(kept, [rules[n - 1]]);
      }
      assert rules[i + 1..] == input[i + 1..];
    }
    assert input[..rules.Length] == input;
    r := Ok(n);
  }

  lemma PermittedPrefix(c: Cluster, ns: string, rules: seq<Rule>, i: nat)
    requires i < |rules|
    ensures Permitted(c, ns, GrantsOf(rules[..i + 1])) ==
            Permitted(c, ns, GrantsOf(rules[..i])) +
            if Permits(c, rules[i].vnet, ns) then GrantsOf([rules[i].(vnet := StampedVnetKey(rules[i].vnet))]) else {}
  {
    var rule := rules[i];
    var stamped := rule.(vnet := StampedVnetKey(rule.vnet));
    assert rules[..i + 1] == rules[..i] + [rule];
    GrantsOfAppend(rules[..i], [rule]);
    assert GrantsOf([rule]) == {(rule.vnet, rule.dir)};
    assert GrantsOf([stamped]) == {(stamped.vnet, stamped.dir)};
  }

  method TierRules(rd: Reader, ns: string, labels: map<LabelKey, string>, scope: Scope) returns (r: Result<seq<Rule>>)
    modifies rd
    ensures r.Ok? ==> GrantsOf(r.value) == Grants(rd.c, ns, labels, scope) && rd.failed == old(rd.failed)
    ensures r.Err? ==> rd.failed
  {
    match scope
    case ClusterBaseline =>
      var read := rd.Read(rd.c.clusterBaseline);
      if read.Err? { return Err; }
      var rules := [];
      if read.value.Some? { rules := BaselineRules(read.value.value, ns, "ClusterVirtualNetworkBaseline/default"); }
      r := Ok(rules);
    case NamespaceBaseline =>
      var read := rd.Read(Lookup(rd.c.nsBaselines, ns));
      if read.Err? { return Err; }
      var rules := [];
      if read.value.Some? {
        rules := BaselineRules(read.value.value, ns, "VirtualNetworkBaseline/" + ns + "/default");
      }
      r := Ok(rules);
    case PodTier =>
      var bindings := BindingRules(rd, ns, labels);
      if bindings.Err? { return Err; }
      var own := PodLabelRules(ns, labels);
      GrantsOfAppend(bindings.value, own);
      r := Ok(bindings.value + own);
  }

  /** One tier's rules after the permission filter. */
  method PermittedTierRules(rd: Reader, ns: string, labels: map<LabelKey, string>, scope: Scope)
    returns (r: Result<seq<Rule>>)
    modifies rd
    ensures r.Ok? ==> GrantsOf(r.value) == Permitted(rd.c, ns, Grants(rd.c, ns, labels, scope))
    ensures r.Ok? ==> rd.failed == old(rd.failed)
    ensures r.Err? ==> rd.failed
  {
    var rules := TierRules(rd, ns, labels, scope);
    if rules.Err? { return Err; }
    var slots := new Rule[|rules.value|](i requires 0 <= i < |rules.value| => rules.value[i]);
    assert slots[..] == rules.value;
    var n := FilterPermittedRules(rd, slots, ns);
    if n.Err? { return Err; }
    r := Ok(slots[..n.value]);
  }

  /** The layers of the first `rank` tiers grant exactly what those tiers do. */
  ghost predicate Built(c: Cluster, ns: string, labels: map<LabelKey, string>, layers: seq<Layer>, rank: nat) {
    && DistinctScopes(layers)
    && (forall l | l in layers :: l.scope.Rank() < rank)
    && (forall l | l in layers :: GrantsOf(l.rules) == Permitted(c, ns, Grants(c, ns, labels, l.scope)))
    && (forall s: Scope | s.Rank() < rank ::
          (exists l :: l in layers && l.scope == s) || Permitted(c, ns, Grants(c, ns, labels, s)) == {})
  }

  method BuildLayers(rd: Reader, ns: string, labels: map<LabelKey, string>) returns (r: Result<seq<Layer>>)
    modifies rd
    ensures r.Ok? ==> Built(rd.c, ns, labels, r.value, 3) && rd.failed == old(rd.failed)
    ensures r.Err? ==> rd.failed
  {
    var layers: seq<Layer> := [];
    for rank := 0 to 3
      invariant Built(rd.c, ns, labels, layers, rank) && rd.failed == old(rd.failed)
    {
      var rules := PermittedTierRules(rd, ns, labels, ScopeOf(rank));
      if rules.Err? { return Err; }
      BuiltStep(rd.c, ns, labels, layers, rank, rules.value);
      if rules.value != [] { layers := layers + [Layer(ScopeOf(rank), rules.value)]; }
    }
    r := Ok(layers);
  }

  lemma BuiltStep(c: Cluster, ns: string, labels: map<LabelKey, string>, layers: seq<Layer>, rank: nat,
                  rules: seq<Rule>)
    requires rank < 3 && Built(c, ns, labels, layers, rank)
    requires GrantsOf(rules) == Permitted(c, ns, Grants(c, ns, labels, ScopeOf(rank)))
    ensures Built(c, ns, labels, if rules != [] then layers + [Layer(ScopeOf(rank), rules)] else layers, rank + 1)
  {
  }

  lemma BuiltTiers(c: Cluster, ns: string, labels: map<LabelKey, string>, layers: seq<Layer>, scope: Scope, v: VnetKey)
    requires Built(c, ns, labels, layers, 3)
    ensures Tier(layers, scope, v) == TierDirs(c, ns, labels, scope, v)
  {
    if l :| l in layers && l.scope == scope {
      TierOfLayer(layers, l, v);
      forall d ensures d in Dirs(l.rules, v) <==> (v, d) in GrantsOf(l.rules) {}
    }
  }

  /**
   * The complete set of labels a pod should carry. For any pattern of failing reads the answer is either an error
   * or exactly the failure-free one: a blip never strips or narrows a membership.
   */
  method DesiredLabels(rd: Reader, ns: string, pod: Pod) returns (r: Result<map<LabelKey, string>>)
    modifies rd
    ensures Exact(r, Desired(rd.c, ns, pod), rd.failed, old(rd.failed))
  {
    var layers := BuildLayers(rd, ns, pod.labels);
    if layers.Err? { return Err; }
    var res := Resolve(layers.value);
    DesiredFromResult(rd.c, ns, pod, layers.value, res.effective);
    r := Ok(OperatorLabels(res.effective, pod.hostPorts));
  }

  /** The labels for a set of memberships and host ports. */
  function OperatorLabels(effective: map<VnetKey, Base>, hostPorts: set<string>): map<LabelKey, string> {
    (map v | v in effective :: Stamp(v) := BaseName(effective[v])) +
    (map id | id in hostPorts :: HostPort(id) := "true")
  }

  lemma ResolvedIsEffective(
    c: Cluster, ns: string, labels: map<LabelKey, string>, layers: seq<Layer>, v: VnetKey, found: Option<Base>)
    requires Built(c, ns, labels, layers, 3)
    requires forall b :: found == Some(b) <==> Resolves(SortByScope(layers), v, b)
    ensures found == Effective(c, ns, labels, v)
  {
    hide TierDirs, Resolves;
    BuiltTiers(c, ns, labels, layers, ClusterBaseline, v);
    BuiltTiers(c, ns, labels, layers, NamespaceBaseline, v);
    BuiltTiers(c, ns, labels, layers, PodTier, v);
    forall b ensures found == Some(b) <==> Effective(c, ns, labels, v) == Some(b) {
      ResolvesByTier(layers, v, b);
    }
    if found.Some? { assert Effective(c, ns, labels, v) == Some(found.value); }
  }

  lemma DesiredFromResult(c: Cluster, ns: string, pod: Pod, layers: seq<Layer>, effective: map<VnetKey, Base>)
    requires Built(c, ns, pod.labels, layers, 3)
    requires forall v, b :: Lookup(effective, v) == Some(b) <==> Resolves(SortByScope(layers), v, b)
    ensures OperatorLabels(effective, pod.hostPorts) == Desired(c, ns, pod)
  {
    forall v ensures Lookup(effective, v) == Effective(c, ns, pod.labels, v) {
      ResolvedIsEffective(c, ns, pod.labels, layers, v, Lookup(effective, v));
    }
    DesiredFromEffective(c, ns, pod, effective);
  }

  lemma DesiredFromEffective(c: Cluster, ns: string, pod: Pod, effective: map<VnetKey, Base>)
    requires forall v :: Lookup(effective, v) == Effective(c, ns, pod.labels, v)
    ensures OperatorLabels(effective, pod.hostPorts) == Desired(c, ns, pod)
  {
    var labels := OperatorLabels(effective, pod.hostPorts);
    forall k ensures Lookup(labels, k) == Lookup(Desired(c, ns, pod), k) {
      DesiredLookup(c, ns, pod, k);
      if k.Stamp? { assert Lookup(effective, k.key) == Effective(c, ns, pod.labels, k.key); }
    }
    SameMap(labels, Desired(c, ns, pod));
  }
}
