/**
 * What users ask for, read off the fields of the objects they write: which object decides on a membership, and how it
 * is decided. Nothing here knows of keys, rules, grants or layers; that the resolver comes to the same through them,
 * for every vnet and every pod, is the theorem of this module.
 */
module Intent {
  import opened Prelude
  import opened Names
  import opened Directions
  import opened Resolution
  import opened Cluster
  import opened Resolver

  /** The vnet exists, and pods in ns may join it. */
  predicate Open(c: Cluster, v: ObjectKey, ns: string) {
    v in c.vnets && Admits(c, v.ns, c.vnets[v].allowed, ns)
  }

  /** In ns, this reference is one to v. The cluster vnet goes by its name alone, or by a home that has one. */
  predicate RefersTo(c: Cluster, ns: string, ref: Ref, v: ObjectKey) {
    if v.name == CLUSTER then
      ref == Ref("", CLUSTER) ||
      (ref.name == CLUSTER && DnsLabel(ref.ns) && Open(c, ObjectKey(ref.ns, CLUSTER), ns))
    else Open(c, v, ns) && (ref == Ref(v.ns, v.name) || (ref == Ref("", v.name) && ns == v.ns))
  }

  /** In ns, this label is a join label for v. */
  predicate JoinsBy(c: Cluster, ns: string, k: LabelKey, v: ObjectKey) {
    if v.name == CLUSTER then k == Join(CLUSTER)
    else Open(c, v, ns) && (k == Join(v.ns + "." + v.name) || (k == Join(v.name) && ns == v.ns))
  }

  ghost function BaselineSays(c: Cluster, ns: string, baseline: seq<Membership>, v: ObjectKey): set<Direction> {
    set m | m in baseline && RefersTo(c, ns, m.ref, v) && ParseDirection(m.direction).Some? ::
      ParseDirection(m.direction).value
  }

  ghost function ClusterSays(c: Cluster, ns: string, v: ObjectKey): set<Direction> {
    if c.clusterBaseline.Some? then BaselineSays(c, ns, c.clusterBaseline.value, v) else {}
  }

  ghost function NamespaceSays(c: Cluster, ns: string, v: ObjectKey): set<Direction> {
    if ns in c.nsBaselines then BaselineSays(c, ns, c.nsBaselines[ns], v) else {}
  }

  /** The field of a binding may be left empty. */
  function AskedBy(b: Binding): Option<Base> {
    if b.direction == "" then Some(Both) else ParseBareDirection(b.direction)
  }

  ghost function BindingsSay(c: Cluster, ns: string, labels: map<LabelKey, string>, v: ObjectKey): set<Direction> {
    set k | k in c.bindings && k.ns == ns && Selects(c.bindings[k].podSelector, labels) &&
            RefersTo(c, ns, c.bindings[k].ref, v) && AskedBy(c.bindings[k]).Some? ::
      Direction(AskedBy(c.bindings[k]).value, false)
  }

  ghost function LabelsSay(c: Cluster, ns: string, labels: map<LabelKey, string>, v: ObjectKey): set<Direction> {
    set k | k in labels && JoinsBy(c, ns, k, v) && ParseBareDirection(labels[k]).Some? ::
      Direction(ParseBareDirection(labels[k]).value, false)
  }

  ghost function PodSays(c: Cluster, ns: string, labels: map<LabelKey, string>, v: ObjectKey): set<Direction> {
    BindingsSay(c, ns, labels, v) + LabelsSay(c, ns, labels, v)
  }

  /** Something said is bare, so nothing below may change it. */
  ghost predicate IsPinned(said: set<Direction>) {
    exists d | d in said :: !d.isDefault
  }

  /** What decides on v: the first pin, or else the last to speak of v. */
  ghost function Deciding(c: Cluster, ns: string, labels: map<LabelKey, string>, v: ObjectKey): set<Direction> {
    var (cluster, namespace_, pod) := (ClusterSays(c, ns, v), NamespaceSays(c, ns, v), PodSays(c, ns, labels, v));
    if IsPinned(cluster) then cluster
    else if IsPinned(namespace_) then namespace_
    else if pod != {} then pod
    else if namespace_ != {} then namespace_
    else cluster
  }

  /** The membership that decides on: what all of it grants, and none if that is nothing. */
  ghost function Granted(said: set<Direction>): Option<Base> {
    if said == {} || Meet(said).base == NoDir then None else Some(Meet(said).base)
  }

  ghost function Decided(c: Cluster, ns: string, labels: map<LabelKey, string>, v: ObjectKey): Option<Base> {
    Granted(Deciding(c, ns, labels, v))
  }

  // ---- the keys of references and labels ----

  /** The key has v's stamp, and ns may use it. */
  ghost predicate Grantable(c: Cluster, ns: string, key: VnetKey, v: ObjectKey) {
    Permits(c, key, ns) && StampedVnetKey(key) == CanonicalKey(v)
  }

  lemma UserKeyGrantable(c: Cluster, ns: string, key: VnetKey, v: ObjectKey)
    requires VnetName(v) && v.name != CLUSTER
    ensures Grantable(c, ns, key, v) <==> key == v.ns + "." + v.name && Open(c, v, ns)
  {
    CanonicalKeyOfUserVnet(v);
    PermitsCanonical(c, v, ns);
  }

  lemma ClusterKeyGrantable(c: Cluster, ns: string, home: string, name: string, v: ObjectKey)
    requires v.name == CLUSTER
    ensures Grantable(c, ns, CLUSTER, v)
    ensures '.' !in home ==>
      (Grantable(c, ns, home + "." + name, v) <==>
       home != "" && name == CLUSTER && Open(c, ObjectKey(home, CLUSTER), ns))
  {
    hide Admits, Cut;
    if '.' !in home {
      CutJoin(home, name);
      assert (home + "." + name)[|home|] == '.';
      assert '.' !in CLUSTER;
    }
  }

  /** A key with a dot more than the two parts of a vnet is no key of the cluster vnet. */
  lemma DottedHomeNotCluster(c: Cluster, ns: string, home: string, name: string, v: ObjectKey)
    requires v.name == CLUSTER && '.' in home
    ensures !Grantable(c, ns, home + "." + name, v)
  {
    CutParts(home);
    var parts := Cut(home).value;
    CutJoin(parts.0, parts.1 + "." + name);
    assert home + "." + name == parts.0 + "." + (parts.1 + "." + name);
    assert (parts.1 + "." + name)[|parts.1|] == '.';
    assert (home + "." + name)[|parts.0|] == '.';
    assert '.' !in CLUSTER;
  }

  lemma OneDot(a: string, b: string, v: ObjectKey)
    requires VnetName(v)
    ensures a + "." + b == v.ns + "." + v.name <==> a == v.ns && b == v.name
  {
    if a + "." + b == v.ns + "." + v.name {
      OnlyDot(v.ns, v.name);
      assert (a + "." + b)[|a|] == '.';
      assert a == (a + "." + b)[..|a|] && b == (a + "." + b)[|a| + 1..];
      assert v.ns == (v.ns + "." + v.name)[..|v.ns|];
    }
  }

  lemma RefersByKey(c: Cluster, ns: string, ref: Ref, v: ObjectKey)
    requires VnetName(v)
    ensures RefersTo(c, ns, ref, v) <==> Grantable(c, ns, CanonicalVnetKey(ref, ns), v)
  {
    hide Grantable, Open;
    var home := if ref.ns == "" then ns else ref.ns;
    if v.name != CLUSTER {
      UserKeyGrantable(c, ns, CanonicalVnetKey(ref, ns), v);
      OneDot(home, ref.name, v);
      assert '.' in v.ns + "." + v.name by { assert (v.ns + "." + v.name)[|v.ns|] == '.'; }
      assert '.' !in CLUSTER;
    } else {
      ClusterKeyGrantable(c, ns, home, ref.name, v);
      if '.' in home { DottedHomeNotCluster(c, ns, home, ref.name, v); }
    }
  }

  lemma JoinsByKey(c: Cluster, ns: string, suffix: string, v: ObjectKey)
    requires VnetName(v)
    ensures JoinsBy(c, ns, Join(suffix), v) <==>
            !IsPrefixedClusterSuffix(suffix) && Grantable(c, ns, CanonicalSuffix(suffix, ns), v)
  {
    hide Grantable, Open;
    if v.name != CLUSTER {
      UserJoinsByKey(c, ns, suffix, v);
    } else {
      ClusterJoinsByKey(c, ns, suffix, v);
    }
  }

  lemma UserJoinsByKey(c: Cluster, ns: string, suffix: string, v: ObjectKey)
    requires VnetName(v) && v.name != CLUSTER
    ensures JoinsBy(c, ns, Join(suffix), v) <==>
            !IsPrefixedClusterSuffix(suffix) && Grantable(c, ns, CanonicalSuffix(suffix, ns), v)
  {
    hide Grantable, Open, IsPrefixedClusterSuffix;
    UserKeyGrantable(c, ns, CanonicalSuffix(suffix, ns), v);
    NotPrefixedCluster(v);
    OneDot(ns, suffix, v);
    assert (v.ns + "." + v.name)[|v.ns|] == '.';
    assert '.' !in CLUSTER;
  }

  lemma ClusterJoinsByKey(c: Cluster, ns: string, suffix: string, v: ObjectKey)
    requires v.name == CLUSTER
    ensures suffix == CLUSTER <==>
            !IsPrefixedClusterSuffix(suffix) && Grantable(c, ns, CanonicalSuffix(suffix, ns), v)
  {
    hide Grantable, Open;
    ClusterKeyGrantable(c, ns, ns, suffix, v);
    if '.' in ns { DottedHomeNotCluster(c, ns, ns, suffix, v); }
    if '.' in suffix {
      CutParts(suffix);
      var parts := Cut(suffix).value;
      ClusterKeyGrantable(c, ns, parts.0, parts.1, v);
      if parts.1 == CLUSTER { PrefixedTail(parts.0); }
    }
  }

  lemma PrefixedTail(home: string)
    ensures IsPrefixedClusterSuffix(home + "." + CLUSTER)
  {
    var s, tail := home + "." + CLUSTER, "." + CLUSTER;
    assert s == home + tail;
    assert s[|s| - |tail|..] == tail;
  }

  // ---- the tiers ----

  lemma BaselineTier(c: Cluster, ns: string, baseline: seq<Membership>, v: ObjectKey)
    requires VnetName(v)
    ensures (set g | g in Permitted(c, ns, BaselineGrants(baseline, ns)) && g.0 == CanonicalKey(v) :: g.1) ==
            BaselineSays(c, ns, baseline, v)
  {
    hide RefersTo, CanonicalVnetKey, StampedVnetKey, CanonicalKey, ParseDirection, Permits;
    var grants := BaselineGrants(baseline, ns);
    forall m | m in baseline ensures RefersTo(c, ns, m.ref, v) <==> Grantable(c, ns, CanonicalVnetKey(m.ref, ns), v) {
      RefersByKey(c, ns, m.ref, v);
    }
    forall m | m in baseline && RefersTo(c, ns, m.ref, v) && ParseDirection(m.direction).Some?
      ensures (CanonicalKey(v), ParseDirection(m.direction).value) in Permitted(c, ns, grants)
    {
      assert (CanonicalVnetKey(m.ref, ns), ParseDirection(m.direction).value) in grants;
    }
  }

  lemma BindingTier(c: Cluster, ns: string, labels: map<LabelKey, string>, v: ObjectKey)
    requires VnetName(v)
    ensures (set g | g in Permitted(c, ns, BindingGrants(c, ns, labels)) && g.0 == CanonicalKey(v) :: g.1) ==
            BindingsSay(c, ns, labels, v)
  {
    hide RefersTo, CanonicalVnetKey, StampedVnetKey, CanonicalKey, ParseBareDirection, Permits, Selects;
    var grants := BindingGrants(c, ns, labels);
    forall k | k in c.bindings
      ensures RefersTo(c, ns, c.bindings[k].ref, v) <==> Grantable(c, ns, CanonicalVnetKey(c.bindings[k].ref, ns), v)
      ensures AskedBy(c.bindings[k]) == BindingDirection(c.bindings[k])
    {
      RefersByKey(c, ns, c.bindings[k].ref, v);
      ParseInvertsRender(Direction(Both, false), "both");
    }
    forall k | k in c.bindings && k.ns == ns && Selects(c.bindings[k].podSelector, labels) &&
               RefersTo(c, ns, c.bindings[k].ref, v) && AskedBy(c.bindings[k]).Some?
      ensures (CanonicalKey(v), Direction(AskedBy(c.bindings[k]).value, false)) in Permitted(c, ns, grants)
    {
      assert (CanonicalVnetKey(c.bindings[k].ref, ns), Direction(AskedBy(c.bindings[k]).value, false)) in grants;
    }
  }

  lemma LabelTier(c: Cluster, ns: string, labels: map<LabelKey, string>, v: ObjectKey)
    requires VnetName(v)
    ensures (set g | g in Permitted(c, ns, LabelGrants(ns, labels)) && g.0 == CanonicalKey(v) :: g.1) ==
            LabelsSay(c, ns, labels, v)
  {
    hide JoinsBy, CanonicalSuffix, StampedVnetKey, CanonicalKey, ParseBareDirection, Permits, IsPrefixedClusterSuffix;
    var grants := LabelGrants(ns, labels);
    forall k | k in labels
      ensures JoinsBy(c, ns, k, v) <==>
              k.Join? && !IsPrefixedClusterSuffix(k.suffix) && Grantable(c, ns, CanonicalSuffix(k.suffix, ns), v)
    {
      if k.Join? { JoinsByKey(c, ns, k.suffix, v); } else { OnlyJoinLabelsJoin(c, ns, k, v); }
    }
    forall k | k in labels && JoinsBy(c, ns, k, v) && ParseBareDirection(labels[k]).Some?
      ensures (CanonicalKey(v), Direction(ParseBareDirection(labels[k]).value, false)) in Permitted(c, ns, grants)
    {
      assert (CanonicalSuffix(k.suffix, ns), Direction(ParseBareDirection(labels[k]).value, false)) in grants;
    }
  }

  lemma OnlyJoinLabelsJoin(c: Cluster, ns: string, k: LabelKey, v: ObjectKey)
    ensures JoinsBy(c, ns, k, v) ==> k.Join?
  {
  }

  lemma TiersSay(c: Cluster, ns: string, labels: map<LabelKey, string>, v: ObjectKey)
    requires VnetName(v)
    ensures TierDirs(c, ns, labels, ClusterBaseline, CanonicalKey(v)) == ClusterSays(c, ns, v)
    ensures TierDirs(c, ns, labels, NamespaceBaseline, CanonicalKey(v)) == NamespaceSays(c, ns, v)
    ensures TierDirs(c, ns, labels, PodTier, CanonicalKey(v)) == PodSays(c, ns, labels, v)
  {
    hide BaselineGrants, BindingGrants, LabelGrants, BaselineSays, BindingsSay, LabelsSay, CanonicalKey, Permits,
         StampedVnetKey;
    if c.clusterBaseline.Some? { BaselineTier(c, ns, c.clusterBaseline.value, v); }
    if ns in c.nsBaselines { BaselineTier(c, ns, c.nsBaselines[ns], v); }
    BindingTier(c, ns, labels, v);
    LabelTier(c, ns, labels, v);
    var bindings, own := BindingGrants(c, ns, labels), LabelGrants(ns, labels);
    assert Permitted(c, ns, bindings + own) == Permitted(c, ns, bindings) + Permitted(c, ns, own);
  }

  /** The resolver's answer for a vnet is the membership its users decided on. */
  lemma EffectiveIsDecided(c: Cluster, ns: string, labels: map<LabelKey, string>, v: ObjectKey)
    requires VnetName(v)
    ensures Effective(c, ns, labels, CanonicalKey(v)) == Decided(c, ns, labels, v)
  {
    hide TierDirs, ClusterSays, NamespaceSays, PodSays;
    TiersSay(c, ns, labels, v);
  }

  // ---- the desired labels ----

  /** The stamp for what decides: no stamp where nothing is said, or where it grants nothing. */
  ghost function StampFor(said: set<Direction>): Option<string> {
    match Granted(said)
    case Some(b) => Some(BaseName(b))
    case None => None
  }

  /**
   * Which object decides on the stamp of a vnet. A bare membership in the cluster baseline does, whatever the baseline
   * of the namespace, the bindings and the labels say; failing that one in the baseline of the namespace; failing both,
   * the bindings and join labels together, and the defaults only if these are silent, the namespace's first.
   */
  lemma StampIsDecided(c: Cluster, ns: string, pod: Pod, v: ObjectKey)
    requires VnetName(v)
    ensures var stamp := Lookup(Desired(c, ns, pod), Stamp(CanonicalKey(v)));
      var (cluster, namespace_, own) := (ClusterSays(c, ns, v), NamespaceSays(c, ns, v), PodSays(c, ns, pod.labels, v));
      && (IsPinned(cluster) ==> stamp == StampFor(cluster))
      && (!IsPinned(cluster) && IsPinned(namespace_) ==> stamp == StampFor(namespace_))
      && (!IsPinned(cluster) && !IsPinned(namespace_) ==>
            stamp == StampFor(if own != {} then own else if namespace_ != {} then namespace_ else cluster))
  {
    hide ClusterSays, NamespaceSays, PodSays, Effective, Desired, CanonicalKey, Granted;
    DesiredLookup(c, ns, pod, Stamp(CanonicalKey(v)));
    EffectiveIsDecided(c, ns, pod.labels, v);
  }

  /** The other labels the operator sets are those of the declared host ports; it sets no label of a user. */
  lemma OnlyStampsAndHostPorts(c: Cluster, ns: string, pod: Pod, k: LabelKey)
    requires !k.Stamp?
    ensures Lookup(Desired(c, ns, pod), k) == if k.HostPort? && k.id in pod.hostPorts then Some("true") else None
  {
    DesiredLookup(c, ns, pod, k);
  }

  /** The bare `cluster` label is enough to join the cluster vnet, from any namespace and whatever vnets there are. */
  lemma ClusterLabelJoins(c: Cluster, ns: string, pod: Pod)
    requires c.clusterBaseline.None? && ns !in c.nsBaselines && forall k | k in c.bindings :: k.ns != ns
    requires Join(CLUSTER) in pod.labels && pod.labels[Join(CLUSTER)] in {"both", "ingress", "egress"}
    ensures Lookup(Desired(c, ns, pod), Stamp(CLUSTER)) == Some(pod.labels[Join(CLUSTER)])
  {
    hide Desired, Meet, PodSays, ParseBareDirection;
    var v, value := ObjectKey(CLUSTER, CLUSTER), pod.labels[Join(CLUSTER)];
    StampIsDecided(c, ns, pod, v);
    var b := BareValue(value);
    OnlyLabelSays(c, ns, pod.labels, v, b);
    MeetOfOne(Direction(b, false));
  }

  lemma BareValue(value: string) returns (b: Base)
    requires value in {"both", "ingress", "egress"}
    ensures ParseBareDirection(value) == Some(b) && BaseName(b) == value && b != NoDir
  {
    b := if value == "both" then Both else if value == "ingress" then Ingress else Egress;
    ParseInvertsRender(Direction(b, false), value);
  }

  lemma OnlyLabelSays(c: Cluster, ns: string, labels: map<LabelKey, string>, v: ObjectKey, b: Base)
    requires v.name == CLUSTER && forall k | k in c.bindings :: k.ns != ns
    requires Join(CLUSTER) in labels && ParseBareDirection(labels[Join(CLUSTER)]) == Some(b)
    ensures PodSays(c, ns, labels, v) == {Direction(b, false)}
  {
    hide ParseBareDirection, RefersTo, Selects;
    assert JoinsBy(c, ns, Join(CLUSTER), v);
  }

  lemma MeetOfOne(d: Direction)
    ensures Meet({d}) == d
  {
    assert d in {d};
  }
}
