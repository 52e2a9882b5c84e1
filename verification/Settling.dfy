/** When resolving a pod again and again comes to rest. */
module Settling {
  import opened Prelude
  import opened Names
  import opened Directions
  import opened Cluster
  import opened Resolution
  import opened Resolver
  import opened Stamps
  import opened Protocol

  // ---- what a second resolution sees ----

  /** Two label sets differ at most in stamps. */
  ghost predicate SameUserLabels(a: map<LabelKey, string>, b: map<LabelKey, string>) {
    forall k | !ResolutionManaged(k) :: Lookup(a, k) == Lookup(b, k)
  }

  /** No binding of the namespace tells the two label sets apart. */
  ghost predicate SelectsAlike(c: Cluster, ns: string, a: map<LabelKey, string>, b: map<LabelKey, string>) {
    forall k | k in c.bindings && k.ns == ns :: BindingApplies(c.bindings[k], a) <==> BindingApplies(c.bindings[k], b)
  }

  /** The selector looks at none of the labels resolution writes. */
  ghost predicate AvoidsStamps(sel: Selector<LabelKey>) {
    sel.Selector? ==>
      (forall k | k in sel.matchLabels :: !ResolutionManaged(k)) &&
      (forall r | r in sel.exprs :: !ResolutionManaged(r.key))
  }

  lemma SameSelection(sel: Selector<LabelKey>, a: map<LabelKey, string>, b: map<LabelKey, string>)
    requires AvoidsStamps(sel) && SameUserLabels(a, b)
    ensures Selects(sel, a) <==> Selects(sel, b)
  {
    if sel.Selector? {
      forall k | k in sel.matchLabels ensures Lookup(a, k) == Lookup(b, k) {}
      forall r | r in sel.exprs ensures Meets(r, a) <==> Meets(r, b) {
        assert Lookup(a, r.key) == Lookup(b, r.key);
      }
      SameMatches(sel, a, b);
    }
  }

  lemma SameMatches(sel: Selector<LabelKey>, a: map<LabelKey, string>, b: map<LabelKey, string>)
    requires sel.Selector?
    requires forall k | k in sel.matchLabels :: Lookup(a, k) == Lookup(b, k)
    requires forall r | r in sel.exprs :: Meets(r, a) <==> Meets(r, b)
    ensures Selects(sel, a) <==> Selects(sel, b)
  {
    forall k | k in sel.matchLabels
      ensures (k in a && a[k] == sel.matchLabels[k]) <==> (k in b && b[k] == sel.matchLabels[k])
    {
      assert Lookup(a, k) == Lookup(b, k);
    }
  }

  /** Bindings that do not select on stamps cannot tell a pod from its resolved form. */
  lemma AvoidingStampsSelectsAlike(c: Cluster, ns: string, a: map<LabelKey, string>, b: map<LabelKey, string>)
    requires forall k | k in c.bindings && k.ns == ns :: AvoidsStamps(c.bindings[k].podSelector)
    requires SameUserLabels(a, b)
    ensures SelectsAlike(c, ns, a, b)
  {
    forall k | k in c.bindings && k.ns == ns
      ensures BindingApplies(c.bindings[k], a) <==> BindingApplies(c.bindings[k], b)
    {
      SameSelection(c.bindings[k].podSelector, a, b);
    }
  }

  lemma SameLabelGrants(ns: string, a: map<LabelKey, string>, b: map<LabelKey, string>)
    requires SameUserLabels(a, b)
    ensures LabelGrants(ns, a) <= LabelGrants(ns, b)
  {
    forall k | k in a && LabelApplies(a, k) ensures k in b && a[k] == b[k] {
      assert Lookup(a, k) == Lookup(b, k);
    }
  }

  lemma SameGrantsDesired(c: Cluster, ns: string, a: Pod, b: Pod)
    requires Grants(c, ns, a.labels, PodTier) == Grants(c, ns, b.labels, PodTier) && a.hostPorts == b.hostPorts
    ensures Desired(c, ns, a) == Desired(c, ns, b)
  {
    forall k ensures Lookup(Desired(c, ns, a), k) == Lookup(Desired(c, ns, b), k) {
      DesiredLookup(c, ns, a, k);
      DesiredLookup(c, ns, b, k);
      assert Grants(c, ns, a.labels, ClusterBaseline) == Grants(c, ns, b.labels, ClusterBaseline);
      assert Grants(c, ns, a.labels, NamespaceBaseline) == Grants(c, ns, b.labels, NamespaceBaseline);
    }
    SameMap(Desired(c, ns, a), Desired(c, ns, b));
  }

  /** Pods that differ in stamps alone resolve alike if the bindings do not tell them apart. */
  lemma SameLabelsSameDesired(c: Cluster, ns: string, a: Pod, b: Pod)
    requires SelectsAlike(c, ns, a.labels, b.labels) && SameUserLabels(a.labels, b.labels) && a.hostPorts == b.hostPorts
    ensures Desired(c, ns, a) == Desired(c, ns, b)
  {
    SameLabelGrants(ns, a.labels, b.labels);
    SameLabelGrants(ns, b.labels, a.labels);
    assert BindingGrants(c, ns, a.labels) == BindingGrants(c, ns, b.labels);
    SameGrantsDesired(c, ns, a, b);
  }

  lemma DesiredIsManaged(c: Cluster, ns: string, pod: Pod)
    ensures forall k | k in Desired(c, ns, pod) :: ResolutionManaged(k)
  {
  }

  lemma SyncIsIdempotent(labels: map<LabelKey, string>, desired: map<LabelKey, string>)
    requires forall k | k in desired :: ResolutionManaged(k)
    ensures Synced(Synced(labels, desired, OwnsAll), desired, OwnsAll) == Synced(labels, desired, OwnsAll)
    ensures SameUserLabels(labels, Synced(labels, desired, OwnsAll))
  {
  }

  /** Once synced, labels stay under another desired set iff it is the same set. */
  lemma SyncedStaysIff(labels: map<LabelKey, string>, desired: map<LabelKey, string>, next: map<LabelKey, string>)
    requires forall k | k in desired :: ResolutionManaged(k)
    requires forall k | k in next :: ResolutionManaged(k)
    ensures var once := Synced(labels, desired, OwnsAll);
      Synced(once, next, OwnsAll) == once <==> next == desired
  {
    var once := Synced(labels, desired, OwnsAll);
    if Synced(once, next, OwnsAll) == once {
      forall k ensures Lookup(next, k) == Lookup(desired, k) {
        SyncedLookup(labels, desired, OwnsAll, k);
        SyncedLookup(once, next, OwnsAll, k);
      }
      SameMap(next, desired);
    } else {
      SyncIsIdempotent(labels, desired);
    }
  }

  lemma MarkedIsResolved(pod: Pod, labels: map<LabelKey, string>)
    ensures Resolved(pod.(labels := labels, annotations := Marked(pod.annotations, pod.generation, "controller")))
  {
  }

  lemma ManagedResolution(cfg: Config, c: Cluster, ns: string, pod: Pod)
    requires Managed(cfg, c, ns)
    ensures var once, labels := ResolvedPod(cfg, c, ns, pod), Synced(pod.labels, Desired(c, ns, pod), OwnsAll);
      once.labels == labels && Resolved(once) && once.hostPorts == pod.hostPorts &&
      (once == pod <==> Resolved(pod) && labels == pod.labels)
  {
    hide Desired, Synced;
    MarkedIsResolved(pod, Synced(pod.labels, Desired(c, ns, pod), OwnsAll));
  }

  /**
   * One resolution is enough exactly when the stamps it writes do not change what the pod resolves to; stripping a pod
   * always is.
   */
  lemma ResolutionIsIdempotent(cfg: Config, c: Cluster, ns: string, pod: Pod)
    ensures var once := ResolvedPod(cfg, c, ns, pod);
      ResolvedPod(cfg, c, ns, once) == once <==> (Managed(cfg, c, ns) ==> Desired(c, ns, once) == Desired(c, ns, pod))
  {
    hide Desired, Managed, Synced, Resolved;
    var once := ResolvedPod(cfg, c, ns, pod);
    if Managed(cfg, c, ns) {
      ManagedResolution(cfg, c, ns, pod);
      ManagedResolution(cfg, c, ns, once);
      DesiredIsManaged(c, ns, pod);
      DesiredIsManaged(c, ns, once);
      SyncedStaysIff(pod.labels, Desired(c, ns, pod), Desired(c, ns, once));
    } else {
      SyncIsIdempotent(pod.labels, map[]);
    }
  }

  /** Which is so when no binding tells the pod from its resolved form. */
  lemma AlikeIsIdempotent(cfg: Config, c: Cluster, ns: string, pod: Pod)
    requires SelectsAlike(c, ns, pod.labels, ResolvedPod(cfg, c, ns, pod).labels)
    ensures var once := ResolvedPod(cfg, c, ns, pod); ResolvedPod(cfg, c, ns, once) == once
  {
    if Managed(cfg, c, ns) {
      ManagedResolution(cfg, c, ns, pod);
      DesiredIsManaged(c, ns, pod);
      SyncIsIdempotent(pod.labels, Desired(c, ns, pod));
      SameLabelsSameDesired(c, ns, pod, ResolvedPod(cfg, c, ns, pod));
    }
    ResolutionIsIdempotent(cfg, c, ns, pod);
  }

  // ---- coming to rest ----

  /** Within n writes, each of which the API server takes, resolution leaves the pod alone. */
  ghost predicate SettlesWithin(cfg: Config, c: Cluster, ns: string, pod: Pod, n: nat)
    decreases n
  {
    var next := ResolvedPod(cfg, c, ns, pod);
    next == pod || (n > 0 && LabelsFit(next.labels) && SettlesWithin(cfg, c, ns, next, n - 1))
  }

  ghost predicate Settles(cfg: Config, c: Cluster, ns: string, pod: Pod) {
    exists n: nat :: SettlesWithin(cfg, c, ns, pod, n)
  }

  lemma AlikeSettles(cfg: Config, c: Cluster, ns: string, pod: Pod)
    requires SelectsAlike(c, ns, pod.labels, ResolvedPod(cfg, c, ns, pod).labels)
    requires LabelsFit(ResolvedPod(cfg, c, ns, pod).labels)
    ensures Settles(cfg, c, ns, pod)
  {
    AlikeIsIdempotent(cfg, c, ns, pod);
    assert SettlesWithin(cfg, c, ns, ResolvedPod(cfg, c, ns, pod), 0);
    assert SettlesWithin(cfg, c, ns, pod, 1);
  }

  /** A pod settles iff its resolved form is writable and settles, or it is that form. */
  lemma SettlesByStep(cfg: Config, c: Cluster, ns: string, pod: Pod)
    ensures var next := ResolvedPod(cfg, c, ns, pod);
      Settles(cfg, c, ns, pod) <==> next == pod || (LabelsFit(next.labels) && Settles(cfg, c, ns, next))
  {
    var next := ResolvedPod(cfg, c, ns, pod);
    if n: nat :| SettlesWithin(cfg, c, ns, pod, n) {
      assert next == pod || SettlesWithin(cfg, c, ns, next, n - 1);
    }
    if next == pod {
      assert SettlesWithin(cfg, c, ns, pod, 0);
    } else if LabelsFit(next.labels) && Settles(cfg, c, ns, next) {
      var n: nat :| SettlesWithin(cfg, c, ns, next, n);
      assert SettlesWithin(cfg, c, ns, pod, n + 1);
    }
  }

  // ---- which pods the API server takes ----

  lemma ResolvedKeys(cfg: Config, c: Cluster, ns: string, pod: Pod, k: LabelKey)
    ensures k in ResolvedPod(cfg, c, ns, pod).labels <==>
            if ns !in c.namespaces || !ResolutionManaged(k) then k in pod.labels
            else Managed(cfg, c, ns) && k in Desired(c, ns, pod)
  {
    hide Desired, Managed, Synced, Resolved, Marked;
    DesiredIsManaged(c, ns, pod);
    SyncedLookup(pod.labels, Desired(c, ns, pod), OwnsAll, k);
    SyncedLookup(pod.labels, map[], OwnsAll, k);
    if ns in c.namespaces && Managed(cfg, c, ns) { ManagedResolution(cfg, c, ns, pod); }
  }

  /** The resolved form of a pod is refused iff it should carry a stamp whose key is too long. */
  lemma WritableIff(cfg: Config, c: Cluster, k: ObjectKey)
    requires WellFormed(cfg, c) && k in c.pods
    ensures Writable(cfg, c, k) <==>
            (Managed(cfg, c, k.ns) ==> forall v | Stamp(v) in Desired(c, k.ns, c.pods[k]) :: |v| <= MAX_NET_KEY)
  {
    hide Desired, Managed, ResolvedPod, NamespaceName, VnetName;
    var next := ResolvedPod(cfg, c, k.ns, c.pods[k]);
    forall l: LabelKey
      ensures l in next.labels <==>
              if !ResolutionManaged(l) then l in c.pods[k].labels
              else Managed(cfg, c, k.ns) && l in Desired(c, k.ns, c.pods[k])
    {
      ResolvedKeys(cfg, c, k.ns, c.pods[k], l);
    }
    if Managed(cfg, c, k.ns) {
      forall v | Stamp(v) in Desired(c, k.ns, c.pods[k]) ensures Stamp(v) in next.labels {
        assert ResolutionManaged(Stamp(v));
      }
    }
  }

  /** The key of a vnet fits iff it is `cluster`, or its namespace and name have at most 58 characters together. */
  lemma KeyFitsIff(v: ObjectKey)
    ensures |CanonicalKey(v)| <= MAX_NET_KEY <==> v.name == CLUSTER || |v.ns| + |v.name| <= MAX_NET_KEY - 1
  {
  }

  // ---- a namespace with one binding ----

  /** b is the only source of memberships in ns. */
  ghost predicate OnlySource(cfg: Config, c: Cluster, ns: string, b: Binding) {
    && Managed(cfg, c, ns) && c.clusterBaseline.None? && ns !in c.nsBaselines
    && (exists k | k in c.bindings :: k.ns == ns && c.bindings[k] == b)
    && (forall k | k in c.bindings && k.ns == ns :: c.bindings[k] == b)
  }

  /** b makes a pod with these labels a member: it counts, and it selects them. */
  ghost predicate TakesIn(c: Cluster, ns: string, b: Binding, labels: map<LabelKey, string>) {
    Counts(c, ns, b) && Selects(b.podSelector, labels)
  }

  /** The vnet of b admits ns, and its direction grants something. */
  ghost predicate Counts(c: Cluster, ns: string, b: Binding) {
    Permits(c, CanonicalVnetKey(b.ref, ns), ns) && BindingDirection(b).Some? && BindingDirection(b).value != NoDir
  }

  lemma SourceIsManaged(cfg: Config, c: Cluster, ns: string, b: Binding)
    requires OnlySource(cfg, c, ns, b)
    ensures Managed(cfg, c, ns)
  {
  }

  function BoundKey(b: Binding, ns: string): VnetKey {
    StampedVnetKey(CanonicalVnetKey(b.ref, ns))
  }

  /** The stamps of a pod outside the vnet, and inside it. */
  function HostStamps(hostPorts: set<string>): map<LabelKey, string> {
    map id | id in hostPorts :: HostPort(id) := "true"
  }

  function BoundStamps(b: Binding, ns: string, hostPorts: set<string>): map<LabelKey, string> {
    HostStamps(hostPorts)[Stamp(BoundKey(b, ns)) :=
      BaseName(if BindingDirection(b).Some? then BindingDirection(b).value else NoDir)]
  }

  function Outside(pod: Pod): map<LabelKey, string> {
    Synced(pod.labels, HostStamps(pod.hostPorts), OwnsAll)
  }

  function Inside(b: Binding, ns: string, pod: Pod): map<LabelKey, string> {
    Synced(pod.labels, BoundStamps(b, ns, pod.hostPorts), OwnsAll)
  }

  ghost predicate NoJoinLabels(labels: map<LabelKey, string>) {
    forall k | k in labels :: !k.Join?
  }

  lemma NoLabelGrants(ns: string, labels: map<LabelKey, string>)
    requires NoJoinLabels(labels)
    ensures LabelGrants(ns, labels) == {}
  {
  }

  function BoundGrant(b: Binding, ns: string): set<Grant> {
    if BindingDirection(b).Some?
    then {(CanonicalVnetKey(b.ref, ns), Direction(BindingDirection(b).value, false))} else {}
  }

  lemma OneBindingGrants(cfg: Config, c: Cluster, ns: string, b: Binding, labels: map<LabelKey, string>)
    requires OnlySource(cfg, c, ns, b)
    ensures BindingGrants(c, ns, labels) == if Selects(b.podSelector, labels) then BoundGrant(b, ns) else {}
  {
    hide Selects, CanonicalVnetKey, Managed;
    var k :| k in c.bindings && k.ns == ns && c.bindings[k] == b;
    if Selects(b.podSelector, labels) && BindingDirection(b).Some? {
      assert BindingApplies(c.bindings[k], labels);
      assert (CanonicalVnetKey(b.ref, ns), Direction(BindingDirection(b).value, false)) in BindingGrants(c, ns, labels);
    }
  }

  lemma BoundGrants(cfg: Config, c: Cluster, ns: string, b: Binding, labels: map<LabelKey, string>)
    requires OnlySource(cfg, c, ns, b) && NoJoinLabels(labels)
    ensures Grants(c, ns, labels, PodTier) == if Selects(b.podSelector, labels) then BoundGrant(b, ns) else {}
  {
    hide OnlySource, Selects, BoundGrant, BindingGrants, LabelGrants;
    NoLabelGrants(ns, labels);
    OneBindingGrants(cfg, c, ns, b, labels);
  }

  ghost function BoundDirs(c: Cluster, b: Binding, ns: string, labels: map<LabelKey, string>, v: VnetKey)
    : set<Direction>
  {
    if Selects(b.podSelector, labels) && v == BoundKey(b, ns) && Permits(c, CanonicalVnetKey(b.ref, ns), ns) &&
       BindingDirection(b).Some?
    then {Direction(BindingDirection(b).value, false)} else {}
  }

  lemma BoundTier(c: Cluster, ns: string, b: Binding, labels: map<LabelKey, string>, v: VnetKey)
    requires Selects(b.podSelector, labels)
    ensures (set g | g in Permitted(c, ns, BoundGrant(b, ns)) && g.0 == v :: g.1) == BoundDirs(c, b, ns, labels, v)
  {
    hide Selects, CanonicalVnetKey, StampedVnetKey, Permits, BindingDirection;
    var key := CanonicalVnetKey(b.ref, ns);
    if BindingDirection(b).Some? {
      var grant := (key, Direction(BindingDirection(b).value, false));
      assert grant in BoundGrant(b, ns);
      if Permits(c, key, ns) { assert (StampedVnetKey(key), grant.1) in Permitted(c, ns, BoundGrant(b, ns)); }
    }
  }

  lemma BoundPodTier(cfg: Config, c: Cluster, ns: string, b: Binding, labels: map<LabelKey, string>, v: VnetKey)
    requires OnlySource(cfg, c, ns, b) && NoJoinLabels(labels)
    ensures TierDirs(c, ns, labels, PodTier, v) == BoundDirs(c, b, ns, labels, v)
  {
    hide OnlySource, Grants, Selects, TierDirs, Permitted, CanonicalVnetKey, BindingDirection, BoundGrant;
    BoundGrants(cfg, c, ns, b, labels);
    if Selects(b.podSelector, labels) { BoundTier(c, ns, b, labels, v); }
    TierOfGrants(c, ns, labels, v, Grants(c, ns, labels, PodTier));
  }

  lemma TierOfGrants(c: Cluster, ns: string, labels: map<LabelKey, string>, v: VnetKey, grants: set<Grant>)
    requires grants == Grants(c, ns, labels, PodTier)
    ensures TierDirs(c, ns, labels, PodTier, v) == set g | g in Permitted(c, ns, grants) && g.0 == v :: g.1
    ensures grants == {} ==> TierDirs(c, ns, labels, PodTier, v) == {}
  {
  }

  lemma BoundBaselineTiers(cfg: Config, c: Cluster, ns: string, b: Binding, labels: map<LabelKey, string>, v: VnetKey)
    requires OnlySource(cfg, c, ns, b)
    ensures TierDirs(c, ns, labels, ClusterBaseline, v) == {} && TierDirs(c, ns, labels, NamespaceBaseline, v) == {}
  {
    hide Selects, Permits;
  }

  function BoundDecision(b: Binding, ns: string, v: VnetKey): Option<Base> {
    if v == BoundKey(b, ns) then BindingDirection(b) else None
  }

  lemma BoundEffective(cfg: Config, c: Cluster, ns: string, b: Binding, labels: map<LabelKey, string>, v: VnetKey)
    requires OnlySource(cfg, c, ns, b) && NoJoinLabels(labels)
    ensures Effective(c, ns, labels, v) == if TakesIn(c, ns, b, labels) then BoundDecision(b, ns, v) else None
  {
    hide OnlySource, TierDirs, Decide, Selects, Permits, CanonicalVnetKey, StampedVnetKey;
    BoundBaselineTiers(cfg, c, ns, b, labels, v);
    BoundPodTier(cfg, c, ns, b, labels, v);
    DecideSingleton(Direction(if BindingDirection(b).Some? then BindingDirection(b).value else NoDir, false));
  }

  lemma DecideSingleton(d: Direction)
    ensures Decide({}, {}, {d}) == Some(d.base) && Decide({}, {}, {}) == None
  {
    assert d in {d};
  }

  ghost function StampsHere(c: Cluster, b: Binding, ns: string, pod: Pod): map<LabelKey, string> {
    if TakesIn(c, ns, b, pod.labels) then BoundStamps(b, ns, pod.hostPorts) else HostStamps(pod.hostPorts)
  }

  lemma BoundDesiredAt(c: Cluster, ns: string, b: Binding, pod: Pod, k: LabelKey)
    requires k.Stamp? ==> Effective(c, ns, pod.labels, k.key) ==
                          if TakesIn(c, ns, b, pod.labels) then BoundDecision(b, ns, k.key) else None
    ensures Lookup(Desired(c, ns, pod), k) == Lookup(StampsHere(c, b, ns, pod), k)
  {
    hide Desired, Effective, Selects, Permits, BoundKey;
    DesiredLookup(c, ns, pod, k);
  }

  /** A pod without join labels should carry the binding's stamp iff the binding takes it in, as it is stamped now. */
  lemma BoundDesired(cfg: Config, c: Cluster, ns: string, b: Binding, pod: Pod)
    requires OnlySource(cfg, c, ns, b) && NoJoinLabels(pod.labels)
    ensures Desired(c, ns, pod) == StampsHere(c, b, ns, pod)
  {
    hide OnlySource, Desired, StampsHere, Effective, TakesIn;
    forall k ensures Lookup(Desired(c, ns, pod), k) == Lookup(StampsHere(c, b, ns, pod), k) {
      if k.Stamp? { BoundEffective(cfg, c, ns, b, pod.labels, k.key); }
      BoundDesiredAt(c, ns, b, pod, k);
    }
    SameMap(Desired(c, ns, pod), StampsHere(c, b, ns, pod));
  }

  lemma TwoForms(b: Binding, ns: string, pod: Pod, other: Pod)
    requires SameUserLabels(pod.labels, other.labels) && pod.hostPorts == other.hostPorts
    ensures Outside(pod) == Outside(other) && Inside(b, ns, pod) == Inside(b, ns, other)
    ensures Outside(pod) != Inside(b, ns, pod)
  {
    forall k
      ensures Lookup(Outside(pod), k) == Lookup(Outside(other), k)
      ensures Lookup(Inside(b, ns, pod), k) == Lookup(Inside(b, ns, other), k)
    {
      assert !ResolutionManaged(k) ==> Lookup(pod.labels, k) == Lookup(other.labels, k);
      SyncedLookup(pod.labels, HostStamps(pod.hostPorts), OwnsAll, k);
      SyncedLookup(other.labels, HostStamps(pod.hostPorts), OwnsAll, k);
      SyncedLookup(pod.labels, BoundStamps(b, ns, pod.hostPorts), OwnsAll, k);
      SyncedLookup(other.labels, BoundStamps(b, ns, pod.hostPorts), OwnsAll, k);
    }
    SameMap(Outside(pod), Outside(other));
    SameMap(Inside(b, ns, pod), Inside(b, ns, other));
    SyncedLookup(pod.labels, HostStamps(pod.hostPorts), OwnsAll, Stamp(BoundKey(b, ns)));
    SyncedLookup(pod.labels, BoundStamps(b, ns, pod.hostPorts), OwnsAll, Stamp(BoundKey(b, ns)));
  }

  /** The forms a pod can take here; resolution moves between them. */
  ghost predicate Alike(pod: Pod, other: Pod) {
    SameUserLabels(pod.labels, other.labels) && pod.hostPorts == other.hostPorts && NoJoinLabels(other.labels)
  }

  lemma SyncKeepsAlike(pod: Pod, other: Pod, desired: map<LabelKey, string>, next: Pod)
    requires Alike(pod, other) && (forall k | k in desired :: ResolutionManaged(k))
    requires next.labels == Synced(other.labels, desired, OwnsAll) && next.hostPorts == other.hostPorts
    ensures Alike(pod, next)
  {
    SyncIsIdempotent(other.labels, desired);
    forall k | k in next.labels ensures !k.Join? {
      assert k.Join? ==> Lookup(other.labels, k) == Lookup(next.labels, k);
    }
    forall k | !ResolutionManaged(k) ensures Lookup(pod.labels, k) == Lookup(next.labels, k) {
      assert Lookup(other.labels, k) == Lookup(next.labels, k);
    }
  }

  ghost function NextForm(c: Cluster, b: Binding, ns: string, pod: Pod, labels: map<LabelKey, string>)
    : map<LabelKey, string>
  {
    if TakesIn(c, ns, b, labels) then Inside(b, ns, pod) else Outside(pod)
  }

  lemma AlikeNext(cfg: Config, c: Cluster, ns: string, b: Binding, pod: Pod, other: Pod)
    requires OnlySource(cfg, c, ns, b) && Alike(pod, other)
    ensures var next := ResolvedPod(cfg, c, ns, other);
      && Alike(pod, next) && Resolved(next) && next.labels == NextForm(c, b, ns, pod, other.labels)
      && (next == other <==> Resolved(other) && next.labels == other.labels)
  {
    hide OnlySource, TakesIn, Desired, Managed, ResolvedPod, Resolved, SameUserLabels;
    SourceIsManaged(cfg, c, ns, b);
    BoundDesired(cfg, c, ns, b, other);
    ManagedResolution(cfg, c, ns, other);
    TwoForms(b, ns, pod, other);
    DesiredIsManaged(c, ns, other);
    SyncKeepsAlike(pod, other, Desired(c, ns, other), ResolvedPod(cfg, c, ns, other));
  }

  /** The binding throws the pod out of the vnet because it is in, and takes it in because it is not. */
  ghost predicate SelfDefeating(c: Cluster, b: Binding, ns: string, pod: Pod) {
    TakesIn(c, ns, b, Outside(pod)) && !TakesIn(c, ns, b, Inside(b, ns, pod))
  }

  lemma NeverAtRest(cfg: Config, c: Cluster, ns: string, b: Binding, pod: Pod, other: Pod)
    requires OnlySource(cfg, c, ns, b) && Alike(pod, other) && SelfDefeating(c, b, ns, pod)
    ensures ResolvedPod(cfg, c, ns, other) != other && Alike(pod, ResolvedPod(cfg, c, ns, other))
  {
    AlikeNext(cfg, c, ns, b, pod, other);
    TwoForms(b, ns, pod, pod);
  }

  /** No pod in a class that resolution keeps within itself and always moves is ever at rest. */
  ghost predicate KeepsMoving(cfg: Config, c: Cluster, ns: string, restless: Pod -> bool) {
    forall p {:trigger ResolvedPod(cfg, c, ns, p)} ::
      restless(p) ==> ResolvedPod(cfg, c, ns, p) != p && restless(ResolvedPod(cfg, c, ns, p))
  }

  lemma NotWithin(cfg: Config, c: Cluster, ns: string, pod: Pod, n: nat)
    requires ResolvedPod(cfg, c, ns, pod) != pod
    requires n > 0 ==> !SettlesWithin(cfg, c, ns, ResolvedPod(cfg, c, ns, pod), n - 1)
    ensures !SettlesWithin(cfg, c, ns, pod, n)
  {
  }

  lemma {:induction false} RestlessForever(cfg: Config, c: Cluster, ns: string, restless: Pod -> bool, pod: Pod, n: nat)
    requires restless(pod) && KeepsMoving(cfg, c, ns, restless)
    ensures !SettlesWithin(cfg, c, ns, pod, n)
    decreases n
  {
    var next := ResolvedPod(cfg, c, ns, pod);
    assert next != pod && restless(next);
    if n > 0 { RestlessForever(cfg, c, ns, restless, next, n - 1); }
    NotWithin(cfg, c, ns, pod, n);
  }

  lemma RestlessNeverSettles(cfg: Config, c: Cluster, ns: string, restless: Pod -> bool, pod: Pod)
    requires restless(pod) && KeepsMoving(cfg, c, ns, restless)
    ensures !Settles(cfg, c, ns, pod)
  {
    forall n: nat ensures !SettlesWithin(cfg, c, ns, pod, n) {
      RestlessForever(cfg, c, ns, restless, pod, n);
    }
  }

  lemma AlikeKeepsMoving(cfg: Config, c: Cluster, ns: string, b: Binding, pod: Pod, restless: Pod -> bool)
    requires OnlySource(cfg, c, ns, b) && SelfDefeating(c, b, ns, pod)
    requires forall p :: restless(p) <==> Alike(pod, p)
    ensures KeepsMoving(cfg, c, ns, restless)
  {
    forall p | restless(p) ensures ResolvedPod(cfg, c, ns, p) != p && restless(ResolvedPod(cfg, c, ns, p)) {
      NeverAtRest(cfg, c, ns, b, pod, p);
    }
  }

  lemma OutsideFits(pod: Pod)
    requires LabelsFit(pod.labels)
    ensures LabelsFit(Outside(pod))
  {
    hide Synced;
    forall k | k in Outside(pod) && (k.Join? || k.Stamp?) ensures k in pod.labels {
      SyncedLookup(pod.labels, HostStamps(pod.hostPorts), OwnsAll, k);
    }
  }

  lemma InsideFitsIff(b: Binding, ns: string, pod: Pod)
    requires LabelsFit(pod.labels)
    ensures LabelsFit(Inside(b, ns, pod)) <==> |BoundKey(b, ns)| <= MAX_NET_KEY
  {
    hide Synced, BoundKey;
    forall k | k in Inside(b, ns, pod) && (k.Join? || k.Stamp?) ensures k in pod.labels || k == Stamp(BoundKey(b, ns)) {
      SyncedLookup(pod.labels, BoundStamps(b, ns, pod.hostPorts), OwnsAll, k);
    }
    SyncedLookup(pod.labels, BoundStamps(b, ns, pod.hostPorts), OwnsAll, Stamp(BoundKey(b, ns)));
    assert Stamp(BoundKey(b, ns)) in Inside(b, ns, pod);
  }

  /** From one of the two forms at most one write is left. */
  lemma FormSettles(cfg: Config, c: Cluster, ns: string, b: Binding, pod: Pod, other: Pod)
    requires OnlySource(cfg, c, ns, b) && Alike(pod, other) && !SelfDefeating(c, b, ns, pod)
    requires LabelsFit(Outside(pod)) && LabelsFit(Inside(b, ns, pod))
    requires Resolved(other) && (other.labels == Outside(pod) || other.labels == Inside(b, ns, pod))
    ensures Settles(cfg, c, ns, other)
  {
    var next := ResolvedPod(cfg, c, ns, other);
    AlikeNext(cfg, c, ns, b, pod, other);
    AlikeNext(cfg, c, ns, b, pod, next);
    SettlesByStep(cfg, c, ns, other);
    SettlesByStep(cfg, c, ns, next);
  }

  lemma FittingBindingSettlesIff(cfg: Config, c: Cluster, ns: string, b: Binding, pod: Pod)
    requires OnlySource(cfg, c, ns, b) && NoJoinLabels(pod.labels)
    requires LabelsFit(pod.labels) && |BoundKey(b, ns)| <= MAX_NET_KEY
    ensures Settles(cfg, c, ns, pod) <==> !SelfDefeating(c, b, ns, pod)
  {
    hide OnlySource, SelfDefeating, ResolvedPod, Settles, TakesIn, LabelsFit, Outside, Inside;
    assert Alike(pod, pod);
    if SelfDefeating(c, b, ns, pod) {
      var alike := p => Alike(pod, p);
      AlikeKeepsMoving(cfg, c, ns, b, pod, alike);
      RestlessNeverSettles(cfg, c, ns, alike, pod);
    } else {
      OutsideFits(pod);
      InsideFitsIff(b, ns, pod);
      AlikeNext(cfg, c, ns, b, pod, pod);
      FormSettles(cfg, c, ns, b, pod, ResolvedPod(cfg, c, ns, pod));
      SettlesByStep(cfg, c, ns, pod);
    }
  }

  /** The API server refuses the stamp of a vnet with too long a name, so the pod must never be asked to carry it. */
  lemma LongKeySettlesIff(cfg: Config, c: Cluster, ns: string, b: Binding, pod: Pod)
    requires OnlySource(cfg, c, ns, b) && NoJoinLabels(pod.labels)
    requires LabelsFit(pod.labels) && |BoundKey(b, ns)| > MAX_NET_KEY
    ensures Settles(cfg, c, ns, pod) <==> !TakesIn(c, ns, b, pod.labels) && !TakesIn(c, ns, b, Outside(pod))
  {
    hide OnlySource, ResolvedPod, Settles, TakesIn, LabelsFit, Outside, Inside, SameUserLabels, NoJoinLabels, BoundKey;
    var next := ResolvedPod(cfg, c, ns, pod);
    assert SameUserLabels(pod.labels, pod.labels) by { SameAsItself(pod.labels); }
    OutsideFits(pod);
    InsideFitsIff(b, ns, pod);
    AlikeNext(cfg, c, ns, b, pod, pod);
    AlikeNext(cfg, c, ns, b, pod, next);
    SettlesByStep(cfg, c, ns, pod);
    SettlesByStep(cfg, c, ns, next);
  }

  lemma SameAsItself(labels: map<LabelKey, string>)
    ensures SameUserLabels(labels, labels)
  {
  }

  /**
   * With one binding, whatever its selector, its vnet and its direction: a pod without join labels comes to rest iff
   * the binding does not take the pod in outside the vnet while refusing it inside; or, if the stamp does not fit,
   * iff it takes the pod in neither as it is nor outside.
   */
  lemma OneBindingSettlesIff(cfg: Config, c: Cluster, ns: string, b: Binding, pod: Pod)
    requires OnlySource(cfg, c, ns, b) && NoJoinLabels(pod.labels) && LabelsFit(pod.labels)
    ensures Settles(cfg, c, ns, pod) <==>
            if |BoundKey(b, ns)| <= MAX_NET_KEY then !SelfDefeating(c, b, ns, pod)
            else !TakesIn(c, ns, b, pod.labels) && !TakesIn(c, ns, b, Outside(pod))
  {
    hide OnlySource, Settles, SelfDefeating, TakesIn, LabelsFit, NoJoinLabels, BoundKey, Outside;
    if |BoundKey(b, ns)| <= MAX_NET_KEY {
      FittingBindingSettlesIff(cfg, c, ns, b, pod);
    } else {
      LongKeySettlesIff(cfg, c, ns, b, pod);
    }
  }

  /** A binding for the pods without its own stamp is of that kind for every pod, if it counts at all. */
  lemma BindingOnItsOwnAbsence(c: Cluster, b: Binding, ns: string, pod: Pod)
    requires b.podSelector == Selector(map[], [Requirement(Stamp(BoundKey(b, ns)), DoesNotExist, [])])
    ensures SelfDefeating(c, b, ns, pod) <==> Counts(c, ns, b)
  {
    hide Synced, Counts, BoundKey;
    var stamp := Stamp(BoundKey(b, ns));
    var r: Requirement<LabelKey> := Requirement(stamp, DoesNotExist, []);
    SyncedLookup(pod.labels, HostStamps(pod.hostPorts), OwnsAll, stamp);
    SyncedLookup(pod.labels, BoundStamps(b, ns, pod.hostPorts), OwnsAll, stamp);
    assert b.podSelector.exprs == [r] && r in b.podSelector.exprs;
  }

  /** And one for the pods with its own stamp never is: such a pod stays in, or stays out. */
  lemma BindingOnItsOwnPresence(c: Cluster, b: Binding, ns: string, pod: Pod)
    requires b.podSelector == Selector(map[], [Requirement(Stamp(BoundKey(b, ns)), Exists, [])])
    ensures !SelfDefeating(c, b, ns, pod)
  {
    hide Synced, Counts, BoundKey;
    var stamp := Stamp(BoundKey(b, ns));
    var r: Requirement<LabelKey> := Requirement(stamp, Exists, []);
    SyncedLookup(pod.labels, HostStamps(pod.hostPorts), OwnsAll, stamp);
    assert b.podSelector.exprs == [r] && r in b.podSelector.exprs;
  }
}
