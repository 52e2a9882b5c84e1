/** The whole pipeline: once both queues are empty, the network allows exactly what the users asked for. */
module Capstone {
  import opened Prelude
  import opened Names
  import opened Directions
  import opened Cluster
  import opened Resolver
  import opened Stamps
  import opened Members
  import opened Generator
  import opened VnetReconcile
  import opened Traffic
  import opened Protocol
  import opened PodFreshness
  import opened VnetFreshness
  import opened Invariant
  import opened Settling
  import opened Intent

  /**
   * The direction the current baselines, bindings, labels and allowedNamespaces give a pod in v: a membership as its
   * users decided on it, unless the namespace of the pod is excluded or disabled.
   */
  ghost function Intended(cfg: Config, c: Cluster, v: ObjectKey, k: ObjectKey): Option<Base> {
    if k in c.pods && k.ns in c.namespaces && k.ns !in cfg.excluded && !c.namespaces[k.ns].disabled
    then Decided(c, k.ns, c.pods[k].labels, v) else None
  }

  lemma IntendedIsEffective(cfg: Config, c: Cluster, v: ObjectKey, k: ObjectKey)
    requires VnetName(v)
    ensures Intended(cfg, c, v, k) == if k in c.pods && Managed(cfg, c, k.ns)
            then Effective(c, k.ns, c.pods[k].labels, CanonicalKey(v)) else None
  {
    hide Decided, Effective;
    if k in c.pods { EffectiveIsDecided(c, k.ns, c.pods[k].labels, v); }
  }

  lemma IntendedIsManaged(cfg: Config, c: Cluster, v: ObjectKey, k: ObjectKey)
    requires Intended(cfg, c, v, k).Some?
    ensures k in c.pods && Managed(cfg, c, k.ns) && Intended(cfg, c, v, k).value != NoDir
  {
    hide Deciding, Meet;
  }

  lemma SyncedManagedStamp(c: Cluster, ns: string, pod: Pod, stamp: LabelKey)
    requires ResolutionManaged(stamp) && pod.labels == Synced(pod.labels, Desired(c, ns, pod), OwnsAll)
    ensures Lookup(pod.labels, stamp) == DesiredValue(c, ns, pod, stamp) == Lookup(Desired(c, ns, pod), stamp)
  {
    SyncedLookup(pod.labels, Desired(c, ns, pod), OwnsAll, stamp);
    DesiredLookup(c, ns, pod, stamp);
  }

  lemma SyncedLabels(cfg: Config, c: Cluster, k: ObjectKey)
    requires PodSynced(cfg, c, k) && k.ns in c.namespaces
    ensures k in c.pods
    ensures var pod := c.pods[k];
      if Managed(cfg, c, k.ns) then pod.labels == Synced(pod.labels, Desired(c, k.ns, pod), OwnsAll) && Resolved(pod)
      else pod.labels == Synced(pod.labels, map[], OwnsAll)
  {
    hide Desired, Managed, Synced;
    if Managed(cfg, c, k.ns) { ManagedResolution(cfg, c, k.ns, c.pods[k]); }
  }

  lemma SyncedStamp(cfg: Config, c: Cluster, v: ObjectKey, k: ObjectKey)
    requires VnetName(v)
    requires PodSynced(cfg, c, k) && k.ns in c.namespaces
    ensures Lookup(c.pods[k].labels, Stamp(CanonicalKey(v))) ==
            match Intended(cfg, c, v, k) case Some(b) => Some(BaseName(b)) case None => None
    ensures Intended(cfg, c, v, k).Some? ==>
              Resolved(c.pods[k]) && Stamp(CanonicalKey(v)) in Desired(c, k.ns, c.pods[k])
  {
    hide Desired, Managed, Synced, PodSynced, Resolved, Effective, Intended;
    IntendedIsEffective(cfg, c, v, k);
    SyncedLabels(cfg, c, k);
    if Managed(cfg, c, k.ns) {
      SyncedManagedStamp(c, k.ns, c.pods[k], Stamp(CanonicalKey(v)));
    } else {
      SyncedLookup(c.pods[k].labels, map[], OwnsAll, Stamp(CanonicalKey(v)));
    }
  }

  lemma IntendedIsEligible(cfg: Config, c: Cluster, v: ObjectKey, k: ObjectKey)
    requires WellFormed(cfg, c) && v in c.vnets && k in c.pods && Managed(cfg, c, k.ns)
    requires Stamp(CanonicalKey(v)) in Desired(c, k.ns, c.pods[k])
    ensures Eligible(cfg, c, v, k.ns)
  {
    if !Admits(c, v.ns, c.vnets[v].allowed, k.ns) { NotDesired(cfg, c, v, k.ns, c.pods[k]); }
  }

  lemma StampedAs(labels: map<LabelKey, string>, v: ObjectKey, wanted: Option<Base>)
    requires Lookup(labels, Stamp(CanonicalKey(v))) == match wanted case Some(b) => Some(BaseName(b)) case None => None
    ensures StampedDirection(labels, v) == wanted
  {
  }

  lemma Housed(cfg: Config, c: Cluster, v: ObjectKey, k: ObjectKey)
    requires WellFormed(cfg, c) && v in c.vnets && k in c.pods
    ensures VnetName(v) && k.ns in c.namespaces
  {
  }

  /** A synced pod is a member of a vnet exactly as intended, and carries no other stamp. */
  lemma SyncedIsIntended(cfg: Config, c: Cluster, v: ObjectKey, k: ObjectKey)
    requires WellFormed(cfg, c) && v in c.vnets && PodSynced(cfg, c, k)
    ensures StampedDirection(c.pods[k].labels, v) == Intended(cfg, c, v, k) == MemberDirection(cfg, c, v, k)
  {
    hide Intended, Desired, Resolved, BaseName, WellFormed, ResolvedPod, MemberDirection, Eligible, StampedDirection;
    Housed(cfg, c, v, k);
    SyncedStamp(cfg, c, v, k);
    var wanted := Intended(cfg, c, v, k);
    StampedAs(c.pods[k].labels, v, wanted);
    if wanted.Some? {
      IntendedIsManaged(cfg, c, v, k);
      IntendedIsEligible(cfg, c, v, k);
    }
    StampedMember(cfg, c, v, k, wanted);
  }

  lemma StampedMember(cfg: Config, c: Cluster, v: ObjectKey, k: ObjectKey, wanted: Option<Base>)
    requires k in c.pods && StampedDirection(c.pods[k].labels, v) == wanted
    requires wanted.Some? ==> wanted.value != NoDir && Resolved(c.pods[k]) && Eligible(cfg, c, v, k.ns)
    ensures MemberDirection(cfg, c, v, k) == wanted
  {
  }

  /** Nothing but kube-vnet writes policies in ns: its baseline is there, and the rest are membership policies. */
  ghost predicate KubeVnetOnly(c: Cluster, ns: string) {
    && Lookup(c.policies, ObjectKey(ns, BASELINE_NAME)) == Some(DesiredBaseline())
    && forall k | k in c.policies && k.ns == ns ::
         c.policies[k] == DesiredBaseline() || exists v :: Addressable(v) && Owned(c, v, k)
  }

  lemma DesiredIsAddressable(cfg: Config, c: Cluster, v: ObjectKey, k: ObjectKey)
    requires WellFormed(cfg, c) && k in DesiredPolicies(cfg, c, v)
    ensures Addressable(v)
  {
    assert v in c.vnets;
  }

  lemma FreshIsApplied(cfg: Config, c: Cluster, v: ObjectKey, k: ObjectKey)
    requires VnetFresh(cfg, c, v) && k in DesiredPolicies(cfg, c, v) && !Terminating(c, k.ns)
    ensures Lookup(c.policies, k) == Some(DesiredPolicies(cfg, c, v)[k])
  {
    hide DesiredPolicies;
    assert FreshAt(c, v, Lookup(DesiredPolicies(cfg, c, v), k), k);
  }

  lemma OwnedIsDesired(cfg: Config, c: Cluster, v: ObjectKey, k: ObjectKey)
    requires VnetFresh(cfg, c, v) && Owned(c, v, k) && !Terminating(c, k.ns)
    ensures k in DesiredPolicies(cfg, c, v)
  {
    hide DesiredPolicies;
    assert FreshAt(c, v, Lookup(DesiredPolicies(cfg, c, v), k), k);
  }

  lemma FreshIsCompiled(cfg: Config, c: Cluster, ns: string)
    requires WellFormed(cfg, c) && !Terminating(c, ns) && KubeVnetOnly(c, ns)
    requires forall v | Addressable(v) :: VnetFresh(cfg, c, v)
    ensures StoreCompiled(cfg, c, ns)
  {
    hide WellFormed, DesiredPolicies, VnetFresh, Addressable, Owned, DesiredBaseline;
    forall v, k | k in DesiredPolicies(cfg, c, v) && k.ns == ns
      ensures Lookup(c.policies, k) == Some(DesiredPolicies(cfg, c, v)[k])
    {
      DesiredIsAddressable(cfg, c, v, k);
      FreshIsApplied(cfg, c, v, k);
    }
    forall k | k in c.policies && k.ns == ns && c.policies[k] != DesiredBaseline()
      ensures exists v :: k in DesiredPolicies(cfg, c, v)
    {
      var v :| Addressable(v) && Owned(c, v, k);
      OwnedIsDesired(cfg, c, v, k);
    }
  }

  /** Some vnet, of the system's or of a managed home, has dst as an intended receiver and src as an initiator. */
  ghost predicate Asked(cfg: Config, c: Cluster, src: ObjectKey, dst: ObjectKey) {
    exists v :: Joins(cfg, c, v, src, dst)
  }

  ghost predicate Joins(cfg: Config, c: Cluster, v: ObjectKey, src: ObjectKey, dst: ObjectKey) {
    var from, to := Intended(cfg, c, v, src), Intended(cfg, c, v, dst);
    v in c.vnets &&
    (c.vnets[v].system || (v.ns in c.namespaces && v.ns !in cfg.excluded && !c.namespaces[v.ns].disabled)) &&
    from.Some? && Initiates(from.value) && to.Some? && Receives(to.value)
  }

  /** The stamps of a synced pod are its memberships. */
  lemma SyncedStampsAreMemberships(cfg: Config, c: Cluster, k: ObjectKey)
    requires WellFormed(cfg, c) && k in c.pods && PodSynced(cfg, c, k)
    ensures StampsAreMemberships(cfg, c, k)
  {
    hide PodSynced, StampedDirection, MemberDirection, Intended, WellFormed;
    forall v | Served(cfg, c, v) ensures MemberDirection(cfg, c, v, k) == StampedDirection(c.pods[k].labels, v) {
      SyncedIsIntended(cfg, c, v, k);
    }
  }

  lemma AskedIsConnected(cfg: Config, c: Cluster, src: ObjectKey, dst: ObjectKey, v: ObjectKey)
    requires WellFormed(cfg, c) && PodSynced(cfg, c, src) && PodSynced(cfg, c, dst)
    ensures Joins(cfg, c, v, src, dst) <==>
            Served(cfg, c, v) && IsReceiver(cfg, c, v, dst) && IsInitiator(cfg, c, v, src)
  {
    hide WellFormed, PodSynced, MemberDirection, Intended;
    if Served(cfg, c, v) {
      SyncedIsIntended(cfg, c, v, src);
      SyncedIsIntended(cfg, c, v, dst);
    }
  }

  lemma PodsAreHoused(cfg: Config, c: Cluster)
    requires WellFormed(cfg, c)
    ensures PodsHaveNamespaces(c)
  {
  }

  /** With fresh policies, ingress between two synced pods is allowed iff it is asked for, whatever the others are. */
  lemma FreshAndSyncedIsExact(cfg: Config, c: Cluster, src: ObjectKey, dst: ObjectKey, port: PolicyPort)
    requires WellFormed(cfg, c) && StoreCompiled(cfg, c, dst.ns) && src in c.pods && dst in c.pods
    requires PodSynced(cfg, c, src) && PodSynced(cfg, c, dst)
    ensures Allowed(c, src, dst, port) <==> Asked(cfg, c, src, dst)
  {
    hide WellFormed, StoreCompiled, StampsAreMemberships, Allowed, PodSynced, Joins, Served, IsReceiver, IsInitiator;
    PodsAreHoused(cfg, c);
    SyncedStampsAreMemberships(cfg, c, src);
    SyncedStampsAreMemberships(cfg, c, dst);
    CompilerPreservesMeaning(cfg, c, src, dst, port);
    forall v
      ensures Joins(cfg, c, v, src, dst) <==>
              Served(cfg, c, v) && IsReceiver(cfg, c, v, dst) && IsInitiator(cfg, c, v, src)
    {
      AskedIsConnected(cfg, c, src, dst, v);
    }
  }

  lemma UnqueuedIsSynced(cfg: Config, s: State, k: ObjectKey)
    requires Inv(cfg, s) && k in s.c.pods && k !in s.podQ
    ensures PodSynced(cfg, s.c, k)
  {
  }

  /**
   * In every run of changes, resolutions and reconciles with any failures: whenever the vnet queue is empty and no
   * queued pod excuses a vnet, a pod that is not queued itself, in a namespace that only kube-vnet isolates, receives
   * from exactly those of the pods that are not queued that its owners and theirs asked for.
   */
  lemma UnqueuedPodsAreExact(cfg: Config, states: seq<State>, steps: seq<Step>, src: ObjectKey, dst: ObjectKey,
                             port: PolicyPort)
    requires Run(cfg, states, steps)
    requires states[|steps|].vnetQ == {} && forall v :: !Excused(cfg, states[|steps|], v)
    requires src in states[|steps|].c.pods && src !in states[|steps|].podQ
    requires dst in states[|steps|].c.pods && dst !in states[|steps|].podQ
    requires !Terminating(states[|steps|].c, dst.ns) && KubeVnetOnly(states[|steps|].c, dst.ns)
    ensures Allowed(states[|steps|].c, src, dst, port) <==> Asked(cfg, states[|steps|].c, src, dst)
  {
    hide Run, StoreCompiled, KubeVnetOnly, Inv, Allowed, Asked, WellFormed, PodSynced, Excused;
    RunLength(cfg, states, steps);
    RunKeepsInv(cfg, states, steps);
    UnexcusedIsFresh(cfg, states[|steps|]);
    UnqueuedIsSynced(cfg, states[|steps|], src);
    UnqueuedIsSynced(cfg, states[|steps|], dst);
    FreshIsCompiled(cfg, states[|steps|].c, dst.ns);
    FreshAndSyncedIsExact(cfg, states[|steps|].c, src, dst, port);
  }

  /** So with both queues empty it is exact for all pods. */
  lemma QuiescentIsExact(cfg: Config, states: seq<State>, steps: seq<Step>, src: ObjectKey, dst: ObjectKey,
                         port: PolicyPort)
    requires Run(cfg, states, steps)
    requires states[|steps|].podQ == {} && states[|steps|].vnetQ == {}
    requires src in states[|steps|].c.pods && dst in states[|steps|].c.pods
    requires !Terminating(states[|steps|].c, dst.ns) && KubeVnetOnly(states[|steps|].c, dst.ns)
    ensures Allowed(states[|steps|].c, src, dst, port) <==> Asked(cfg, states[|steps|].c, src, dst)
  {
    hide Run, KubeVnetOnly, Allowed, Asked, StampedOutside;
    RunLength(cfg, states, steps);
    UnqueuedPodsAreExact(cfg, states, steps, src, dst, port);
  }

  lemma UnexcusedIsFresh(cfg: Config, s: State)
    requires Inv(cfg, s) && s.vnetQ == {} && forall v :: !Excused(cfg, s, v)
    ensures WellFormed(cfg, s.c) && PodsHaveNamespaces(s.c) && forall v | Addressable(v) :: VnetFresh(cfg, s.c, v)
  {
    hide PodsCovered, VnetFresh, Addressable, Excused;
  }

  /**
   * While pods are still queued the stamps may lag behind the intent, but not beyond what namespaces allow: with the
   * vnet queue empty and no vnet excused by a queued pod, whatever traffic is allowed runs between two namespaces that
   * are managed, and admitted by a common served vnet, now.
   */
  lemma AllowedStaysEligible(cfg: Config, states: seq<State>, steps: seq<Step>, src: ObjectKey, dst: ObjectKey,
                             port: PolicyPort) returns (v: ObjectKey)
    requires Run(cfg, states, steps)
    requires states[|steps|].vnetQ == {} && forall v :: !Excused(cfg, states[|steps|], v)
    requires src in states[|steps|].c.pods && dst in states[|steps|].c.pods
    requires !Terminating(states[|steps|].c, dst.ns) && KubeVnetOnly(states[|steps|].c, dst.ns)
    requires Allowed(states[|steps|].c, src, dst, port)
    ensures var c := states[|steps|].c;
      && v in c.vnets
      && (c.vnets[v].system || (v.ns in c.namespaces && v.ns !in cfg.excluded && !c.namespaces[v.ns].disabled))
      && forall ns | ns in {src.ns, dst.ns} ::
           ns in c.namespaces && ns !in cfg.excluded && !c.namespaces[ns].disabled &&
           Admits(c, v.ns, c.vnets[v].allowed, ns)
  {
    hide Run, StoreCompiled, KubeVnetOnly, Inv, Allowed, WellFormed, Admits, StampedDirection, Excused;
    RunLength(cfg, states, steps);
    RunKeepsInv(cfg, states, steps);
    UnexcusedIsFresh(cfg, states[|steps|]);
    FreshIsCompiled(cfg, states[|steps|].c, dst.ns);
    v := AllowedMeansStamped(cfg, states[|steps|].c, src, dst, port);
  }

  /** The stamp that a pod carries for v. */
  function StampOn(c: Cluster, k: ObjectKey, v: ObjectKey): Option<string>
    requires k in c.pods
  {
    Lookup(c.pods[k].labels, Stamp(CanonicalKey(v)))
  }

  lemma StampedMembership(cfg: Config, c: Cluster, v: ObjectKey, k: ObjectKey)
    requires WellFormed(cfg, c) && k in c.pods && PodSynced(cfg, c, k) && v in c.vnets
    ensures IsReceiver(cfg, c, v, k) <==> StampOn(c, k, v) in {Some("both"), Some("ingress")}
    ensures IsInitiator(cfg, c, v, k) <==> StampOn(c, k, v) in {Some("both"), Some("egress")}
  {
    hide WellFormed, PodSynced, MemberDirection, Intended, StampedDirection, StampOn;
    SyncedIsIntended(cfg, c, v, k);
    StampOnSays(c, k, v, Both);
    StampOnSays(c, k, v, Ingress);
    StampOnSays(c, k, v, Egress);
  }

  lemma StampOnSays(c: Cluster, k: ObjectKey, v: ObjectKey, b: Base)
    requires k in c.pods
    ensures StampedDirection(c.pods[k].labels, v) == Some(b) <==> StampOn(c, k, v) == Some(BaseName(b))
  {
    StampSays(c.pods[k].labels, v, b);
  }

  /** v is served, and a synced src and dst are stamped for it: then, and only then, it joins them. */
  lemma JoinsByStamps(cfg: Config, c: Cluster, v: ObjectKey, src: ObjectKey, dst: ObjectKey)
    requires WellFormed(cfg, c) && src in c.pods && dst in c.pods && PodSynced(cfg, c, src) && PodSynced(cfg, c, dst)
    requires v in c.vnets
    ensures Joins(cfg, c, v, src, dst) <==>
            (c.vnets[v].system || (v.ns in c.namespaces && v.ns !in cfg.excluded && !c.namespaces[v.ns].disabled)) &&
            StampOn(c, dst, v) in {Some("both"), Some("ingress")} &&
            StampOn(c, src, v) in {Some("both"), Some("egress")}
  {
    hide WellFormed, PodSynced, IsReceiver, IsInitiator, Intended, StampOn;
    AskedIsConnected(cfg, c, src, dst, v);
    StampedMembership(cfg, c, v, src);
    StampedMembership(cfg, c, v, dst);
  }

  lemma AskedByStamps(cfg: Config, c: Cluster, src: ObjectKey, dst: ObjectKey)
    requires WellFormed(cfg, c) && src in c.pods && dst in c.pods && PodSynced(cfg, c, src) && PodSynced(cfg, c, dst)
    ensures Asked(cfg, c, src, dst) <==> exists v | v in c.vnets ::
        (c.vnets[v].system || (v.ns in c.namespaces && v.ns !in cfg.excluded && !c.namespaces[v.ns].disabled)) &&
        StampOn(c, dst, v) in {Some("both"), Some("ingress")} && StampOn(c, src, v) in {Some("both"), Some("egress")}
  {
    hide WellFormed, PodSynced, Intended, StampOn;
    forall v | v in c.vnets
      ensures Joins(cfg, c, v, src, dst) <==>
              (c.vnets[v].system || (v.ns in c.namespaces && v.ns !in cfg.excluded && !c.namespaces[v.ns].disabled)) &&
              StampOn(c, dst, v) in {Some("both"), Some("ingress")} &&
              StampOn(c, src, v) in {Some("both"), Some("egress")}
    {
      JoinsByStamps(cfg, c, v, src, dst);
    }
  }

  /**
   * The same on what the pods carry: when quiescent, a pod receives from another exactly if one vnet that is served has
   * them stamped for it, one with `both` or `ingress` and the other with `both` or `egress`.
   */
  lemma QuiescentByStamps(cfg: Config, states: seq<State>, steps: seq<Step>, src: ObjectKey, dst: ObjectKey,
                          port: PolicyPort)
    requires Run(cfg, states, steps)
    requires states[|steps|].podQ == {} && states[|steps|].vnetQ == {}
    requires src in states[|steps|].c.pods && dst in states[|steps|].c.pods
    requires !Terminating(states[|steps|].c, dst.ns) && KubeVnetOnly(states[|steps|].c, dst.ns)
    ensures var c := states[|steps|].c;
      Allowed(c, src, dst, port) <==> exists v | v in c.vnets ::
        (c.vnets[v].system || (v.ns in c.namespaces && v.ns !in cfg.excluded && !c.namespaces[v.ns].disabled)) &&
        StampOn(c, dst, v) in {Some("both"), Some("ingress")} && StampOn(c, src, v) in {Some("both"), Some("egress")}
  {
    hide Run, KubeVnetOnly, Allowed, Asked, Inv, WellFormed, PodSynced, StampOn, Terminating, Excused;
    RunLength(cfg, states, steps);
    RunKeepsInv(cfg, states, steps);
    QuiescentIsExact(cfg, states, steps, src, dst, port);
    UnqueuedIsSynced(cfg, states[|steps|], src);
    UnqueuedIsSynced(cfg, states[|steps|], dst);
    InvIsWellFormed(cfg, states[|steps|]);
    AskedByStamps(cfg, states[|steps|].c, src, dst);
  }

  lemma InvIsWellFormed(cfg: Config, s: State)
    requires Inv(cfg, s)
    ensures WellFormed(cfg, s.c)
  {
  }

  /** So a vnet of the system connects its members wherever it lives, its home being excluded or disabled included. */
  lemma SystemVnetConnects(cfg: Config, states: seq<State>, steps: seq<Step>, v: ObjectKey, src: ObjectKey,
                           dst: ObjectKey, port: PolicyPort)
    requires Run(cfg, states, steps)
    requires states[|steps|].podQ == {} && states[|steps|].vnetQ == {}
    requires src in states[|steps|].c.pods && dst in states[|steps|].c.pods
    requires !Terminating(states[|steps|].c, dst.ns) && KubeVnetOnly(states[|steps|].c, dst.ns)
    requires v in states[|steps|].c.vnets && states[|steps|].c.vnets[v].system
    requires StampOn(states[|steps|].c, dst, v) in {Some("both"), Some("ingress")}
    requires StampOn(states[|steps|].c, src, v) in {Some("both"), Some("egress")}
    ensures Allowed(states[|steps|].c, src, dst, port)
  {
    hide Run, KubeVnetOnly, Allowed, StampOn;
    RunLength(cfg, states, steps);
    QuiescentByStamps(cfg, states, steps, src, dst, port);
  }
}
