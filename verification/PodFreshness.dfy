/** Trigger completeness of resolution: every pod is queued, or resolving it again would change nothing. */
module PodFreshness {
  import opened Prelude
  import opened Names
  import opened Resolution
  import opened Cluster
  import opened Resolver
  import opened Stamps
  import opened Fanout
  import opened Protocol
  import opened VnetReconcile

  ghost predicate PodSynced(cfg: Config, c: Cluster, k: ObjectKey) {
    k in c.pods && ResolvedPod(cfg, c, k.ns, c.pods[k]) == c.pods[k]
  }

  ghost predicate PodsCovered(cfg: Config, s: State) {
    forall k | k in s.c.pods :: k in s.podQ || PodSynced(cfg, s.c, k)
  }

  // ---- what resolution reads ----

  /** Two clusters look the same to the resolution of the pods in ns. */
  ghost predicate SameView(cfg: Config, c: Cluster, d: Cluster, ns: string) {
    && (ns in c.namespaces <==> ns in d.namespaces)
    && (Managed(cfg, c, ns) <==> Managed(cfg, d, ns))
    && (forall scope :: SameGrants(c, d, ns, scope))
    && (forall key :: Permits(c, key, ns) <==> Permits(d, key, ns))
  }

  ghost predicate SameGrants(c: Cluster, d: Cluster, ns: string, scope: Scope) {
    forall labels :: Grants(c, ns, labels, scope) == Grants(d, ns, labels, scope)
  }

  ghost predicate SamePermitted(c: Cluster, d: Cluster, ns: string, labels: map<LabelKey, string>, scope: Scope) {
    Permitted(c, ns, Grants(c, ns, labels, scope)) == Permitted(d, ns, Grants(d, ns, labels, scope))
  }

  lemma ViewPermitted(cfg: Config, c: Cluster, d: Cluster, ns: string, labels: map<LabelKey, string>)
    requires SameView(cfg, c, d, ns)
    ensures forall scope :: SamePermitted(c, d, ns, labels, scope)
  {
    forall scope ensures SamePermitted(c, d, ns, labels, scope) {
      assert SameGrants(c, d, ns, scope);
      assert forall g | g in Grants(c, ns, labels, scope) :: Permits(c, g.0, ns) <==> Permits(d, g.0, ns);
    }
  }

  lemma SameEffective(c: Cluster, d: Cluster, ns: string, labels: map<LabelKey, string>, v: VnetKey)
    requires forall scope :: SamePermitted(c, d, ns, labels, scope)
    ensures Effective(c, ns, labels, v) == Effective(d, ns, labels, v)
  {
    assert SamePermitted(c, d, ns, labels, ClusterBaseline);
    assert SamePermitted(c, d, ns, labels, NamespaceBaseline);
    assert SamePermitted(c, d, ns, labels, PodTier);
  }

  lemma SameDesiredValue(c: Cluster, d: Cluster, ns: string, pod: Pod, k: LabelKey)
    requires forall scope :: SamePermitted(c, d, ns, pod.labels, scope)
    ensures Lookup(Desired(c, ns, pod), k) == Lookup(Desired(d, ns, pod), k)
  {
    DesiredLookup(c, ns, pod, k);
    DesiredLookup(d, ns, pod, k);
    if k.Stamp? { SameEffective(c, d, ns, pod.labels, k.key); }
  }

  lemma SameDesired(cfg: Config, c: Cluster, d: Cluster, ns: string, pod: Pod)
    requires SameView(cfg, c, d, ns)
    ensures Desired(c, ns, pod) == Desired(d, ns, pod)
  {
    ViewPermitted(cfg, c, d, ns, pod.labels);
    forall k ensures Lookup(Desired(c, ns, pod), k) == Lookup(Desired(d, ns, pod), k) {
      SameDesiredValue(c, d, ns, pod, k);
    }
    SameMap(Desired(c, ns, pod), Desired(d, ns, pod));
  }

  lemma SameResolution(cfg: Config, c: Cluster, d: Cluster, ns: string, pod: Pod)
    requires SameView(cfg, c, d, ns)
    ensures ResolvedPod(cfg, c, ns, pod) == ResolvedPod(cfg, d, ns, pod)
  {
    SameDesired(cfg, c, d, ns, pod);
  }

  // ---- one change ----

  lemma GrantsDependOn(c: Cluster, d: Cluster, ns: string)
    requires c.clusterBaseline == d.clusterBaseline && Lookup(c.nsBaselines, ns) == Lookup(d.nsBaselines, ns)
    requires forall k: ObjectKey | k.ns == ns :: Lookup(c.bindings, k) == Lookup(d.bindings, k)
    ensures forall scope :: SameGrants(c, d, ns, scope)
  {
  }

  /** A vnet that admits ns neither before nor after its change plays no part in the resolution of ns. */
  lemma VnetChangePermits(c: Cluster, k: ObjectKey, vnet: Option<Vnet>, ns: string, key: VnetKey)
    requires ns in c.namespaces
    requires VnetTriggers(Lookup(c.vnets, k), vnet) ==>
               ns !in Admitting(After(c, SetVnet(k, vnet)), k.ns, Lookup(c.vnets, k)) &&
               ns !in Admitting(After(c, SetVnet(k, vnet)), k.ns, vnet)
    ensures Permits(c, key, ns) <==> Permits(After(c, SetVnet(k, vnet)), key, ns)
  {
  }

  lemma NotAdmittedBy(c: Cluster, v: ObjectKey, vnet: Option<Vnet>, k: ObjectKey)
    requires k in c.pods && k !in PodsWoken(c, SetVnet(v, vnet)) && VnetTriggers(Lookup(c.vnets, v), vnet)
    ensures k.ns !in Admitting(After(c, SetVnet(v, vnet)), v.ns, Lookup(c.vnets, v))
    ensures k.ns !in Admitting(After(c, SetVnet(v, vnet)), v.ns, vnet)
  {
    hide Admitting;
  }

  lemma UnwokenByVnet(cfg: Config, c: Cluster, v: ObjectKey, vnet: Option<Vnet>, k: ObjectKey)
    requires k.ns in c.namespaces && k in c.pods && k !in PodsWoken(c, SetVnet(v, vnet))
    ensures SameView(cfg, c, After(c, SetVnet(v, vnet)), k.ns)
  {
    hide Permits, PodsWoken, VnetTriggers, Admitting;
    if VnetTriggers(Lookup(c.vnets, v), vnet) { NotAdmittedBy(c, v, vnet, k); }
    GrantsDependOn(c, After(c, SetVnet(v, vnet)), k.ns);
    forall key ensures Permits(c, key, k.ns) <==> Permits(After(c, SetVnet(v, vnet)), key, k.ns) {
      VnetChangePermits(c, v, vnet, k.ns, key);
    }
  }

  /** Permission reads the vnets' specs, and the labels of the one namespace it is asked about. */
  lemma PermitsDependsOn(c: Cluster, d: Cluster, ns: string, key: VnetKey)
    requires forall v :: SameSpec(Lookup(c.vnets, v), Lookup(d.vnets, v))
    requires ns in c.namespaces <==> ns in d.namespaces
    requires ns in c.namespaces ==> c.namespaces[ns].labels == d.namespaces[ns].labels
    ensures Permits(c, key, ns) <==> Permits(d, key, ns)
  {
    var split := SplitVnetKey(key);
    if split.Some? {
      var v := ObjectKey(split.value.0, split.value.1);
      assert SameSpec(Lookup(c.vnets, v), Lookup(d.vnets, v));
    }
  }

  predicate SameSpec(v: Option<Vnet>, w: Option<Vnet>) {
    (v.Some? <==> w.Some?) && (v.Some? ==> v.value.allowed == w.value.allowed)
  }

  ghost predicate SameInputs(c: Cluster, d: Cluster, ns: string) {
    && c.clusterBaseline == d.clusterBaseline && Lookup(c.nsBaselines, ns) == Lookup(d.nsBaselines, ns)
    && (forall k: ObjectKey | k.ns == ns :: Lookup(c.bindings, k) == Lookup(d.bindings, k))
    && (forall v :: SameSpec(Lookup(c.vnets, v), Lookup(d.vnets, v)))
    && ns in c.namespaces && ns in d.namespaces
    && !NamespaceTriggers(Lookup(c.namespaces, ns), Lookup(d.namespaces, ns))
  }

  lemma SameInputsSameView(cfg: Config, c: Cluster, d: Cluster, ns: string)
    requires SameInputs(c, d, ns)
    ensures SameView(cfg, c, d, ns)
  {
    GrantsDependOn(c, d, ns);
    forall key ensures Permits(c, key, ns) <==> Permits(d, key, ns) {
      PermitsDependsOn(c, d, ns, key);
    }
  }

  lemma UnwokenSameInputs(c: Cluster, e: Change, k: ObjectKey)
    requires !e.SetVnet? && k in After(c, e).pods && k !in PodsWoken(c, e)
    requires k.ns in c.namespaces && k.ns in After(c, e).namespaces
    ensures SameInputs(c, After(c, e), k.ns)
  {
  }

  /** Trigger completeness, one change at a time: what is not enqueued resolves as before. */
  lemma UnwokenSameView(cfg: Config, c: Cluster, e: Change, k: ObjectKey)
    requires k in c.pods && k in After(c, e).pods && k !in PodsWoken(c, e)
    requires k.ns in c.namespaces && k.ns in After(c, e).namespaces
    ensures SameView(cfg, c, After(c, e), k.ns)
  {
    if e.SetVnet? {
      UnwokenByVnet(cfg, c, e.key, e.vnet, k);
    } else {
      UnwokenSameInputs(c, e, k);
      SameInputsSameView(cfg, c, After(c, e), k.ns);
    }
  }

  lemma UnwokenSamePod(cfg: Config, c: Cluster, e: Change, k: ObjectKey)
    requires Legal(cfg, c, e) && k in After(c, e).pods && k !in PodsWoken(c, e)
    ensures k in c.pods && After(c, e).pods[k] == c.pods[k]
    ensures k.ns in After(c, e).namespaces
  {
  }

  lemma ChangeCoversPods(cfg: Config, s: State, e: Change)
    requires WellFormed(cfg, s.c) && Legal(cfg, s.c, e) && PodsCovered(cfg, s)
    ensures PodsCovered(cfg, Fire(cfg, s, e))
  {
    var d := After(s.c, e);
    forall k | k in d.pods && k !in s.podQ && k !in PodsWoken(s.c, e) ensures PodSynced(cfg, d, k) {
      UnwokenSamePod(cfg, s.c, e, k);
      UnwokenSameView(cfg, s.c, e, k);
      SameResolution(cfg, s.c, d, k.ns, s.c.pods[k]);
    }
  }

  // ---- a resolution ----

  lemma ResolutionKeepsSpec(cfg: Config, c: Cluster, ns: string, pod: Pod)
    ensures ResolvedPod(cfg, c, ns, pod).hostPorts == pod.hostPorts
    ensures ResolvedPod(cfg, c, ns, pod).generation == pod.generation
  {
  }

  lemma PodUpdateWellFormed(cfg: Config, c: Cluster, d: Cluster)
    requires WellFormed(cfg, c) && d == c.(pods := d.pods) && d.pods.Keys == c.pods.Keys
    requires forall k | k in d.pods :: LabelsFit(d.pods[k].labels)
    ensures WellFormed(cfg, d)
  {
    hide DnsLabel, NamespaceName, VnetName, LabelsFit;
    forall v | v in d.vnets ensures ClusterVnetIsSingleton(cfg, d, v) { assert ClusterVnetIsSingleton(cfg, c, v); }
  }

  lemma PodsFit(cfg: Config, c: Cluster)
    requires WellFormed(cfg, c)
    ensures forall k | k in c.pods :: LabelsFit(c.pods[k].labels)
  {
  }

  lemma PodUpdateIsLegal(cfg: Config, c: Cluster, k: ObjectKey, pod: Pod)
    requires WellFormed(cfg, c) && k in c.pods && pod.hostPorts == c.pods[k].hostPorts && LabelsFit(pod.labels)
    ensures Legal(cfg, c, SetPod(k, Some(pod)))
  {
    hide WellFormed, LabelsFit;
    PodsFit(cfg, c);
    PodUpdateWellFormed(cfg, c, c.(pods := c.pods[k := pod]));
  }

  /**
   * A reconcile of a queued pod either finds it synced and takes it off the queue, or it is a change of that pod
   * like any other: the write enqueues the pod again, since it always changes labels or annotations.
   */
  lemma RunPodIsChange(cfg: Config, s: State, k: ObjectKey)
    requires WellFormed(cfg, s.c) && k in s.podQ && Writable(cfg, s.c, k)
    ensures k !in s.c.pods || PodSynced(cfg, s.c, k) ==> RunPod(cfg, s, k) == s.(podQ := s.podQ - {k})
    ensures k in s.c.pods && !PodSynced(cfg, s.c, k) ==>
              var e := SetPod(k, Some(ResolvedPod(cfg, s.c, k.ns, s.c.pods[k])));
              Legal(cfg, s.c, e) && RunPod(cfg, s, k) == Fire(cfg, s, e)
  {
    hide WellFormed, ResolvedPod, LabelsFit, Legal;
    if k in s.c.pods && !PodSynced(cfg, s.c, k) {
      var pod := ResolvedPod(cfg, s.c, k.ns, s.c.pods[k]);
      ResolutionKeepsSpec(cfg, s.c, k.ns, s.c.pods[k]);
      PodUpdateIsLegal(cfg, s.c, k, pod);
      WriteRequeues(s, k, pod);
    }
  }

  lemma WriteRequeues(s: State, k: ObjectKey, pod: Pod)
    requires k in s.podQ && k in s.c.pods && pod != s.c.pods[k]
    requires pod.hostPorts == s.c.pods[k].hostPorts
    ensures s.podQ - {k} + PodsWoken(s.c, SetPod(k, Some(pod))) == s.podQ + PodsWoken(s.c, SetPod(k, Some(pod)))
  {
  }

  lemma RunPodCoversPods(cfg: Config, s: State, k: ObjectKey)
    requires WellFormed(cfg, s.c) && PodsCovered(cfg, s) && k in s.podQ && Writable(cfg, s.c, k)
    ensures PodsCovered(cfg, RunPod(cfg, s, k))
  {
    RunPodIsChange(cfg, s, k);
    if k in s.c.pods && !PodSynced(cfg, s.c, k) {
      ChangeCoversPods(cfg, s, SetPod(k, Some(ResolvedPod(cfg, s.c, k.ns, s.c.pods[k]))));
    }
  }

  // ---- a vnet reconcile ----

  lemma AfterVnetFields(cfg: Config, c: Cluster, v: ObjectKey, f: Failures, write: StatusWrite)
    returns (status: VnetStatus)
    ensures var d := AfterVnet(cfg, c, v, f, write);
      && d == c.(policies := d.policies, vnets := d.vnets)
      && (d.vnets == c.vnets || (v in c.vnets && d.vnets == c.vnets[v := c.vnets[v].(status := status)]))
  {
    hide StatusOf, PoliciesAfter;
    status := if write.Written? && v in c.vnets && f.Attempted?
              then StatusOf(cfg, c, v, f.applies, write.pods, write.errors) else VnetStatus(map[], {}, None);
  }

  lemma OnlyPoliciesAndStatus(cfg: Config, c: Cluster, v: ObjectKey, f: Failures, write: StatusWrite)
    ensures var d := AfterVnet(cfg, c, v, f, write);
      && d == c.(policies := d.policies, vnets := d.vnets)
      && d.vnets.Keys == c.vnets.Keys
      && (forall w | w in c.vnets :: d.vnets[w] == c.vnets[w].(status := d.vnets[w].status))
  {
    hide AfterVnet;
    var status := AfterVnetFields(cfg, c, v, f, write);
    if v in c.vnets { StatusAlone(c.vnets, v, status); }
  }

  lemma StatusAlone(vnets: map<ObjectKey, Vnet>, v: ObjectKey, status: VnetStatus)
    requires v in vnets
    ensures var after := vnets[v := vnets[v].(status := status)];
      after.Keys == vnets.Keys && forall w | w in vnets :: after[w] == vnets[w].(status := after[w].status)
  {
  }

  lemma VnetRunSameInputs(c: Cluster, d: Cluster, ns: string)
    requires d == c.(policies := d.policies, vnets := d.vnets) && d.vnets.Keys == c.vnets.Keys && ns in c.namespaces
    requires forall w | w in c.vnets :: d.vnets[w] == c.vnets[w].(status := d.vnets[w].status)
    ensures SameInputs(c, d, ns)
  {
    forall v ensures SameSpec(Lookup(c.vnets, v), Lookup(d.vnets, v)) {
      assert v in d.vnets <==> v in c.vnets;
    }
  }

  /** A vnet reconcile changes policies and a status, which resolution does not read. */
  lemma SyncedUnderVnetRun(cfg: Config, c: Cluster, d: Cluster, k: ObjectKey)
    requires d == c.(policies := d.policies, vnets := d.vnets) && d.vnets.Keys == c.vnets.Keys
    requires forall w | w in c.vnets :: d.vnets[w] == c.vnets[w].(status := d.vnets[w].status)
    requires PodSynced(cfg, c, k) && k.ns in c.namespaces
    ensures PodSynced(cfg, d, k)
  {
    hide ResolvedPod, SameView, SameInputs;
    VnetRunSameInputs(c, d, k.ns);
    SameInputsSameView(cfg, c, d, k.ns);
    SameResolution(cfg, c, d, k.ns, c.pods[k]);
  }

  lemma RunVnetCoversPods(cfg: Config, s: State, v: ObjectKey, ok: bool, f: Failures, write: StatusWrite)
    requires WellFormed(cfg, s.c) && PodsCovered(cfg, s)
    ensures PodsCovered(cfg, RunVnet(cfg, s, v, ok, f, write))
  {
    OnlyPoliciesAndStatus(cfg, s.c, v, f, write);
    var d := AfterVnet(cfg, s.c, v, f, write);
    forall k | k in s.c.pods && PodSynced(cfg, s.c, k) ensures PodSynced(cfg, d, k) {
      SyncedUnderVnetRun(cfg, s.c, d, k);
    }
  }
}
