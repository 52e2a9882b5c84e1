/**
 * The two controllers together keep policies fresh: every vnet is queued, or its stored policies are the generated
 * ones, or a pod that still carries its stamp from a namespace it may no longer join is itself queued.
 */
module VnetFreshness {
  import opened Prelude
  import opened Names
  import opened Directions
  import opened Cluster
  import opened Resolver
  import opened Stamps
  import opened Members
  import opened Generator
  import opened VnetReconcile
  import opened Fanout
  import opened Protocol
  import opened PodFreshness

  predicate Owned(c: Cluster, v: ObjectKey, k: ObjectKey) {
    k in c.policies && OwnedBy(c.policies[k], v)
  }

  /** v's policy at one key is as generated; in a terminating namespace it is only not a stale one. */
  ghost predicate FreshAt(c: Cluster, v: ObjectKey, want: Option<Policy>, k: ObjectKey) {
    if Terminating(c, k.ns) then Owned(c, v, k) ==> want.Some?
    else if Owned(c, v, k) then want == Some(c.policies[k])
    else want.None?
  }

  ghost predicate VnetFresh(cfg: Config, c: Cluster, v: ObjectKey) {
    forall k :: FreshAt(c, v, Lookup(DesiredPolicies(cfg, c, v), k), k)
  }

  /** Pod k carries v's stamp from a namespace that is not eligible for v. */
  ghost predicate StampedOutside(cfg: Config, c: Cluster, v: ObjectKey, k: ObjectKey) {
    v in c.vnets && k in c.pods && Stamp(CanonicalKey(v)) in c.pods[k].labels && !Eligible(cfg, c, v, k.ns)
  }

  ghost predicate Excused(cfg: Config, s: State, v: ObjectKey) {
    exists k | k in s.podQ :: StampedOutside(cfg, s.c, v, k)
  }

  ghost predicate VnetsCovered(cfg: Config, s: State) {
    forall v | Addressable(v) :: v in s.vnetQ || VnetFresh(cfg, s.c, v) || Excused(cfg, s, v)
  }

  // ---- what the desired policies depend on ----

  ghost predicate SameMembers(cfg: Config, c: Cluster, d: Cluster, v: ObjectKey) {
    forall k :: MemberDirection(cfg, c, v, k) == MemberDirection(cfg, d, v, k)
  }

  lemma SameMemberNamespaces(cfg: Config, c: Cluster, d: Cluster, v: ObjectKey)
    requires SameMembers(cfg, c, d, v)
    ensures ReceiverNamespaces(cfg, c, v) <= ReceiverNamespaces(cfg, d, v)
    ensures InitiatorNamespaces(cfg, c, v) <= InitiatorNamespaces(cfg, d, v)
  {
    forall k | k in c.pods && MemberDirection(cfg, c, v, k).Some? ensures k in d.pods {
      assert MemberDirection(cfg, d, v, k).Some?;
    }
  }

  ghost predicate SameHome(cfg: Config, c: Cluster, d: Cluster, v: ObjectKey) {
    (Served(cfg, c, v) <==> Served(cfg, d, v)) && (Served(cfg, c, v) ==> c.vnets[v].uid == d.vnets[v].uid)
  }

  lemma SameDesiredPolicies(cfg: Config, c: Cluster, d: Cluster, v: ObjectKey)
    requires SameMembers(cfg, c, d, v) && SameHome(cfg, c, d, v)
    ensures DesiredPolicies(cfg, c, v) == DesiredPolicies(cfg, d, v)
  {
    SameMemberNamespaces(cfg, c, d, v);
    SameMemberNamespaces(cfg, d, c, v);
    GeneratedFrom(cfg, c, v, ReceiverNamespaces(cfg, c, v), InitiatorNamespaces(cfg, c, v));
    GeneratedFrom(cfg, d, v, ReceiverNamespaces(cfg, c, v), InitiatorNamespaces(cfg, c, v));
  }

  lemma GeneratedFrom(cfg: Config, c: Cluster, v: ObjectKey, receivers: set<string>, initiators: set<string>)
    requires receivers == ReceiverNamespaces(cfg, c, v) && initiators == InitiatorNamespaces(cfg, c, v)
    ensures Served(cfg, c, v) ==>
              DesiredPolicies(cfg, c, v) == Generated(PolicyName(cfg.hash, v), v, c.vnets[v].uid, receivers, initiators)
    ensures !Served(cfg, c, v) ==> DesiredPolicies(cfg, c, v) == map[]
  {
  }

  /** What membership of v sees of a pod: the value of the stamp, and whether the pod is resolved. */
  function StampOf(pod: Option<Pod>, v: ObjectKey): Option<(string, bool)> {
    if pod.Some? && Stamp(CanonicalKey(v)) in pod.value.labels
    then Some((pod.value.labels[Stamp(CanonicalKey(v))], Resolved(pod.value))) else None
  }

  function MemberOf(stamp: Option<(string, bool)>, eligible: bool): Option<Base> {
    if eligible && stamp.Some? && stamp.value.1 && ParseBareDirection(stamp.value.0) != Some(NoDir)
    then ParseBareDirection(stamp.value.0) else None
  }

  lemma MembershipIsByStamp(cfg: Config, c: Cluster, v: ObjectKey, k: ObjectKey)
    ensures MemberDirection(cfg, c, v, k) == MemberOf(StampOf(Lookup(c.pods, k), v), Eligible(cfg, c, v, k.ns))
  {
    var d := StampedDirection(if k in c.pods then c.pods[k].labels else map[], v);
  }

  lemma SameMember(cfg: Config, c: Cluster, d: Cluster, v: ObjectKey, k: ObjectKey)
    requires StampOf(Lookup(c.pods, k), v) == StampOf(Lookup(d.pods, k), v) || !Eligible(cfg, c, v, k.ns)
    requires Eligible(cfg, c, v, k.ns) == Eligible(cfg, d, v, k.ns)
    ensures MemberDirection(cfg, c, v, k) == MemberDirection(cfg, d, v, k)
  {
    MembershipIsByStamp(cfg, c, v, k);
    MembershipIsByStamp(cfg, d, v, k);
  }

  lemma SameEligible(cfg: Config, c: Cluster, d: Cluster, v: ObjectKey, ns: string)
    requires Lookup(c.namespaces, ns) == Lookup(d.namespaces, ns)
    requires SameSpec(Lookup(c.vnets, v), Lookup(d.vnets, v))
    ensures Eligible(cfg, c, v, ns) == Eligible(cfg, d, v, ns)
  {
  }

  lemma SameCoreSameMembers(cfg: Config, c: Cluster, d: Cluster, v: ObjectKey)
    requires c.namespaces == d.namespaces && c.pods == d.pods
    requires SameSpec(Lookup(c.vnets, v), Lookup(d.vnets, v))
    ensures SameMembers(cfg, c, d, v)
  {
    forall k ensures MemberDirection(cfg, c, v, k) == MemberDirection(cfg, d, v, k) {
      SameEligible(cfg, c, d, v, k.ns);
      SameMember(cfg, c, d, v, k);
    }
  }

  // ---- what freshness depends on ----

  ghost predicate SamePolicies(c: Cluster, d: Cluster, v: ObjectKey) {
    forall k :: (Owned(c, v, k) <==> Owned(d, v, k)) && (Owned(c, v, k) ==> c.policies[k] == d.policies[k])
  }

  /** Termination ends with the namespace, once nothing is left in it. */
  ghost predicate TerminationIsFinal(c: Cluster, d: Cluster) {
    forall ns | Terminating(c, ns) :: Terminating(d, ns) || NothingIn(d, ns)
  }

  ghost predicate NothingIn(c: Cluster, ns: string) {
    (forall k | k in c.pods :: k.ns != ns) && (forall k | k in c.policies :: k.ns != ns)
  }

  lemma NothingDesired(cfg: Config, c: Cluster, v: ObjectKey, k: ObjectKey)
    requires NothingIn(c, k.ns)
    ensures k !in DesiredPolicies(cfg, c, v) && !Owned(c, v, k)
  {
  }

  lemma StillFresh(cfg: Config, c: Cluster, d: Cluster, v: ObjectKey)
    requires VnetFresh(cfg, c, v) && SameMembers(cfg, c, d, v) && SameHome(cfg, c, d, v) && SamePolicies(c, d, v)
    requires TerminationIsFinal(c, d)
    ensures VnetFresh(cfg, d, v)
  {
    hide SameMembers, SameHome, DesiredPolicies, NothingIn;
    SameDesiredPolicies(cfg, c, d, v);
    forall k ensures FreshAt(d, v, Lookup(DesiredPolicies(cfg, d, v), k), k) {
      assert FreshAt(c, v, Lookup(DesiredPolicies(cfg, c, v), k), k);
      if Terminating(c, k.ns) && !Terminating(d, k.ns) { NothingDesired(cfg, d, v, k); }
    }
  }

  // ---- who is woken ----

  lemma StampTarget(cfg: Config, c: Cluster, v: ObjectKey, ns: string)
    requires WellFormed(cfg, c) && v in c.vnets
    ensures LabelTarget(CanonicalKey(v), ns, cfg.operatorNS) == v
  {
    if v.name == CLUSTER {
      ClusterNamingAgrees(ns, cfg.operatorNS);
    } else {
      NamingPathsAgree(v, ns, cfg.operatorNS);
    }
  }

  /** A pod event that moves a stamp of v, or the resolved marker of a pod that has one, wakes v. */
  lemma UnwokenPodEvent(cfg: Config, c: Cluster, v: ObjectKey, k: ObjectKey, before: Option<Pod>, after: Option<Pod>)
    requires WellFormed(cfg, c) && v in c.vnets
    requires JoinLabelTriggers(before, after) ==>
               v !in OptPodTargets(cfg, k.ns, before) && v !in OptPodTargets(cfg, k.ns, after)
    ensures StampOf(before, v) == StampOf(after, v)
  {
    StampTarget(cfg, c, v, k.ns);
    StampInSet(cfg, v, k.ns, before);
    StampInSet(cfg, v, k.ns, after);
  }

  /** A pod event that could change what the diagnostics of v say of any pod wakes v as well. */
  lemma UnwokenSameDiagnosis(cfg: Config, c: Cluster, v: ObjectKey, k: ObjectKey, p: Option<Pod>, j: ObjectKey)
    requires WellFormed(cfg, c) && v in c.vnets && v !in VnetsWoken(cfg, c, SetPod(k, p))
    ensures InvalidReason(cfg, c, v, j) == InvalidReason(cfg, After(c, SetPod(k, p)), v, j)
  {
    hide WellFormed, InvalidReason, OptPodTargets, JoinLabelTriggers, VnetsWoken, After, ValuesIn, LabelsOf, VnetName;
    var d := After(c, SetPod(k, p));
    PodNotWaking(cfg, c, v, k, p);
    NamedVnet(cfg, c, v);
    UnwokenSameValues(cfg, v, k, Lookup(c.pods, k), p);
    SameValuesSameReason(cfg, c, d, v, j);
  }

  lemma PodNotWaking(cfg: Config, c: Cluster, v: ObjectKey, k: ObjectKey, p: Option<Pod>)
    ensures After(c, SetPod(k, p)) == c.(pods := Put(c.pods, k, p))
    ensures v !in VnetsWoken(cfg, c, SetPod(k, p)) && JoinLabelTriggers(Lookup(c.pods, k), p) ==>
              v !in OptPodTargets(cfg, k.ns, Lookup(c.pods, k)) && v !in OptPodTargets(cfg, k.ns, p)
  {
    hide OptPodTargets, JoinLabelTriggers, Put;
  }

  lemma NamedVnet(cfg: Config, c: Cluster, v: ObjectKey)
    requires WellFormed(cfg, c) && v in c.vnets
    ensures VnetName(v) && (v.name == CLUSTER ==> v.ns == cfg.operatorNS)
  {
  }

  function ReasonFor(values: seq<string>, admitted: bool, managed: bool): Option<JoinerReason> {
    if values == [] || !admitted then None
    else if exists value | value in values :: ParseBareDirection(value).None? then Some(InvalidDirection)
    else if managed then None
    else Some(NamespaceExcluded)
  }

  lemma ReasonByValues(cfg: Config, c: Cluster, v: ObjectKey, j: ObjectKey)
    requires v in c.vnets
    ensures InvalidReason(cfg, c, v, j) ==
            ReasonFor(ValuesIn(LabelsOf(Lookup(c.pods, j)), j.ns, v), Admits(c, v.ns, c.vnets[v].allowed, j.ns),
                      Managed(cfg, c, j.ns))
  {
    hide NetworkId, ParseBareDirection, Admits, Managed;
  }

  lemma SameValuesSameReason(cfg: Config, c: Cluster, d: Cluster, v: ObjectKey, j: ObjectKey)
    requires d == c.(pods := d.pods) && v in c.vnets
    requires ValuesIn(LabelsOf(Lookup(c.pods, j)), j.ns, v) == ValuesIn(LabelsOf(Lookup(d.pods, j)), j.ns, v)
    ensures InvalidReason(cfg, c, v, j) == InvalidReason(cfg, d, v, j)
  {
    hide InvalidReason, ValuesIn, LabelsOf, ReasonFor, Selects;
    ReasonByValues(cfg, c, v, j);
    ReasonByValues(cfg, d, v, j);
  }

  lemma UnwokenSameValues(cfg: Config, v: ObjectKey, k: ObjectKey, before: Option<Pod>, after: Option<Pod>)
    requires VnetName(v) && (v.name == CLUSTER ==> v.ns == cfg.operatorNS)
    requires JoinLabelTriggers(before, after) ==>
               v !in OptPodTargets(cfg, k.ns, before) && v !in OptPodTargets(cfg, k.ns, after)
    ensures ValuesIn(LabelsOf(before), k.ns, v) == ValuesIn(LabelsOf(after), k.ns, v)
  {
    hide NamedBy, NetworkId, OptPodTargets, JoinLabelTriggers, LabelsOf, VnetName;
    var short, full := Join(v.name), Join(NetworkId(v));
    NamingLabels(cfg, k.ns, short, v);
    NamingLabels(cfg, k.ns, full, v);
    if NamedBy(cfg, k.ns, short, v) { UnwokenLabel(cfg, v, k, before, after, short); }
    if NamedBy(cfg, k.ns, full, v) { UnwokenLabel(cfg, v, k, before, after, full); }
    SameLookupsSameValues(LabelsOf(before), LabelsOf(after), k.ns, v);
  }

  lemma SameLookupsSameValues(a: map<LabelKey, string>, b: map<LabelKey, string>, ns: string, v: ObjectKey)
    requires ns == v.ns || v.name == CLUSTER ==> Lookup(a, Join(v.name)) == Lookup(b, Join(v.name))
    requires v.name != CLUSTER ==> Lookup(a, Join(NetworkId(v))) == Lookup(b, Join(NetworkId(v)))
    ensures ValuesIn(a, ns, v) == ValuesIn(b, ns, v)
  {
    hide NetworkId;
  }

  function LabelsOf(pod: Option<Pod>): map<LabelKey, string> {
    match pod
    case Some(p) => p.labels
    case None => map[]
  }

  lemma JoinLabelsOf(cfg: Config, ns: string, pod: Option<Pod>, l: LabelKey)
    requires l.Join?
    ensures Lookup(JoinLabelSet(pod), l) == Lookup(LabelsOf(pod), l)
    ensures l in LabelsOf(pod) ==> LabelTarget(l.suffix, ns, cfg.operatorNS) in OptPodTargets(cfg, ns, pod)
  {
    hide LabelTarget;
    assert SuffixOf(l) == l.suffix;
  }

  lemma UnwokenLabel(cfg: Config, v: ObjectKey, k: ObjectKey, before: Option<Pod>, after: Option<Pod>, l: LabelKey)
    requires NamedBy(cfg, k.ns, l, v)
    requires JoinLabelTriggers(before, after) ==>
               v !in OptPodTargets(cfg, k.ns, before) && v !in OptPodTargets(cfg, k.ns, after)
    ensures Lookup(LabelsOf(before), l) == Lookup(LabelsOf(after), l)
  {
    hide OptPodTargets, LabelTarget, IsPrefixedClusterSuffix;
    assert JoinLabelSet(None) == map[] == LabelsOf(None);
    JoinLabelsOf(cfg, k.ns, before, l);
    JoinLabelsOf(cfg, k.ns, after, l);
  }

  lemma StampInSet(cfg: Config, v: ObjectKey, ns: string, pod: Option<Pod>)
    requires LabelTarget(CanonicalKey(v), ns, cfg.operatorNS) == v
    ensures StampOf(pod, v).Some? ==> v in OptPodTargets(cfg, ns, pod)
    ensures var stamp := Lookup(JoinLabelSet(pod), Stamp(CanonicalKey(v)));
      if pod.None? then stamp.None?
      else stamp == match StampOf(pod, v) case None => None case Some(s) => Some(s.0)
    ensures StampOf(pod, v).Some? ==>
              StampOf(pod, v).value.1 == (ResolvedGenerationOf(pod) != "")
  {
  }

  lemma NetworkTarget(v: ObjectKey, p: Policy)
    requires Addressable(v) && OwnedBy(p, v)
    ensures PolicyTarget(Some(p)) == {v}
  {
    CutJoin(v.ns, v.name);
  }

  /** A policy event on a policy of v, before or after, wakes v: only taking the managed label off would not. */
  lemma UnwokenPolicyEvent(v: ObjectKey, before: Option<Policy>, after: Option<Policy>)
    requires Addressable(v) && KeepsManaged(before, after) && v !in PolicyWakes(before, after)
    ensures !(before.Some? && OwnedBy(before.value, v)) && !(after.Some? && OwnedBy(after.value, v))
  {
    if before.Some? && OwnedBy(before.value, v) { NetworkTarget(v, before.value); }
    if after.Some? && OwnedBy(after.value, v) { NetworkTarget(v, after.value); }
  }

  // ---- one change ----

  lemma PodChangeSameMember(cfg: Config, c: Cluster, d: Cluster, v: ObjectKey, j: ObjectKey)
    requires d == c.(pods := d.pods)
    requires v in c.vnets ==> StampOf(Lookup(c.pods, j), v) == StampOf(Lookup(d.pods, j), v)
    ensures MemberDirection(cfg, c, v, j) == MemberDirection(cfg, d, v, j)
  {
    if v in c.vnets {
      SameEligible(cfg, c, d, v, j.ns);
      SameMember(cfg, c, d, v, j);
    }
  }

  lemma PutStamp(pods: map<ObjectKey, Pod>, k: ObjectKey, p: Option<Pod>, v: ObjectKey)
    requires StampOf(Lookup(pods, k), v) == StampOf(p, v)
    ensures forall j :: StampOf(Lookup(Put(pods, k, p), j), v) == StampOf(Lookup(pods, j), v)
  {
  }

  lemma PodChangeSameMembers(cfg: Config, c: Cluster, k: ObjectKey, p: Option<Pod>, v: ObjectKey)
    requires WellFormed(cfg, c) && v !in VnetsWoken(cfg, c, SetPod(k, p))
    ensures SameMembers(cfg, c, After(c, SetPod(k, p)), v)
  {
    hide WellFormed, SameMembers, Put;
    if v in c.vnets {
      UnwokenPodEvent(cfg, c, v, k, Lookup(c.pods, k), p);
      PutStamp(c.pods, k, p, v);
    }
    MembersByStamps(cfg, c, After(c, SetPod(k, p)), v);
  }

  lemma MembersByStamps(cfg: Config, c: Cluster, d: Cluster, v: ObjectKey)
    requires d == c.(pods := d.pods)
    requires v in c.vnets ==> forall j :: StampOf(Lookup(d.pods, j), v) == StampOf(Lookup(c.pods, j), v)
    ensures SameMembers(cfg, c, d, v)
  {
    forall j ensures MemberDirection(cfg, c, v, j) == MemberDirection(cfg, d, v, j) {
      PodChangeSameMember(cfg, c, d, v, j);
    }
  }

  /** A namespace that does not wake v is not eligible for it after the change. */
  lemma UnwokenNamespace(cfg: Config, c: Cluster, ns: string, n: Option<Namespace>, v: ObjectKey)
    requires v in c.vnets && v !in VnetsWoken(cfg, c, SetNamespace(ns, n))
    ensures !Eligible(cfg, After(c, SetNamespace(ns, n)), v, ns) && v.ns != ns
  {
  }

  /** An untriggered change of a namespace does not move its eligibility. */
  lemma UntriggeredNamespace(cfg: Config, c: Cluster, ns: string, n: Option<Namespace>, v: ObjectKey)
    requires !NamespaceTriggers(Lookup(c.namespaces, ns), n)
    ensures Eligible(cfg, c, v, ns) == Eligible(cfg, After(c, SetNamespace(ns, n)), v, ns)
  {
  }

  lemma NamespaceChange(cfg: Config, c: Cluster, ns: string, n: Option<Namespace>, v: ObjectKey, k: ObjectKey)
    requires v !in VnetsWoken(cfg, c, SetNamespace(ns, n))
    ensures var d := After(c, SetNamespace(ns, n));
      MemberDirection(cfg, c, v, k) == MemberDirection(cfg, d, v, k) ||
      (k in PodsWoken(c, SetNamespace(ns, n)) && StampedOutside(cfg, d, v, k))
  {
    hide MemberDirection, StampedOutside, Eligible, NamespaceTriggers, VnetsWoken;
    var d := After(c, SetNamespace(ns, n));
    if k.ns != ns {
      SameEligible(cfg, c, d, v, k.ns);
      SameMember(cfg, c, d, v, k);
    } else if !NamespaceTriggers(Lookup(c.namespaces, ns), n) {
      UntriggeredNamespace(cfg, c, ns, n, v);
      SameMember(cfg, c, d, v, k);
    } else {
      if v in c.vnets { UnwokenNamespace(cfg, c, ns, n, v); }
      RevokedMember(cfg, c, d, v, k);
    }
  }

  lemma RevokedMember(cfg: Config, c: Cluster, d: Cluster, v: ObjectKey, k: ObjectKey)
    requires c.pods == d.pods && c.vnets == d.vnets && (v in c.vnets ==> !Eligible(cfg, d, v, k.ns))
    ensures MemberDirection(cfg, c, v, k) == MemberDirection(cfg, d, v, k) || StampedOutside(cfg, d, v, k)
    ensures StampedOutside(cfg, d, v, k) ==> k in PodsOf(d, {k.ns})
  {
  }

  ghost predicate WakesExcuse(cfg: Config, c: Cluster, e: Change, v: ObjectKey) {
    exists k :: k in PodsWoken(c, e) && StampedOutside(cfg, After(c, e), v, k)
  }

  lemma NamespaceChangeKeepsFresh(cfg: Config, c: Cluster, ns: string, n: Option<Namespace>, v: ObjectKey)
    requires Legal(cfg, c, SetNamespace(ns, n)) && v !in VnetsWoken(cfg, c, SetNamespace(ns, n))
    requires VnetFresh(cfg, c, v)
    ensures VnetFresh(cfg, After(c, SetNamespace(ns, n)), v) || WakesExcuse(cfg, c, SetNamespace(ns, n), v)
  {
    hide MemberDirection, Legal, VnetFresh, NamespaceTriggers;
    var d := After(c, SetNamespace(ns, n));
    forall k
      ensures MemberDirection(cfg, c, v, k) == MemberDirection(cfg, d, v, k) ||
              WakesExcuse(cfg, c, SetNamespace(ns, n), v)
    {
      NamespaceChange(cfg, c, ns, n, v, k);
    }
    if !WakesExcuse(cfg, c, SetNamespace(ns, n), v) {
      if v in c.vnets { UnwokenNamespace(cfg, c, ns, n, v); }
      NamespaceHome(cfg, c, ns, n, v);
      NamespaceTermination(cfg, c, ns, n);
      StillFresh(cfg, c, d, v);
    }
  }

  lemma GoneIsEmpty(cfg: Config, d: Cluster, ns: string)
    requires WellFormed(cfg, d) && ns !in d.namespaces && forall k | k in d.policies :: k.ns != ns
    ensures NothingIn(d, ns)
  {
    forall k | k in d.pods ensures k.ns != ns { assert k.ns in d.namespaces; }
  }

  lemma NamespaceTermination(cfg: Config, c: Cluster, ns: string, n: Option<Namespace>)
    requires Legal(cfg, c, SetNamespace(ns, n))
    ensures TerminationIsFinal(c, After(c, SetNamespace(ns, n)))
  {
    hide WellFormed, NothingIn;
    var d := After(c, SetNamespace(ns, n));
    if n.None? { GoneIsEmpty(cfg, d, ns); }
    forall other | Terminating(c, other) ensures Terminating(d, other) || NothingIn(d, other) {
      assert other != ns ==> Lookup(d.namespaces, other) == Lookup(c.namespaces, other);
    }
  }

  lemma SameOwnedPolicies(c: Cluster, d: Cluster, v: ObjectKey)
    requires d.policies == c.policies
    ensures SamePolicies(c, d, v)
  {
  }

  lemma SameServed(cfg: Config, c: Cluster, d: Cluster, v: ObjectKey)
    requires Lookup(d.vnets, v) == Lookup(c.vnets, v)
    requires v in c.vnets ==> Lookup(d.namespaces, v.ns) == Lookup(c.namespaces, v.ns)
    ensures SameHome(cfg, c, d, v)
  {
    assert v in c.vnets <==> v in d.vnets;
  }

  lemma NamespaceHome(cfg: Config, c: Cluster, ns: string, n: Option<Namespace>, v: ObjectKey)
    requires v in c.vnets ==> v.ns != ns
    ensures var d := After(c, SetNamespace(ns, n)); SameHome(cfg, c, d, v) && SamePolicies(c, d, v)
  {
    hide SameHome, SamePolicies;
    var d := After(c, SetNamespace(ns, n));
    SameOwnedPolicies(c, d, v);
    SameServed(cfg, c, d, v);
  }

  lemma OtherVnetKeepsFresh(cfg: Config, c: Cluster, d: Cluster, v: ObjectKey)
    requires d == c.(vnets := d.vnets) && Lookup(c.vnets, v) == Lookup(d.vnets, v) && VnetFresh(cfg, c, v)
    ensures VnetFresh(cfg, d, v)
  {
    hide SameMembers, VnetFresh;
    SameCoreSameMembers(cfg, c, d, v);
    StillFresh(cfg, c, d, v);
  }

  lemma PodsOnlyKeepsFresh(cfg: Config, c: Cluster, d: Cluster, v: ObjectKey)
    requires d == c.(pods := d.pods) && SameMembers(cfg, c, d, v) && VnetFresh(cfg, c, v)
    ensures VnetFresh(cfg, d, v)
  {
    hide VnetFresh, SameMembers;
    StillFresh(cfg, c, d, v);
  }

  lemma PodChangeKeepsFresh(cfg: Config, c: Cluster, k: ObjectKey, p: Option<Pod>, v: ObjectKey)
    requires WellFormed(cfg, c) && v !in VnetsWoken(cfg, c, SetPod(k, p)) && VnetFresh(cfg, c, v)
    ensures VnetFresh(cfg, After(c, SetPod(k, p)), v)
  {
    PodChangeSameMembers(cfg, c, k, p, v);
    PodsOnlyKeepsFresh(cfg, c, After(c, SetPod(k, p)), v);
  }

  /** Writes to policies that do not wake v leave v's policies alone. */
  ghost predicate PoliciesUnwoken(before: map<ObjectKey, Policy>, after: map<ObjectKey, Policy>, v: ObjectKey) {
    forall k :: Lookup(before, k) == Lookup(after, k) ||
      (KeepsManaged(Lookup(before, k), Lookup(after, k)) && v !in PolicyWakes(Lookup(before, k), Lookup(after, k)))
  }

  lemma UnwokenSamePolicies(c: Cluster, d: Cluster, v: ObjectKey)
    requires Addressable(v) && PoliciesUnwoken(c.policies, d.policies, v)
    ensures SamePolicies(c, d, v)
  {
    forall k
      ensures (Owned(c, v, k) <==> Owned(d, v, k)) && (Owned(c, v, k) ==> c.policies[k] == d.policies[k])
    {
      assert k in c.policies <==> Lookup(c.policies, k).Some?;
      assert k in d.policies <==> Lookup(d.policies, k).Some?;
      if Lookup(c.policies, k) != Lookup(d.policies, k) {
        UnwokenPolicyEvent(v, Lookup(c.policies, k), Lookup(d.policies, k));
      }
    }
  }

  predicate SameVnetButStatus(v: Option<Vnet>, w: Option<Vnet>) {
    (v.Some? <==> w.Some?) && (v.Some? ==> w.value == v.value.(status := w.value.status))
  }

  /** Writes to policies and statuses that do not wake v leave it fresh. */
  lemma WritesKeepFresh(cfg: Config, c: Cluster, d: Cluster, v: ObjectKey)
    requires d == c.(policies := d.policies, vnets := d.vnets)
    requires SameVnetButStatus(Lookup(c.vnets, v), Lookup(d.vnets, v))
    requires SamePolicies(c, d, v) && VnetFresh(cfg, c, v)
    ensures VnetFresh(cfg, d, v)
  {
    SameCoreSameMembers(cfg, c, d, v);
    StillFresh(cfg, c, d, v);
  }

  lemma PutUnwoken(policies: map<ObjectKey, Policy>, k: ObjectKey, p: Option<Policy>, v: ObjectKey)
    requires KeepsManaged(Lookup(policies, k), p) && v !in PolicyWakes(Lookup(policies, k), p)
    ensures PoliciesUnwoken(policies, Put(policies, k, p), v)
  {
  }

  lemma PolicyChangeKeepsFresh(cfg: Config, c: Cluster, d: Cluster, v: ObjectKey)
    requires Addressable(v) && d == c.(policies := d.policies) && PoliciesUnwoken(c.policies, d.policies, v)
    requires VnetFresh(cfg, c, v)
    ensures VnetFresh(cfg, d, v)
  {
    UnwokenSamePolicies(c, d, v);
    WritesKeepFresh(cfg, c, d, v);
  }

  /** Members do not depend on the baselines and bindings, only on the stamps resolution derives from them. */
  lemma IntentChangeKeepsFresh(cfg: Config, c: Cluster, d: Cluster, v: ObjectKey)
    requires d == c.(clusterBaseline := d.clusterBaseline, nsBaselines := d.nsBaselines, bindings := d.bindings)
    requires VnetFresh(cfg, c, v)
    ensures VnetFresh(cfg, d, v)
  {
    SameCoreSameMembers(cfg, c, d, v);
    StillFresh(cfg, c, d, v);
  }

  /**
   * A change that does not wake v leaves its policies fresh, or takes the eligibility of a stamped pod away and
   * queues that pod.
   */
  lemma ChangeKeepsFresh(cfg: Config, c: Cluster, e: Change, v: ObjectKey)
    requires WellFormed(cfg, c) && Legal(cfg, c, e) && Addressable(v)
    requires v !in VnetsWoken(cfg, c, e) && VnetFresh(cfg, c, v)
    ensures VnetFresh(cfg, After(c, e), v) || WakesExcuse(cfg, c, e, v)
  {
    hide WellFormed, VnetFresh, Addressable, WakesExcuse;
    match e
    case SetVnet(_, _) => OtherVnetKeepsFresh(cfg, c, After(c, e), v);
    case SetNamespace(ns, n) => NamespaceChangeKeepsFresh(cfg, c, ns, n, v);
    case SetPod(k, p) => PodChangeKeepsFresh(cfg, c, k, p, v);
    case SetPolicy(k, p) =>
      PutUnwoken(c.policies, k, p, v);
      PolicyChangeKeepsFresh(cfg, c, After(c, e), v);
    case _ => IntentChangeKeepsFresh(cfg, c, After(c, e), v);
  }

  lemma StillOutside(cfg: Config, c: Cluster, d: Cluster, v: ObjectKey, k: ObjectKey)
    requires StampedOutside(cfg, c, v, k)
    requires StampOf(Lookup(d.pods, k), v) == StampOf(Lookup(c.pods, k), v)
    requires Lookup(c.namespaces, k.ns) == Lookup(d.namespaces, k.ns)
    requires SameSpec(Lookup(c.vnets, v), Lookup(d.vnets, v))
    ensures StampedOutside(cfg, d, v, k)
  {
    hide Permits, CanonicalKey;
  }

  lemma PodChangeKeepsStamp(cfg: Config, c: Cluster, j: ObjectKey, p: Option<Pod>, v: ObjectKey, k: ObjectKey)
    requires WellFormed(cfg, c) && v in c.vnets
    requires JoinLabelTriggers(Lookup(c.pods, j), p) ==>
               v !in OptPodTargets(cfg, j.ns, Lookup(c.pods, j)) && v !in OptPodTargets(cfg, j.ns, p)
    ensures StampOf(Lookup(Put(c.pods, j, p), k), v) == StampOf(Lookup(c.pods, k), v)
  {
    UnwokenPodEvent(cfg, c, v, j, Lookup(c.pods, j), p);
    PutStamp(c.pods, j, p, v);
  }

  lemma SameInputsKeepExcuse(cfg: Config, c: Cluster, d: Cluster, v: ObjectKey, k: ObjectKey)
    requires d.namespaces == c.namespaces && Lookup(c.vnets, v) == Lookup(d.vnets, v)
    requires StampOf(Lookup(d.pods, k), v) == StampOf(Lookup(c.pods, k), v)
    requires StampedOutside(cfg, c, v, k)
    ensures StampedOutside(cfg, d, v, k)
  {
  }

  lemma PodChangeKeepsExcuse(cfg: Config, c: Cluster, j: ObjectKey, p: Option<Pod>, v: ObjectKey, k: ObjectKey)
    requires WellFormed(cfg, c) && v !in VnetsWoken(cfg, c, SetPod(j, p)) && StampedOutside(cfg, c, v, k)
    ensures StampedOutside(cfg, c.(pods := Put(c.pods, j, p)), v, k)
  {
    hide Eligible, WellFormed, Put, OptPodTargets, JoinLabelTriggers, StampOf;
    PodChangeKeepsStamp(cfg, c, j, p, v, k);
    SameInputsKeepExcuse(cfg, c, c.(pods := Put(c.pods, j, p)), v, k);
  }

  lemma OtherChange(cfg: Config, c: Cluster, e: Change, v: ObjectKey)
    requires !e.SetNamespace? && !e.SetPod? && v !in VnetsWoken(cfg, c, e)
    ensures var d := After(c, e);
      d.namespaces == c.namespaces && d.pods == c.pods && Lookup(c.vnets, v) == Lookup(d.vnets, v)
  {
  }

  lemma ChangedNamespaceKeepsExcuse(cfg: Config, c: Cluster, ns: string, n: Option<Namespace>, v: ObjectKey,
                                    k: ObjectKey)
    requires v !in VnetsWoken(cfg, c, SetNamespace(ns, n)) && StampedOutside(cfg, c, v, k) && k.ns == ns
    ensures StampedOutside(cfg, c.(namespaces := Put(c.namespaces, ns, n)), v, k)
  {
  }

  lemma OtherNamespaceKeepsExcuse(cfg: Config, c: Cluster, d: Cluster, v: ObjectKey, k: ObjectKey)
    requires d == c.(namespaces := d.namespaces) && Lookup(c.namespaces, k.ns) == Lookup(d.namespaces, k.ns)
    requires StampedOutside(cfg, c, v, k)
    ensures StampedOutside(cfg, d, v, k)
  {
  }

  lemma NamespaceChangeKeepsExcuse(cfg: Config, c: Cluster, ns: string, n: Option<Namespace>, v: ObjectKey,
                                   k: ObjectKey)
    requires v !in VnetsWoken(cfg, c, SetNamespace(ns, n)) && StampedOutside(cfg, c, v, k)
    ensures StampedOutside(cfg, c.(namespaces := Put(c.namespaces, ns, n)), v, k)
  {
    if k.ns == ns {
      ChangedNamespaceKeepsExcuse(cfg, c, ns, n, v, k);
    } else {
      OtherNamespaceKeepsExcuse(cfg, c, c.(namespaces := Put(c.namespaces, ns, n)), v, k);
    }
  }

  lemma OtherChangeKeepsExcuse(cfg: Config, c: Cluster, e: Change, v: ObjectKey, k: ObjectKey)
    requires !e.SetNamespace? && !e.SetPod? && v !in VnetsWoken(cfg, c, e) && StampedOutside(cfg, c, v, k)
    ensures StampedOutside(cfg, After(c, e), v, k)
  {
    OtherChange(cfg, c, e, v);
    SameInputsKeepExcuse(cfg, c, After(c, e), v, k);
  }

  /** A change that does not wake v keeps the pods that excuse it. */
  lemma ExcuseKept(cfg: Config, c: Cluster, e: Change, v: ObjectKey, k: ObjectKey)
    requires WellFormed(cfg, c) && v !in VnetsWoken(cfg, c, e) && StampedOutside(cfg, c, v, k)
    ensures StampedOutside(cfg, After(c, e), v, k)
  {
    hide WellFormed, StampedOutside;
    if e.SetNamespace? {
      NamespaceChangeKeepsExcuse(cfg, c, e.ns, e.namespace_, v, k);
    } else if e.SetPod? {
      PodChangeKeepsExcuse(cfg, c, e.key, e.pod, v, k);
    } else {
      OtherChangeKeepsExcuse(cfg, c, e, v, k);
    }
  }

  lemma ChangeCoversVnet(cfg: Config, s: State, e: Change, v: ObjectKey)
    requires WellFormed(cfg, s.c) && Legal(cfg, s.c, e) && Addressable(v) && v !in VnetsWoken(cfg, s.c, e)
    requires VnetFresh(cfg, s.c, v) || Excused(cfg, s, v)
    ensures VnetFresh(cfg, After(s.c, e), v) || Excused(cfg, Fire(cfg, s, e), v)
  {
    hide WellFormed, Legal, StampedOutside, VnetFresh;
    if k :| k in s.podQ && StampedOutside(cfg, s.c, v, k) {
      ExcuseKept(cfg, s.c, e, v, k);
      assert k in Fire(cfg, s, e).podQ;
    } else {
      ChangeKeepsFresh(cfg, s.c, e, v);
    }
  }

  lemma ChangeCoversVnets(cfg: Config, s: State, e: Change)
    requires WellFormed(cfg, s.c) && Legal(cfg, s.c, e) && VnetsCovered(cfg, s)
    ensures VnetsCovered(cfg, Fire(cfg, s, e))
  {
    forall v | Addressable(v) && v !in Fire(cfg, s, e).vnetQ
      ensures VnetFresh(cfg, After(s.c, e), v) || Excused(cfg, Fire(cfg, s, e), v)
    {
      ChangeCoversVnet(cfg, s, e, v);
    }
  }

  // ---- a resolution ----

  lemma UndesiredStampGone(cfg: Config, c: Cluster, ns: string, pod: Pod, stamp: LabelKey)
    requires ns in c.namespaces && ResolutionManaged(stamp)
    requires Managed(cfg, c, ns) ==> stamp !in Desired(c, ns, pod)
    ensures stamp !in ResolvedPod(cfg, c, ns, pod).labels
  {
    hide Desired, Managed, Synced, Resolved, Marked;
    if Managed(cfg, c, ns) {
      SyncedLookup(pod.labels, Desired(c, ns, pod), OwnsAll, stamp);
    } else {
      SyncedLookup(pod.labels, map[], OwnsAll, stamp);
    }
  }

  /** Resolution leaves no stamp of v on a pod that may not join v. */
  lemma ResolutionStrips(cfg: Config, c: Cluster, v: ObjectKey, k: ObjectKey)
    requires WellFormed(cfg, c) && v in c.vnets && k in c.pods && !Eligible(cfg, c, v, k.ns)
    ensures Stamp(CanonicalKey(v)) !in ResolvedPod(cfg, c, k.ns, c.pods[k]).labels
  {
    if Managed(cfg, c, k.ns) { NotDesired(cfg, c, v, k.ns, c.pods[k]); }
    UndesiredStampGone(cfg, c, k.ns, c.pods[k], Stamp(CanonicalKey(v)));
  }

  lemma NotDesired(cfg: Config, c: Cluster, v: ObjectKey, ns: string, pod: Pod)
    requires WellFormed(cfg, c) && v in c.vnets && !Admits(c, v.ns, c.vnets[v].allowed, ns)
    ensures Stamp(CanonicalKey(v)) !in Desired(c, ns, pod)
  {
    if Stamp(CanonicalKey(v)) in Desired(c, ns, pod) && v.name != CLUSTER {
      StampsNameAdmittingVnets(c, ns, pod, v);
    }
  }

  /** So a synced pod excuses nobody. */
  lemma SyncedExcusesNobody(cfg: Config, c: Cluster, v: ObjectKey, k: ObjectKey)
    requires WellFormed(cfg, c) && (k !in c.pods || PodSynced(cfg, c, k))
    ensures !StampedOutside(cfg, c, v, k)
  {
    if v in c.vnets && k in c.pods && !Eligible(cfg, c, v, k.ns) { ResolutionStrips(cfg, c, v, k); }
  }

  lemma RunPodCoversVnets(cfg: Config, s: State, k: ObjectKey)
    requires WellFormed(cfg, s.c) && VnetsCovered(cfg, s) && k in s.podQ && Writable(cfg, s.c, k)
    ensures VnetsCovered(cfg, RunPod(cfg, s, k))
  {
    RunPodIsChange(cfg, s, k);
    if k in s.c.pods && !PodSynced(cfg, s.c, k) {
      ChangeCoversVnets(cfg, s, SetPod(k, Some(ResolvedPod(cfg, s.c, k.ns, s.c.pods[k]))));
    } else {
      DequeueCoversVnets(cfg, s, k);
    }
  }

  lemma DequeueKeepsExcuse(cfg: Config, s: State, k: ObjectKey, v: ObjectKey)
    requires Excused(cfg, s, v) && !StampedOutside(cfg, s.c, v, k)
    ensures Excused(cfg, s.(podQ := s.podQ - {k}), v)
  {
  }

  lemma DequeueCoversVnets(cfg: Config, s: State, k: ObjectKey)
    requires WellFormed(cfg, s.c) && VnetsCovered(cfg, s)
    requires k !in s.c.pods || PodSynced(cfg, s.c, k)
    ensures VnetsCovered(cfg, s.(podQ := s.podQ - {k}))
  {
    forall v | Excused(cfg, s, v) ensures Excused(cfg, s.(podQ := s.podQ - {k}), v) {
      SyncedExcusesNobody(cfg, s.c, v, k);
      DequeueKeepsExcuse(cfg, s, k, v);
    }
  }

  // ---- a vnet reconcile ----

  lemma DesiredIsOwned(cfg: Config, c: Cluster, v: ObjectKey, k: ObjectKey)
    requires k in DesiredPolicies(cfg, c, v)
    ensures OwnedBy(DesiredPolicies(cfg, c, v)[k], v)
  {
    MembershipLabelsOwned(v);
    assert DesiredPolicies(cfg, c, v)[k].labels == MembershipLabels(v);
  }

  lemma MembershipLabelsOwned(v: ObjectKey)
    ensures Lookup(MembershipLabels(v), ManagedBy) == Some(MANAGED_BY_VALUE)
    ensures Lookup(MembershipLabels(v), Network) == Some(NetworkId(v))
  {
  }

  /** A clean reconcile leaves v fresh. */
  lemma CleanRunIsFresh(cfg: Config, c: Cluster, v: ObjectKey, desired: map<ObjectKey, Policy>, d: Cluster,
                        k: ObjectKey)
    requires forall j | j in desired :: OwnedBy(desired[j], v)
    requires d.namespaces == c.namespaces && d.policies == PoliciesAfter(c, c.policies, v, desired, NO_FAILURES)
    ensures FreshAt(d, v, Lookup(desired, k), k)
  {
    hide PoliciesAfter;
    PolicyAfter(c, c.policies, v, desired, NO_FAILURES, k);
    assert Owned(d, v, k) ==> Lookup(d.policies, k).Some?;
    assert FailedNamespaces(desired, {}) == {};
  }

  /** The writes of a reconcile of v: its own policies, under other owners' keys at most as an overwrite. */
  lemma RunKeepsManaged(c: Cluster, policies: map<ObjectKey, Policy>, v: ObjectKey, desired: map<ObjectKey, Policy>,
                        f: Failures, k: ObjectKey)
    requires forall j | j in desired :: OwnedBy(desired[j], v)
    ensures KeepsManaged(Lookup(policies, k), Lookup(PoliciesAfter(c, policies, v, desired, f), k))
  {
  }

  lemma VnetRunLeaves(cfg: Config, c: Cluster, v: ObjectKey, f: Failures, write: StatusWrite, u: ObjectKey)
    ensures var d := AfterVnet(cfg, c, v, f, write);
      d == c.(policies := d.policies, vnets := d.vnets) && SameVnetButStatus(Lookup(c.vnets, u), Lookup(d.vnets, u)) &&
      d.policies == PoliciesAfter(c, c.policies, v, DesiredPolicies(cfg, c, v), f)
  {
    hide StatusOf, PoliciesAfter, DesiredPolicies;
  }

  lemma CleanRun(cfg: Config, c: Cluster, d: Cluster, v: ObjectKey)
    requires d == c.(policies := d.policies, vnets := d.vnets)
    requires SameVnetButStatus(Lookup(c.vnets, v), Lookup(d.vnets, v))
    requires d.policies == PoliciesAfter(c, c.policies, v, DesiredPolicies(cfg, c, v), NO_FAILURES)
    ensures VnetFresh(cfg, d, v)
  {
    var desired := DesiredPolicies(cfg, c, v);
    SameCoreSameMembers(cfg, c, d, v);
    SameDesiredPolicies(cfg, c, d, v);
    forall k | k in desired ensures OwnedBy(desired[k], v) { DesiredIsOwned(cfg, c, v, k); }
    forall k ensures FreshAt(d, v, Lookup(desired, k), k) { CleanRunIsFresh(cfg, c, v, desired, d, k); }
  }

  lemma UnwokenByRun(cfg: Config, c: Cluster, v: ObjectKey, f: Failures, u: ObjectKey)
    requires u !in PoliciesWake(c.policies, PoliciesAfter(c, c.policies, v, DesiredPolicies(cfg, c, v), f))
    ensures PoliciesUnwoken(c.policies, PoliciesAfter(c, c.policies, v, DesiredPolicies(cfg, c, v), f), u)
  {
    var desired := DesiredPolicies(cfg, c, v);
    var after := PoliciesAfter(c, c.policies, v, desired, f);
    forall k | k in desired ensures OwnedBy(desired[k], v) { DesiredIsOwned(cfg, c, v, k); }
    UnwokenKeys(c.policies, after, u);
    forall k ensures KeepsManaged(Lookup(c.policies, k), Lookup(after, k)) {
      RunKeepsManaged(c, c.policies, v, desired, f, k);
    }
  }

  lemma UnwokenKeys(before: map<ObjectKey, Policy>, after: map<ObjectKey, Policy>, u: ObjectKey)
    requires u !in PoliciesWake(before, after)
    ensures forall k ::
              Lookup(before, k) == Lookup(after, k) || u !in PolicyWakes(Lookup(before, k), Lookup(after, k))
  {
  }

  /** A reconcile of v disturbs no other vnet that it does not wake. */
  lemma OtherVnetCovered(cfg: Config, s: State, v: ObjectKey, d: Cluster, u: ObjectKey)
    requires Addressable(u) && PoliciesUnwoken(s.c.policies, d.policies, u)
    requires d == s.c.(policies := d.policies, vnets := d.vnets)
    requires SameVnetButStatus(Lookup(s.c.vnets, u), Lookup(d.vnets, u))
    requires VnetFresh(cfg, s.c, u) || Excused(cfg, s, u)
    ensures VnetFresh(cfg, d, u) || exists k | k in s.podQ :: StampedOutside(cfg, d, u, k)
  {
    if k :| k in s.podQ && StampedOutside(cfg, s.c, u, k) {
      StillOutside(cfg, s.c, d, u, k);
    } else {
      UnwokenSamePolicies(s.c, d, u);
      WritesKeepFresh(cfg, s.c, d, u);
    }
  }

  lemma RunVnetCoversVnet(cfg: Config, s: State, v: ObjectKey, ok: bool, f: Failures, write: StatusWrite, u: ObjectKey)
    requires Addressable(u) && u !in RunVnet(cfg, s, v, ok, f, write).vnetQ && (ok ==> f == NO_FAILURES)
    requires u == v || VnetFresh(cfg, s.c, u) || Excused(cfg, s, u)
    ensures var d := AfterVnet(cfg, s.c, v, f, write);
      VnetFresh(cfg, d, u) || exists k | k in s.podQ :: StampedOutside(cfg, d, u, k)
  {
    VnetRunLeaves(cfg, s.c, v, f, write, u);
    var d := AfterVnet(cfg, s.c, v, f, write);
    if u == v {
      CleanRun(cfg, s.c, d, v);
    } else {
      UnwokenByRun(cfg, s.c, v, f, u);
      OtherVnetCovered(cfg, s, v, d, u);
    }
  }

  lemma RunVnetCoversVnets(cfg: Config, s: State, v: ObjectKey, ok: bool, f: Failures, write: StatusWrite)
    requires VnetsCovered(cfg, s) && (ok ==> f == NO_FAILURES)
    ensures VnetsCovered(cfg, RunVnet(cfg, s, v, ok, f, write))
  {
    var t := RunVnet(cfg, s, v, ok, f, write);
    forall u | Addressable(u) && u !in t.vnetQ ensures VnetFresh(cfg, t.c, u) || Excused(cfg, t, u) {
      RunVnetCoversVnet(cfg, s, v, ok, f, write, u);
    }
  }
}
