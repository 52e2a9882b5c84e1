/** Which traffic the policies admit, and that it is the traffic the memberships ask for. */
module Traffic {
  import opened Prelude
  import opened Sorting
  import opened Names
  import opened Directions
  import opened Cluster
  import opened Members
  import opened Generator

  // ---- networking.k8s.io/v1 ingress semantics ----

  /** A pod as the source of a connection. An ipBlock peer never names a pod here. */
  ghost predicate PeerAdmits(c: Cluster, peer: Peer, src: ObjectKey) {
    peer.PodPeer? && src in c.pods && src.ns in c.namespaces &&
    Selects(peer.namespaces, NamespaceLabels(src.ns, c.namespaces[src.ns])) &&
    Selects(peer.pods, c.pods[src].labels)
  }

  /** An empty `from` admits every source, and an empty `ports` every port. */
  ghost predicate RuleAdmits(c: Cluster, rule: IngressRule, src: ObjectKey, port: PolicyPort) {
    (rule.from == [] || exists peer | peer in rule.from :: PeerAdmits(c, peer, src)) &&
    (rule.ports == [] || port in rule.ports)
  }

  ghost predicate SelectsPod(c: Cluster, k: ObjectKey, dst: ObjectKey) {
    k in c.policies && dst in c.pods && k.ns == dst.ns && Selects(c.policies[k].podSelector, c.pods[dst].labels)
  }

  ghost predicate PolicyAdmits(c: Cluster, k: ObjectKey, src: ObjectKey, dst: ObjectKey, port: PolicyPort) {
    SelectsPod(c, k, dst) && exists rule | rule in c.policies[k].ingress :: RuleAdmits(c, rule, src, port)
  }

  /** A pod no policy selects accepts everything; a selected one accepts what some selecting policy admits. */
  ghost predicate Allowed(c: Cluster, src: ObjectKey, dst: ObjectKey, port: PolicyPort) {
    (forall k | k in c.policies :: !SelectsPod(c, k, dst)) || exists k :: PolicyAdmits(c, k, src, dst, port)
  }

  // ---- the compiler preserves meaning ----

  lemma StampSelectorSelects(v: ObjectKey, labels: map<LabelKey, string>)
    ensures Selects(StampSelector(v, RECEIVER_VALUES), labels) <==>
      StampedDirection(labels, v).Some? && Receives(StampedDirection(labels, v).value)
    ensures Selects(StampSelector(v, INITIATOR_VALUES), labels) <==>
      StampedDirection(labels, v).Some? && Initiates(StampedDirection(labels, v).value)
  {
    var key := Stamp(CanonicalKey(v));
    assert forall values :: Selects(StampSelector(v, values), labels) <==> Meets(Requirement(key, In, values), labels);
    if key in labels {
      ParseInvertsRender(Direction(Both, false), labels[key]);
      ParseInvertsRender(Direction(Ingress, false), labels[key]);
      ParseInvertsRender(Direction(Egress, false), labels[key]);
    }
  }

  lemma PeerSelects(c: Cluster, v: ObjectKey, ns: string, src: ObjectKey)
    requires src in c.pods && src.ns in c.namespaces
    ensures PeerAdmits(c, InitiatorsIn(v, ns), src) <==>
      src.ns == ns && StampedDirection(c.pods[src].labels, v).Some? &&
      Initiates(StampedDirection(c.pods[src].labels, v).value)
  {
    StampSelectorSelects(v, c.pods[src].labels);
    var sel: Selector<string> := Selector(map[NAMESPACE_NAME_LABEL := ns], []);
    assert Selects(sel, NamespaceLabels(src.ns, c.namespaces[src.ns])) <==> src.ns == ns by {
      assert NAMESPACE_NAME_LABEL in sel.matchLabels;
    }
  }

  lemma {:induction false} PeersAdmit(c: Cluster, v: ObjectKey, namespaces: seq<string>, src: ObjectKey)
    requires src in c.pods && src.ns in c.namespaces
    ensures (exists peer | peer in InitiatorPeers(v, namespaces) :: PeerAdmits(c, peer, src)) <==>
      src.ns in namespaces && StampedDirection(c.pods[src].labels, v).Some? &&
      Initiates(StampedDirection(c.pods[src].labels, v).value)
  {
    if namespaces != [] {
      assert namespaces == [namespaces[0]] + namespaces[1..];
      PeerSelects(c, v, namespaces[0], src);
      PeersAdmit(c, v, namespaces[1..], src);
      var peers := InitiatorPeers(v, namespaces);
      assert forall peer :: peer in peers <==>
        peer == InitiatorsIn(v, namespaces[0]) || peer in InitiatorPeers(v, namespaces[1..]);
    }
  }

  /** A membership policy admits exactly the stamped initiators of the namespaces it lists to the stamped receivers. */
  lemma MembershipPolicyAdmits(c: Cluster, k: ObjectKey, v: ObjectKey, uid: string, initiators: set<string>,
                               src: ObjectKey, dst: ObjectKey, port: PolicyPort)
    requires src in c.pods && src.ns in c.namespaces && dst in c.pods
    requires k in c.policies && c.policies[k] == MembershipPolicy(v, uid, k.ns, SortedNames(initiators))
    ensures PolicyAdmits(c, k, src, dst, port) <==>
      k.ns == dst.ns && src.ns in initiators &&
      StampedDirection(c.pods[dst].labels, v).Some? && Receives(StampedDirection(c.pods[dst].labels, v).value) &&
      StampedDirection(c.pods[src].labels, v).Some? && Initiates(StampedDirection(c.pods[src].labels, v).value)
  {
    var namespaces := SortedNames(initiators);
    StampSelectorSelects(v, c.pods[dst].labels);
    PeersAdmit(c, v, namespaces, src);
    PeersEmptyIff(v, namespaces);
    assert forall ns :: ns in namespaces <==> ns in Elements(namespaces);
    var policy := c.policies[k];
    if namespaces == [] {
      assert policy.ingress == [];
    } else {
      var rule := IngressRule(InitiatorPeers(v, namespaces), []);
      assert policy.ingress == [rule];
      assert RuleAdmits(c, rule, src, port) <==> exists peer | peer in rule.from :: PeerAdmits(c, peer, src);
      assert rule in policy.ingress;
    }
  }

  /** A namespace of the store holds its deny-all baseline, the desired policies of the vnets, and nothing else. */
  ghost predicate StoreCompiled(cfg: Config, c: Cluster, ns: string) {
    && Lookup(c.policies, ObjectKey(ns, BASELINE_NAME)) == Some(DesiredBaseline())
    && (forall v, k | k in DesiredPolicies(cfg, c, v) && k.ns == ns ::
          Lookup(c.policies, k) == Some(DesiredPolicies(cfg, c, v)[k]))
    && (forall k | k in c.policies && k.ns == ns ::
          c.policies[k] == DesiredBaseline() || exists v :: k in DesiredPolicies(cfg, c, v))
  }

  /** No pod carries a stamp of a served vnet that it is not a member by. */
  ghost predicate StampsAreMemberships(cfg: Config, c: Cluster, k: ObjectKey)
    requires k in c.pods
  {
    forall v | Served(cfg, c, v) ::
      var d := StampedDirection(c.pods[k].labels, v);
      d.Some? && d.value != NoDir ==> MemberDirection(cfg, c, v, k) == d
  }

  ghost predicate PodsHaveNamespaces(c: Cluster) {
    forall k | k in c.pods :: k.ns in c.namespaces
  }

  /** Some vnet has dst as a receiver and src as an initiator: what the users asked for. */
  ghost predicate Connected(cfg: Config, c: Cluster, src: ObjectKey, dst: ObjectKey) {
    exists v :: Served(cfg, c, v) && IsReceiver(cfg, c, v, dst) && IsInitiator(cfg, c, v, src)
  }

  lemma BaselineSelectsAll(cfg: Config, c: Cluster, dst: ObjectKey)
    requires StoreCompiled(cfg, c, dst.ns) && dst in c.pods
    ensures SelectsPod(c, ObjectKey(dst.ns, BASELINE_NAME), dst)
  {
    assert Lookup(c.policies, ObjectKey(dst.ns, BASELINE_NAME)) == Some(DesiredBaseline());
  }

  lemma DesiredPolicyAt(cfg: Config, c: Cluster, v: ObjectKey, k: ObjectKey)
    requires k in DesiredPolicies(cfg, c, v)
    ensures Served(cfg, c, v) && k.ns in ReceiverNamespaces(cfg, c, v)
    ensures DesiredPolicies(cfg, c, v)[k] ==
            MembershipPolicy(v, c.vnets[v].uid, k.ns, SortedNames(InitiatorNamespaces(cfg, c, v)))
  {
  }

  /** Whatever the stamps say, traffic only flows between namespaces that are eligible for a common served vnet. */
  lemma AllowedMeansStamped(cfg: Config, c: Cluster, src: ObjectKey, dst: ObjectKey, port: PolicyPort)
    returns (v: ObjectKey)
    requires StoreCompiled(cfg, c, dst.ns) && PodsHaveNamespaces(c)
    requires src in c.pods && dst in c.pods && Allowed(c, src, dst, port)
    ensures Served(cfg, c, v) && Eligible(cfg, c, v, src.ns) && Eligible(cfg, c, v, dst.ns)
    ensures StampedDirection(c.pods[dst].labels, v).Some? && Receives(StampedDirection(c.pods[dst].labels, v).value)
    ensures StampedDirection(c.pods[src].labels, v).Some? && Initiates(StampedDirection(c.pods[src].labels, v).value)
  {
    BaselineSelectsAll(cfg, c, dst);
    var k :| PolicyAdmits(c, k, src, dst, port);
    assert c.policies[k] != DesiredBaseline();
    v :| k in DesiredPolicies(cfg, c, v);
    assert Lookup(c.policies, k) == Some(DesiredPolicies(cfg, c, v)[k]);
    DesiredPolicyAt(cfg, c, v, k);
    MembershipPolicyAdmits(c, k, v, c.vnets[v].uid, InitiatorNamespaces(cfg, c, v), src, dst, port);
  }

  lemma ConnectedIsAllowed(cfg: Config, c: Cluster, v: ObjectKey, src: ObjectKey, dst: ObjectKey, port: PolicyPort)
    requires StoreCompiled(cfg, c, dst.ns) && PodsHaveNamespaces(c)
    requires Served(cfg, c, v) && IsReceiver(cfg, c, v, dst) && IsInitiator(cfg, c, v, src)
    ensures Allowed(c, src, dst, port)
  {
    assert src.ns in InitiatorNamespaces(cfg, c, v) && dst.ns in ReceiverNamespaces(cfg, c, v);
    var k := ObjectKey(dst.ns, PolicyName(cfg.hash, v));
    assert k in KeysIn(ReceiverNamespaces(cfg, c, v), PolicyName(cfg.hash, v));
    assert k in DesiredPolicies(cfg, c, v);
    assert Lookup(c.policies, k) == Some(DesiredPolicies(cfg, c, v)[k]);
    DesiredPolicyAt(cfg, c, v, k);
    MembershipPolicyAdmits(c, k, v, c.vnets[v].uid, InitiatorNamespaces(cfg, c, v), src, dst, port);
    assert PolicyAdmits(c, k, src, dst, port);
  }

  lemma AllowedIsConnected(cfg: Config, c: Cluster, src: ObjectKey, dst: ObjectKey, port: PolicyPort)
    requires StoreCompiled(cfg, c, dst.ns) && PodsHaveNamespaces(c) && src in c.pods && dst in c.pods
    requires StampsAreMemberships(cfg, c, src) && StampsAreMemberships(cfg, c, dst) && Allowed(c, src, dst, port)
    ensures Connected(cfg, c, src, dst)
  {
    hide Allowed, StoreCompiled, MemberDirection, Served, StampedDirection, PodsHaveNamespaces;
    var v := AllowedMeansStamped(cfg, c, src, dst, port);
    assert MemberDirection(cfg, c, v, src) == StampedDirection(c.pods[src].labels, v);
    assert MemberDirection(cfg, c, v, dst) == StampedDirection(c.pods[dst].labels, v);
    assert IsReceiver(cfg, c, v, dst) && IsInitiator(cfg, c, v, src);
  }

  /** The compiler preserves meaning: the policies admit exactly the initiator-receiver pairs of a common vnet. */
  lemma CompilerPreservesMeaning(cfg: Config, c: Cluster, src: ObjectKey, dst: ObjectKey, port: PolicyPort)
    requires StoreCompiled(cfg, c, dst.ns) && PodsHaveNamespaces(c) && src in c.pods && dst in c.pods
    requires StampsAreMemberships(cfg, c, src) && StampsAreMemberships(cfg, c, dst)
    ensures Allowed(c, src, dst, port) <==> Connected(cfg, c, src, dst)
  {
    hide Allowed, StoreCompiled, StampsAreMemberships, Served, IsReceiver, IsInitiator;
    if Allowed(c, src, dst, port) {
      AllowedIsConnected(cfg, c, src, dst, port);
    }
    if v :| Served(cfg, c, v) && IsReceiver(cfg, c, v, dst) && IsInitiator(cfg, c, v, src) {
      ConnectedIsAllowed(cfg, c, v, src, dst, port);
    }
  }
}
