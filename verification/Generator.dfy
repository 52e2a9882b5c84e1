/** The compiler from the members of a vnet to NetworkPolicies (policy_generator.go), and the baseline. */
module Generator {
  import opened Prelude
  import opened Sorting
  import opened Names
  import opened Directions
  import opened Cluster
  import opened Members

  const MANAGED_BY_VALUE := "kube-vnet"
  const RECEIVER_VALUES := ["both", "ingress"]
  const INITIATOR_VALUES := ["both", "egress"]

  /** Pods stamped for v with one of the values. */
  function StampSelector(v: ObjectKey, values: seq<string>): Selector<LabelKey> {
    Selector(map[], [Requirement(Stamp(CanonicalKey(v)), In, values)])
  }

  function InitiatorsIn(v: ObjectKey, ns: string): Peer {
    PodPeer(Selector(map[NAMESPACE_NAME_LABEL := ns], []), StampSelector(v, INITIATOR_VALUES))
  }

  function InitiatorPeers(v: ObjectKey, namespaces: seq<string>): seq<Peer> {
    if namespaces == [] then [] else [InitiatorsIn(v, namespaces[0])] + InitiatorPeers(v, namespaces[1..])
  }

  function MembershipLabels(v: ObjectKey): map<PolicyLabel, string> {
    map[ManagedBy := MANAGED_BY_VALUE, K8sManagedBy := MANAGED_BY_VALUE, Network := NetworkId(v), Role := "membership"]
  }

  /** An empty `from` would admit everyone, so a vnet without initiators gets no rule at all. */
  function MembershipPolicy(v: ObjectKey, uid: string, ns: string, initiators: seq<string>): Policy {
    Policy(
      MembershipLabels(v),
      if ns == v.ns then [OwnerRef("VirtualNetwork", v.name, uid, true)] else [],
      StampSelector(v, RECEIVER_VALUES),
      if initiators == [] then [] else [IngressRule(InitiatorPeers(v, initiators), [])])
  }

  /** The keys of the policies called `name` in the given namespaces. */
  function KeysIn(namespaces: set<string>, name: string): set<ObjectKey> {
    set ns | ns in namespaces :: ObjectKey(ns, name)
  }

  /** One policy per namespace with a receiver, each naming every namespace with an initiator. */
  ghost function Generated(name: string, v: ObjectKey, uid: string, receivers: set<string>, initiators: set<string>)
    : map<ObjectKey, Policy>
  {
    map k | k in KeysIn(receivers, name) :: MembershipPolicy(v, uid, k.ns, SortedNames(initiators))
  }

  predicate HasReceiver(byDir: map<Base, seq<string>>) {
    (Both in byDir && byDir[Both] != []) || (Ingress in byDir && byDir[Ingress] != [])
  }

  predicate HasInitiator(byDir: map<Base, seq<string>>) {
    (Both in byDir && byDir[Both] != []) || (Egress in byDir && byDir[Egress] != [])
  }

  function ReceiversOf(m: MembersByNS): set<string> {
    set ns | ns in m && HasReceiver(m[ns])
  }

  function InitiatorsOf(m: MembersByNS): set<string> {
    set ns | ns in m && HasInitiator(m[ns])
  }

  /** The namespaces with a non-empty bucket, sorted. */
  method MemberNamespaces(m: MembersByNS) returns (namespaces: seq<string>)
    ensures SortedStrings(namespaces)
    ensures Elements(namespaces) == set ns | ns in m && HasMember(m[ns])
  {
    var found: seq<string> := [];
    var todo := m.Keys;
    while todo != {}
      invariant todo <= m.Keys
      invariant Elements(found) == set ns | ns in m && ns !in todo && HasMember(m[ns])
    {
      var ns :| ns in todo;
      if HasMember(m[ns]) {
        assert Elements(found + [ns]) == Elements(found) + {ns};
        found := found + [ns];
      }
      todo := todo - {ns};
    }
    namespaces := SortStrings(found);
  }

  lemma PeersAppend(v: ObjectKey, namespaces: seq<string>, ns: string)
    ensures InitiatorPeers(v, namespaces + [ns]) == InitiatorPeers(v, namespaces) + [InitiatorsIn(v, ns)]
  {
    if namespaces != [] {
      assert (namespaces + [ns])[1..] == namespaces[1..] + [ns];
    }
  }

  /** The initiator namespaces among sorted member namespaces are exactly the sorted initiator namespaces. */
  method PeerRules(v: ObjectKey, m: MembersByNS, namespaces: seq<string>) returns (peers: seq<Peer>)
    requires SortedStrings(namespaces) && InitiatorsOf(m) <= Elements(namespaces) <= m.Keys
    ensures peers == InitiatorPeers(v, SortedNames(InitiatorsOf(m)))
  {
    peers := [];
    ghost var kept: seq<string> := [];
    for i := 0 to |namespaces|
      invariant peers == InitiatorPeers(v, kept)
      invariant SortedStrings(kept) && Elements(kept) == InitiatorsOf(m) * Elements(namespaces[..i])
    {
      var ns := namespaces[i];
      assert ns in Elements(namespaces);
      SortedPrefix(namespaces, i);
      if HasInitiator(m[ns]) {
        PeersAppend(v, kept, ns);
        SortedAppend(namespaces, i, kept);
        peers := peers + [InitiatorsIn(v, ns)];
        kept := kept + [ns];
      }
    }
    assert namespaces[..|namespaces|] == namespaces;
    assert Elements(kept) == InitiatorsOf(m);
    SortedNamesUnique(kept);
  }

  /** The policies as a map: what the list applies, key by key. */
  ghost predicate ListsExactly(policies: seq<(ObjectKey, Policy)>, desired: map<ObjectKey, Policy>) {
    && (forall i, j | 0 <= i < j < |policies| :: policies[i].0 != policies[j].0)
    && (forall p | p in policies :: Lookup(desired, p.0) == Some(p.1))
    && (forall k | k in desired :: exists p | p in policies :: p.0 == k)
  }

  lemma SomeMember(m: MembersByNS)
    ensures ReceiversOf(m) + InitiatorsOf(m) <= set ns | ns in m && HasMember(m[ns])
  {
  }

  lemma NothingGenerated(name: string, v: ObjectKey, uid: string, initiators: set<string>)
    ensures ListsExactly([], Generated(name, v, uid, {}, initiators))
  {
    hide MembershipPolicy;
  }

  /** Generate: the listed policies are exactly the desired ones. */
  method Generate(hash: HashFn, v: ObjectKey, uid: string, m: MembersByNS) returns (policies: seq<(ObjectKey, Policy)>)
    ensures ListsExactly(policies, Generated(PolicyName(hash, v), v, uid, ReceiversOf(m), InitiatorsOf(m)))
  {
    hide MembershipPolicy, PolicyName;
    policies := [];
    var namespaces := MemberNamespaces(m);
    SomeMember(m);
    if namespaces == [] {
      NothingGenerated(PolicyName(hash, v), v, uid, InitiatorsOf(m));
      return;
    }
    var peers := PeerRules(v, m, namespaces);
    policies := ReceiverPolicies(PolicyName(hash, v), v, uid, m, namespaces, peers);
  }

  function PolicyFrom(v: ObjectKey, uid: string, ns: string, peers: seq<Peer>): Policy {
    Policy(
      MembershipLabels(v),
      if ns == v.ns then [OwnerRef("VirtualNetwork", v.name, uid, true)] else [],
      StampSelector(v, RECEIVER_VALUES),
      if |peers| > 0 then [IngressRule(peers, [])] else [])
  }

  /** The loop over the member namespaces that emits one policy per receiver namespace. */
  method ReceiverPolicies(
    name: string, v: ObjectKey, uid: string, m: MembersByNS, namespaces: seq<string>, peers: seq<Peer>)
    returns (policies: seq<(ObjectKey, Policy)>)
    requires SortedStrings(namespaces) && ReceiversOf(m) <= Elements(namespaces) <= m.Keys
    requires peers == InitiatorPeers(v, SortedNames(InitiatorsOf(m)))
    ensures ListsExactly(policies, Generated(name, v, uid, ReceiversOf(m), InitiatorsOf(m)))
  {
    policies := [];
    ghost var initiators := InitiatorsOf(m);
    forall ns ensures PolicyFrom(v, uid, ns, peers) == MembershipPolicy(v, uid, ns, SortedNames(initiators)) {
      PeersEmptyIff(v, SortedNames(initiators));
    }
    for i := 0 to |namespaces|
      invariant ListsExactly(policies, Generated(name, v, uid, ReceiversOf(m) * Elements(namespaces[..i]), initiators))
    {
      var ns := namespaces[i];
      assert ns in Elements(namespaces);
      SortedPrefix(namespaces, i);
      ghost var done := ReceiversOf(m) * Elements(namespaces[..i]);
      if HasReceiver(m[ns]) {
        var policy := PolicyFrom(v, uid, ns, peers);
        GeneratedStep(name, v, uid, done, initiators, ns);
        AppendListed(policies, Generated(name, v, uid, done, initiators), ObjectKey(ns, name), policy);
        policies := policies + [(ObjectKey(ns, name), policy)];
        assert ReceiversOf(m) * Elements(namespaces[..i + 1]) == done + {ns};
      } else {
        assert ReceiversOf(m) * Elements(namespaces[..i + 1]) == done;
      }
    }
    assert namespaces[..|namespaces|] == namespaces;
    assert ReceiversOf(m) * Elements(namespaces) == ReceiversOf(m);
  }

  lemma PeersEmptyIff(v: ObjectKey, namespaces: seq<string>)
    ensures InitiatorPeers(v, namespaces) == [] <==> namespaces == []
  {
  }

  lemma GeneratedStep(name: string, v: ObjectKey, uid: string, done: set<string>, initiators: set<string>, ns: string)
    requires ns !in done
    ensures var key := ObjectKey(ns, name);
      key !in Generated(name, v, uid, done, initiators) &&
      Generated(name, v, uid, done + {ns}, initiators) ==
      Generated(name, v, uid, done, initiators)[key := MembershipPolicy(v, uid, ns, SortedNames(initiators))]
  {
  }

  lemma AppendListed(policies: seq<(ObjectKey, Policy)>, desired: map<ObjectKey, Policy>, key: ObjectKey,
                     policy: Policy)
    requires ListsExactly(policies, desired) && key !in desired
    ensures ListsExactly(policies + [(key, policy)], desired[key := policy])
  {
  }

  // ---- the baseline ----

  const BASELINE_NAME := "kube-vnet.base"

  /** Deny-all ingress: it selects every pod of the namespace and has no rules. */
  function DesiredBaseline(): Policy {
    Policy(map[ManagedBy := MANAGED_BY_VALUE, K8sManagedBy := MANAGED_BY_VALUE, Role := "baseline"], [],
           Selector(map[], []), [])
  }

  // ---- the desired policies, as a function of the cluster ----

  /** A vnet is served when its home namespace is managed; system vnets are exempt. */
  predicate Served(cfg: Config, c: Cluster, v: ObjectKey) {
    v in c.vnets && (c.vnets[v].system || Managed(cfg, c, v.ns))
  }

  predicate IsReceiver(cfg: Config, c: Cluster, v: ObjectKey, k: ObjectKey) {
    var d := MemberDirection(cfg, c, v, k);
    d.Some? && Receives(d.value)
  }

  predicate IsInitiator(cfg: Config, c: Cluster, v: ObjectKey, k: ObjectKey) {
    var d := MemberDirection(cfg, c, v, k);
    d.Some? && Initiates(d.value)
  }

  ghost function ReceiverNamespaces(cfg: Config, c: Cluster, v: ObjectKey): set<string> {
    set k | k in c.pods && IsReceiver(cfg, c, v, k) :: k.ns
  }

  ghost function InitiatorNamespaces(cfg: Config, c: Cluster, v: ObjectKey): set<string> {
    set k | k in c.pods && IsInitiator(cfg, c, v, k) :: k.ns
  }

  ghost function DesiredPolicies(cfg: Config, c: Cluster, v: ObjectKey): map<ObjectKey, Policy> {
    if Served(cfg, c, v) then
      Generated(PolicyName(cfg.hash, v), v, c.vnets[v].uid, ReceiverNamespaces(cfg, c, v),
                InitiatorNamespaces(cfg, c, v))
    else map[]
  }

  /** Some pod of ns is a member of v in direction b. */
  ghost predicate HasMemberIn(cfg: Config, c: Cluster, v: ObjectKey, ns: string, b: Base) {
    exists name :: MemberDirection(cfg, c, v, ObjectKey(ns, name)) == Some(b)
  }

  lemma BucketHasMember(cfg: Config, c: Cluster, v: ObjectKey, m: MembersByNS, ns: string, b: Base)
    requires ListsMembers(cfg, c, v, m, {})
    ensures (ns in m && b in m[ns] && m[ns][b] != []) <==> HasMemberIn(cfg, c, v, ns, b)
  {
    if ns in m && b in m[ns] && m[ns][b] != [] {
      assert Listed(m, ns, b, m[ns][b][0]);
    }
    if name :| MemberDirection(cfg, c, v, ObjectKey(ns, name)) == Some(b) {
      assert Listed(m, ns, b, name);
    }
  }

  lemma NamespacesWithMembers(cfg: Config, c: Cluster, v: ObjectKey, ns: string)
    ensures ns in ReceiverNamespaces(cfg, c, v) <==>
      HasMemberIn(cfg, c, v, ns, Both) || HasMemberIn(cfg, c, v, ns, Ingress)
    ensures ns in InitiatorNamespaces(cfg, c, v) <==>
      HasMemberIn(cfg, c, v, ns, Both) || HasMemberIn(cfg, c, v, ns, Egress)
  {
    hide Eligible, IsStampedMember, StampedDirection;
    forall k | k in c.pods && k.ns == ns ensures k == ObjectKey(ns, k.name) {}
    forall name | MemberDirection(cfg, c, v, ObjectKey(ns, name)).Some? ensures ObjectKey(ns, name) in c.pods {}
  }

  /** Generating from the discovered members gives the desired policies. */
  lemma ListedNamespaces(cfg: Config, c: Cluster, v: ObjectKey, m: MembersByNS)
    requires ListsMembers(cfg, c, v, m, {})
    ensures ReceiversOf(m) == ReceiverNamespaces(cfg, c, v)
    ensures InitiatorsOf(m) == InitiatorNamespaces(cfg, c, v)
  {
    forall ns
      ensures ns in ReceiversOf(m) <==> ns in ReceiverNamespaces(cfg, c, v)
      ensures ns in InitiatorsOf(m) <==> ns in InitiatorNamespaces(cfg, c, v)
    {
      NamespacesWithMembers(cfg, c, v, ns);
      BucketHasMember(cfg, c, v, m, ns, Both);
      BucketHasMember(cfg, c, v, m, ns, Ingress);
      BucketHasMember(cfg, c, v, m, ns, Egress);
    }
  }

  /**
   * Which policies a vnet wants, on the fields: one in every namespace with a pod that receives, as long as the vnet is
   * the system's, wherever it lives, or its home exists and is neither excluded nor disabled. Any other wants nothing.
   */
  lemma DesiredIff(cfg: Config, c: Cluster, v: ObjectKey, k: ObjectKey)
    ensures k in DesiredPolicies(cfg, c, v) <==>
      && v in c.vnets
      && (c.vnets[v].system || (v.ns in c.namespaces && v.ns !in cfg.excluded && !c.namespaces[v.ns].disabled))
      && k.name == PolicyName(cfg.hash, v)
      && exists name, b | b in {Both, Ingress} :: MemberNow(cfg, c, v, ObjectKey(k.ns, name), b)
  {
    hide MemberNow, PolicyName, HasMemberIn, ReceiverNamespaces, InitiatorNamespaces, DesiredPolicies;
    DesiredKeys(cfg, c, v, k);
    NamespacesWithMembers(cfg, c, v, k.ns);
    HasMemberIff(cfg, c, v, k.ns, Both);
    HasMemberIff(cfg, c, v, k.ns, Ingress);
  }

  lemma DesiredKeys(cfg: Config, c: Cluster, v: ObjectKey, k: ObjectKey)
    ensures k in DesiredPolicies(cfg, c, v) <==>
            Served(cfg, c, v) && k.name == PolicyName(cfg.hash, v) && k.ns in ReceiverNamespaces(cfg, c, v)
  {
    hide PolicyName, ReceiverNamespaces, InitiatorNamespaces, Served, MembershipPolicy;
    assert k == ObjectKey(k.ns, k.name);
  }

  lemma HasMemberIff(cfg: Config, c: Cluster, v: ObjectKey, ns: string, b: Base)
    ensures HasMemberIn(cfg, c, v, ns, b) <==> exists name :: MemberNow(cfg, c, v, ObjectKey(ns, name), b)
  {
    hide MemberDirection, MemberNow;
    forall name
      ensures MemberDirection(cfg, c, v, ObjectKey(ns, name)) == Some(b) <==>
              MemberNow(cfg, c, v, ObjectKey(ns, name), b)
    {
      MemberIff(cfg, c, v, ObjectKey(ns, name), b);
    }
  }

  /** Kubernetes collects an object whose owner is not in its namespace: only the policy at home names the vnet. */
  lemma OwnedAtHomeOnly(cfg: Config, c: Cluster, v: ObjectKey, k: ObjectKey)
    requires k in DesiredPolicies(cfg, c, v)
    ensures var owners := DesiredPolicies(cfg, c, v)[k].owners;
      && (owners != [] <==> k.ns == v.ns)
      && forall ref | ref in owners ::
           ref.kind == "VirtualNetwork" && ref.controller &&
           ObjectKey(k.ns, ref.name) == v && ref.uid == c.vnets[v].uid
  {
    hide PolicyName, ReceiverNamespaces, InitiatorNamespaces;
  }
}
