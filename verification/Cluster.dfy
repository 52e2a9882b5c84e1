/** The API objects kube-vnet reads and writes, and the reads themselves. */
module Cluster {
  import opened Prelude
  import opened Names

  // ---- label selectors ----

  datatype Operator = In | NotIn | Exists | DoesNotExist

  datatype Requirement<K> = Requirement(key: K, op: Operator, values: seq<string>)

  /** `Malformed` is a selector LabelSelectorAsSelector rejects; it matches nothing. */
  datatype Selector<K> = Selector(matchLabels: map<K, string>, exprs: seq<Requirement<K>>) | Malformed

  predicate Meets<K(==)>(r: Requirement<K>, labels: map<K, string>) {
    match r.op
    case In => r.key in labels && labels[r.key] in r.values
    case NotIn => r.key !in labels || labels[r.key] !in r.values
    case Exists => r.key in labels
    case DoesNotExist => r.key !in labels
  }

  predicate Selects<K(==)>(sel: Selector<K>, labels: map<K, string>) {
    && sel.Selector?
    && (forall k | k in sel.matchLabels :: k in labels && labels[k] == sel.matchLabels[k])
    && (forall r | r in sel.exprs :: Meets(r, labels))
  }

  // ---- objects ----

  /** `disabled` is the annotation kube-vnet/disabled=true. */
  datatype Namespace = Namespace(labels: map<string, string>, disabled: bool, terminating: bool)

  const NAMESPACE_NAME_LABEL := "kubernetes.io/metadata.name"

  /** The labels selectors see: the apiserver keeps every namespace labelled with its own name. */
  function NamespaceLabels(name: string, ns: Namespace): map<string, string> {
    ns.labels[NAMESPACE_NAME_LABEL := name]
  }

  datatype AllowedNamespaces = AllowedNamespaces(all: bool, names: seq<string>, selector: Option<Selector<string>>)

  /** Why a pod that names a vnet cannot join it. */
  datatype JoinerReason = InvalidDirection | NamespaceExcluded

  /** The conditions of a vnet: their reasons, and what their messages are made of. */
  datatype Ready =
    | PoliciesGenerated(policies: nat, namespaces: nat)
    | NoMembers
    | ApplyFailed(failed: nat, policies: nat, errors: string)
    | HomeExcluded

  datatype Degraded =
    | NoIssues
    | InvalidJoiners(count: nat, first: seq<(ObjectKey, JoinerReason)>)
    | DegradedHome

  datatype Conditions = Conditions(ready: Ready, degraded: Degraded)

  /** The pods of a vnet by namespace, the policies last applied for it, and the conditions once they are set. */
  datatype VnetStatus = VnetStatus(
    members: map<string, set<string>>, policies: set<ObjectKey>, conditions: Option<Conditions>)

  /** `system` is the operator's managed-by label, which marks the system vnets. */
  datatype Vnet = Vnet(allowed: Option<AllowedNamespaces>, system: bool, uid: string, status: VnetStatus)

  datatype Membership = Membership(ref: Ref, direction: string)

  datatype Binding = Binding(ref: Ref, direction: string, podSelector: Selector<LabelKey>)

  datatype Annotation = ResolvedGeneration | ResolvedBy | OtherAnnotation(key: string)

  /** `hostPorts` holds the `<port>.<protocol>` keys the pod's containers declare; pod specs do not change. */
  datatype Pod = Pod(
    labels: map<LabelKey, string>, annotations: map<Annotation, string>, generation: nat, hostPorts: set<string>)

  datatype PolicyLabel = ManagedBy | K8sManagedBy | Network | Role | Source | SourceKind | OtherLabel(key: string)

  datatype OwnerRef = OwnerRef(kind: string, name: string, uid: string, controller: bool)

  datatype Peer =
    | PodPeer(namespaces: Selector<string>, pods: Selector<LabelKey>)
    | IPBlock(cidr: string)

  datatype PolicyPort = PolicyPort(protocol: string, port: int)

  datatype IngressRule = IngressRule(from: seq<Peer>, ports: seq<PolicyPort>)

  /** An ingress NetworkPolicy. */
  datatype Policy = Policy(
    labels: map<PolicyLabel, string>, owners: seq<OwnerRef>, podSelector: Selector<LabelKey>, ingress: seq<IngressRule>)

  datatype Cluster = Cluster(
    namespaces: map<string, Namespace>,
    vnets: map<ObjectKey, Vnet>,
    clusterBaseline: Option<seq<Membership>>,
    nsBaselines: map<string, seq<Membership>>,
    bindings: map<ObjectKey, Binding>,
    pods: map<ObjectKey, Pod>,
    policies: map<ObjectKey, Policy>)

  /** The operator's flags, and the hash its names use. */
  datatype Config = Config(excluded: set<string>, operatorNS: string, hash: HashFn)

  // ---- what the objects mean ----

  /** NamespaceFilter.Manages; a missing namespace is not managed. */
  predicate Managed(cfg: Config, c: Cluster, ns: string) {
    ns in c.namespaces && ns !in cfg.excluded && !c.namespaces[ns].disabled
  }

  /** Whether a vnet homed in `home` with these allowedNamespaces admits podNS. */
  predicate Admits(c: Cluster, home: string, allowed: Option<AllowedNamespaces>, podNS: string) {
    podNS == home || (
      allowed.Some? && (
        allowed.value.all || podNS in allowed.value.names || (
          allowed.value.selector.Some? && podNS in c.namespaces &&
          Selects(allowed.value.selector.value, NamespaceLabels(podNS, c.namespaces[podNS])))))
  }

  /** Whether pods in podNS may join the vnet a key names. */
  predicate Permits(c: Cluster, key: VnetKey, podNS: string) {
    match SplitVnetKey(key)
    case None => false
    case Some((home, name)) =>
      (home == "" && name == CLUSTER) || (
        ObjectKey(home, name) in c.vnets && Admits(c, home, c.vnets[ObjectKey(home, name)].allowed, podNS))
  }

  /**
   * allowedNamespaces is the union of its three parts, each of which counts when the others are empty; the home is in
   * with or without it. A selector sees the namespaces that exist, under their own name label.
   */
  lemma AllowedIsUnion(c: Cluster, home: string, a: AllowedNamespaces, podNS: string)
    ensures Admits(c, home, None, podNS) <==> podNS == home
    ensures var none := AllowedNamespaces(false, [], None);
      var byAll, byNames, bySelector :=
        Some(none.(all := a.all)), Some(none.(names := a.names)), Some(none.(selector := a.selector));
      && (Admits(c, home, Some(a), podNS) <==>
            Admits(c, home, byAll, podNS) || Admits(c, home, byNames, podNS) || Admits(c, home, bySelector, podNS))
      && (Admits(c, home, byAll, podNS) <==> podNS == home || a.all)
      && (Admits(c, home, byNames, podNS) <==> podNS == home || podNS in a.names)
      && (Admits(c, home, bySelector, podNS) <==>
            podNS == home ||
            (a.selector.Some? && podNS in c.namespaces &&
             Selects(a.selector.value, c.namespaces[podNS].labels["kubernetes.io/metadata.name" := podNS])))
  {
  }

  // ---- reads ----

  /**
   * The API server as one reconcile sees it: every read returns the current object or fails, in any pattern.
   * `failed` records that some read failed, and `failures` how many did.
   */
  class Reader {
    const c: Cluster
    var failed: bool
    var failures: nat

    constructor (c: Cluster)
      ensures this.c == c && !failed
    {
      this.c := c;
      failed, failures := false, 0;
    }

    /** One read of `found`: its answer, or a transient error. */
    method Read<T>(found: T) returns (r: Result<T>)
      modifies this
      ensures r.Ok? ==> r.value == found && failed == old(failed)
      ensures r.Err? ==> failed
      ensures failures == old(failures) + if r.Ok? then 0 else 1
    {
      var fails: bool := *;
      if fails {
        failed, failures := true, failures + 1;
        r := Err;
      } else {
        r := Ok(found);
      }
    }
  }

  /** Each check either meets a failed read or answers exactly. */
  ghost predicate Exact<T>(r: Result<T>, answer: T, failed: bool, failedBefore: bool) {
    match r
    case Ok(value) => value == answer && failed == failedBefore
    case Err => failed
  }

  method IsManaged(cfg: Config, rd: Reader, ns: string) returns (r: Result<bool>)
    modifies rd
    ensures Exact(r, Managed(cfg, rd.c, ns), rd.failed, old(rd.failed))
  {
    var read := rd.Read(Lookup(rd.c.namespaces, ns));
    match read
    case Err => r := Err;
    case Ok(None) => r := Ok(false);
    case Ok(Some(obj)) => r := Ok(ns !in cfg.excluded && !obj.disabled);
  }

  method PermitsForVnet(rd: Reader, home: string, allowed: Option<AllowedNamespaces>, podNS: string)
    returns (r: Result<bool>)
    modifies rd
    ensures Exact(r, Admits(rd.c, home, allowed, podNS), rd.failed, old(rd.failed))
  {
    if podNS == home { return Ok(true); }
    if allowed.None? { return Ok(false); }
    if allowed.value.all || podNS in allowed.value.names { return Ok(true); }
    if allowed.value.selector.None? || allowed.value.selector.value.Malformed? { return Ok(false); }
    var read := rd.Read(Lookup(rd.c.namespaces, podNS));
    match read
    case Err => r := Err;
    case Ok(None) => r := Ok(false);
    case Ok(Some(obj)) => r := Ok(Selects(allowed.value.selector.value, NamespaceLabels(podNS, obj)));
  }

  method IsPermitted(rd: Reader, key: VnetKey, podNS: string) returns (r: Result<bool>)
    modifies rd
    ensures Exact(r, Permits(rd.c, key, podNS), rd.failed, old(rd.failed))
    ensures key == CLUSTER ==> r == Ok(true)
  {
    var split := SplitVnetKey(key);
    if split.None? { return Ok(false); }
    var (home, name) := split.value;
    if name == CLUSTER && home == "" { return Ok(true); }
    var read := rd.Read(Lookup(rd.c.vnets, ObjectKey(home, name)));
    match read
    case Err => r := Err;
    case Ok(None) => r := Ok(false);
    case Ok(Some(v)) => r := PermitsForVnet(rd, home, v.allowed, podNS);
  }

  /** The namespaces that may join a vnet: the pods there are the only ones it can affect. */
  ghost function AdmittedNamespaces(c: Cluster, home: string, allowed: Option<AllowedNamespaces>): set<string> {
    set ns | ns in c.namespaces && Admits(c, home, allowed, ns)
  }

  method NamespacesAdmittedBy(rd: Reader, home: string, allowed: Option<AllowedNamespaces>)
    returns (r: Result<set<string>>)
    modifies rd
    ensures Exact(r, AdmittedNamespaces(rd.c, home, allowed), rd.failed, old(rd.failed))
  {
    var list := rd.Read(rd.c.namespaces.Keys);
    if list.Err? { return Err; }
    var todo, admitted: set<string> := list.value, {};
    while todo != {}
      invariant todo <= rd.c.namespaces.Keys
      invariant admitted == set ns | ns in rd.c.namespaces && ns !in todo && Admits(rd.c, home, allowed, ns)
      invariant rd.failed == old(rd.failed)
    {
      var ns :| ns in todo;
      var ok := PermitsForVnet(rd, home, allowed, ns);
      if ok.Err? { return Err; }
      if ok.value { admitted := admitted + {ns}; }
      todo := todo - {ns};
    }
    assert admitted == AdmittedNamespaces(rd.c, home, allowed);
    r := Ok(admitted);
  }

  /** The key spells the home and the name of v. */
  predicate Spells(key: VnetKey, v: ObjectKey) {
    DnsLabel(v.ns) && v.name != "" && key == v.ns + "." + v.name
  }

  /** Every key: bare `cluster` is open to all namespaces, and any other goes by the vnet it spells. */
  lemma PermitsIff(c: Cluster, key: VnetKey, podNS: string)
    ensures Permits(c, key, podNS) <==>
      key == CLUSTER || exists v | v in c.vnets :: Spells(key, v) && Admits(c, v.ns, c.vnets[v].allowed, podNS)
  {
    hide Admits;
    CutParts(key);
    CutParts(CLUSTER);
    forall v: ObjectKey | Spells(key, v) ensures Cut(key) == Some((v.ns, v.name)) && key != CLUSTER {
      CutJoin(v.ns, v.name);
      assert key[|v.ns|] == '.';
      assert '.' !in CLUSTER;
    }
    var split := SplitVnetKey(key);
    if split.Some? && key != CLUSTER { assert Spells(key, ObjectKey(split.value.0, split.value.1)); }
  }

  /** A key's permission in terms of the vnet it names. */
  lemma PermitsCanonical(c: Cluster, v: ObjectKey, podNS: string)
    requires VnetName(v) && v.name != CLUSTER
    ensures Permits(c, CanonicalKey(v), podNS) <==> v in c.vnets && Admits(c, v.ns, c.vnets[v].allowed, podNS)
  {
    CanonicalKeyOfUserVnet(v);
  }
}
