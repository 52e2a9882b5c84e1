/**
 * Five kinds of reconcilers write NetworkPolicies into the same namespaces. Each sweeps by labels and owner, and no
 * sweep reaches a policy another one wants, except that of a Service that is gone, which goes by a label that can be
 * shared. What each converges to stays in an interleaving exactly as long as that does not happen.
 */
module Families {
  import opened Prelude
  import opened Names
  import opened Cluster
  import opened Generator
  import opened VnetReconcile
  import opened Fanout
  import opened Ports

  /** Who wants policies: the namespace, vnet, Service or host-port namespace being reconciled. */
  datatype Owner =
    | OfBaseline(ns: string)
    | OfVnet(vnet: ObjectKey)
    | OfService(ns: string, name: string, uid: string)
    | OfApiserver(ns: string, name: string, uid: string)
    | OfHost(ns: string)

  // ---- names ----

  /** The `kube-vnet.system/source` value: cut to the 63 characters of a label value. */
  function SourceLabelValue(hash: HashFn, prefix: string, ns: string, name: string): string
    requires |prefix| <= 54
  {
    if |prefix + name| <= 63 then prefix + name
    else prefix + name[..63 - |prefix| - 9] + "-" + hash("source\0" + ns + "\0" + name)
  }

  /** The source of a Service-owned policy; a source kind is also the prefix of its source labels. */
  function SourceValue(hash: HashFn, kind: string, ns: string, name: string): string
    requires |kind| <= 9
  {
    SourceLabelValue(hash, kind + "-", ns, name)
  }

  const EXT_PREFIX := "kube-vnet.ext."

  function ServicePolicyName(hash: HashFn, kind: string, ns: string, name: string): string
    requires |kind| <= 9
  {
    var prefix := EXT_PREFIX + kind + ".";
    var maxBase := 63 - |prefix| - 9;
    prefix + (if |name| <= maxBase then name else name[..maxBase]) + "-" + hash(ns + "/" + name)
  }

  function HostPortPolicyName(hash: HashFn, ns: string, id: string): string {
    EXT_PREFIX + HOST + "." + id + "-" + hash(ns + "/" + id)
  }

  // ---- what a family wants, and what it sweeps ----

  /** A controller owner reference to the object of this kind, name and uid. */
  predicate HasControllerOwner(p: Policy, kind: string, name: string, uid: string) {
    exists ref | ref in p.owners :: ref.controller && ref.kind == kind && ref.name == name && ref.uid == uid
  }

  predicate Carries(p: Policy, key: PolicyLabel, value: string) {
    Lookup(p.labels, key) == Some(value)
  }

  /** Policies without a source kind predate it and are the Service source's to sweep. */
  predicate ClaimedByOtherSourceKind(p: Policy) {
    SourceKind in p.labels && p.labels[SourceKind] != SVC
  }

  /** The policies the sweep of an owner lists and does not skip. */
  predicate Sweeps(o: Owner, k: ObjectKey, p: Policy) {
    OperatorManaged(p) &&
    match o
    case OfBaseline(ns) => k.ns == ns && Carries(p, Role, "baseline")
    case OfVnet(v) => Carries(p, Network, NetworkId(v))
    case OfService(ns, name, uid) =>
      k.ns == ns && Carries(p, Role, EXTERNAL_ALLOW) && HasControllerOwner(p, "Service", name, uid) &&
      !ClaimedByOtherSourceKind(p)
    case OfApiserver(ns, name, uid) =>
      k.ns == ns && Carries(p, Role, EXTERNAL_ALLOW) && Carries(p, SourceKind, APISERVER) &&
      HasControllerOwner(p, "Service", name, uid)
    case OfHost(ns) => k.ns == ns && Carries(p, Role, EXTERNAL_ALLOW) && Carries(p, SourceKind, HOST)
  }

  /** The kinds of Service-owned policies. */
  predicate ServiceKind(kind: string) {
    kind == SVC || kind == APISERVER
  }

  predicate ServiceEmits(hash: HashFn, kind: string, ns: string, name: string, uid: string, k: ObjectKey, p: Policy)
    requires ServiceKind(kind)
  {
    k.ns == ns && ExtLabels(p, kind) && Carries(p, Source, SourceValue(hash, kind, ns, name)) &&
    p.owners == [OwnerRef("Service", name, uid, true)]
  }

  /** What the builders of an owner emit, whatever the ports, selectors and members are. */
  predicate Emits(hash: HashFn, o: Owner, k: ObjectKey, p: Policy) {
    match o
    case OfBaseline(ns) => k.ns == ns && p == DesiredBaseline()
    case OfVnet(v) => p.labels == MembershipLabels(v)
    case OfService(ns, name, uid) => ServiceEmits(hash, SVC, ns, name, uid, k, p)
    case OfApiserver(ns, name, uid) => ServiceEmits(hash, APISERVER, ns, name, uid, k, p)
    case OfHost(ns) => k.ns == ns && ExtLabels(p, HOST) && p.owners == []
  }

  const EXT_LABELS := {ManagedBy, K8sManagedBy, Role, SourceKind, Source}

  predicate ExtLabels(p: Policy, kind: string) {
    p.labels.Keys == EXT_LABELS && Carries(p, ManagedBy, MANAGED_BY_VALUE) &&
    Carries(p, K8sManagedBy, MANAGED_BY_VALUE) && Carries(p, Role, EXTERNAL_ALLOW) && Carries(p, SourceKind, kind)
  }

  /** The two Service-owned builders emit these shapes, once the Service is made the controller owner. */
  lemma ServiceBuildersEmit(hash: HashFn, svc: Service, ns: string, name: string, pods: set<Backend>, ports: seq<int>,
                            cidr: string, k: ObjectKey)
    requires k.ns == ns
    ensures var exposed := ExternalAllow(svc, SourceValue(hash, SVC, ns, name), pods);
      var dialed := ApiserverReachable(svc, SourceValue(hash, APISERVER, ns, name), ports, cidr, pods);
      && (exposed.Ok? && exposed.value.Some? ==>
            Emits(hash, OfService(ns, name, svc.uid), k, ControlledBy(exposed.value.value, name, svc.uid)))
      && (dialed.Ok? ==> Emits(hash, OfApiserver(ns, name, svc.uid), k, ControlledBy(dialed.value, name, svc.uid)))
  {
    hide ExternalAllow, ApiserverReachable, SourceValue, Emits;
    ExposedEmits(hash, svc, ns, name, pods, k);
    DialedEmits(hash, svc, ns, name, pods, ports, cidr, k);
  }

  function ControlledBy(p: Policy, name: string, uid: string): Policy {
    p.(owners := [OwnerRef("Service", name, uid, true)])
  }

  lemma ExposedEmits(hash: HashFn, svc: Service, ns: string, name: string, pods: set<Backend>, k: ObjectKey)
    requires k.ns == ns
    ensures var exposed := ExternalAllow(svc, SourceValue(hash, SVC, ns, name), pods);
      exposed.Ok? && exposed.value.Some? ==>
        Emits(hash, OfService(ns, name, svc.uid), k, ControlledBy(exposed.value.value, name, svc.uid))
  {
    hide ExternalAllowPolicy, PolicyPorts, SourceValue, ServiceEmits, ControlledBy;
    var source := SourceValue(hash, SVC, ns, name);
    if ExternalAllow(svc, source, pods).Ok? && ExternalAllow(svc, source, pods).value.Some? {
      ExtPolicyEmitted(hash, SVC, svc.selector, ANY_IPV4, PolicyPorts(svc.ports, svc.selector, pods).value, svc.uid,
                       name, k);
    }
  }

  lemma DialedEmits(hash: HashFn, svc: Service, ns: string, name: string, pods: set<Backend>, ports: seq<int>,
                    cidr: string, k: ObjectKey)
    requires k.ns == ns
    ensures var dialed := ApiserverReachable(svc, SourceValue(hash, APISERVER, ns, name), ports, cidr, pods);
      dialed.Ok? ==> Emits(hash, OfApiserver(ns, name, svc.uid), k, ControlledBy(dialed.value, name, svc.uid))
  {
    hide ExternalAllowPolicy, ApiserverPorts, SourceValue, ServiceEmits, ControlledBy;
    if ApiserverReachable(svc, SourceValue(hash, APISERVER, ns, name), ports, cidr, pods).Ok? {
      ExtPolicyEmitted(hash, APISERVER, svc.selector, if cidr == "" then ANY_IPV4 else cidr,
                       ApiserverPorts(svc, ports, pods).value, svc.uid, name, k);
    }
  }

  lemma ExtPolicyEmitted(hash: HashFn, kind: string, selector: map<LabelKey, string>, cidr: string,
                         ports: seq<PolicyPort>, uid: string, name: string, k: ObjectKey)
    requires ServiceKind(kind)
    ensures var source := SourceValue(hash, kind, k.ns, name);
      var p := ControlledBy(ExternalAllowPolicy(kind, source, selector, cidr, ports), name, uid);
      ServiceEmits(hash, kind, k.ns, name, uid, k, p)
  {
    hide SourceValue, ExternalAllowPolicy, ExtLabels, Carries, DesiredBaseline, MembershipLabels;
    ExtPolicyLabels(ExternalAllowPolicy(kind, SourceValue(hash, kind, k.ns, name), selector, cidr, ports), kind,
                    SourceValue(hash, kind, k.ns, name), selector, cidr, ports, uid, name);
  }

  lemma ExtPolicyLabels(p: Policy, kind: string, source: string, selector: map<LabelKey, string>, cidr: string,
                        ports: seq<PolicyPort>, uid: string, name: string)
    requires p == ExternalAllowPolicy(kind, source, selector, cidr, ports)
    ensures ExtLabels(ControlledBy(p, name, uid), kind) && Carries(ControlledBy(p, name, uid), Source, source)
  {
  }

  lemma ControllerOwners(p: Policy, name: string, uid: string)
    ensures p.owners == [] ==> !HasControllerOwner(p, "Service", name, uid)
    ensures forall a, u :: p.owners == [OwnerRef("Service", a, u, true)] ==>
              (HasControllerOwner(p, "Service", name, uid) <==> a == name && u == uid)
  {
    assert p.owners != [] ==> p.owners[0] in p.owners;
  }

  /** Every owner sweeps what it emits: an owner that stops wanting a policy can remove it. */
  lemma OwnersSweepTheirOwn(hash: HashFn, o: Owner, k: ObjectKey, p: Policy)
    requires Emits(hash, o, k, p)
    ensures Sweeps(o, k, p)
  {
    hide SourceValue, NetworkId, HasControllerOwner;
    if o.OfService? || o.OfApiserver? { ControllerOwners(p, o.name, o.uid); }
  }

  /** The labels the sweeps list by, on the policies of each family. */
  function RoleOf(o: Owner): string {
    match o
    case OfBaseline(_) => "baseline"
    case OfVnet(_) => "membership"
    case _ => EXTERNAL_ALLOW
  }

  function SourceKindOf(o: Owner): Option<string> {
    match o
    case OfService(_, _, _) => Some(SVC)
    case OfApiserver(_, _, _) => Some(APISERVER)
    case OfHost(_) => Some(HOST)
    case _ => None
  }

  lemma EmittedLabels(hash: HashFn, o: Owner, k: ObjectKey, p: Policy)
    requires Emits(hash, o, k, p)
    ensures Carries(p, Role, RoleOf(o)) && Lookup(p.labels, SourceKind) == SourceKindOf(o)
    ensures Carries(p, ManagedBy, "kube-vnet") && Carries(p, K8sManagedBy, "kube-vnet")
  {
    hide SourceValue, NetworkId;
  }

  /** A policy without a source kind is the Service source's to sweep, as long as its Service is the controller. */
  lemma UnmarkedSourceIsTheServices(o: Owner, k: ObjectKey, p: Policy, name: string, uid: string)
    requires Lookup(p.labels, ManagedBy) == Some("kube-vnet") && Lookup(p.labels, Role) == Some("external-allow")
    requires SourceKind !in p.labels && Network !in p.labels
    requires p.owners == [OwnerRef("Service", name, uid, true)]
    ensures Sweeps(o, k, p) <==> o == OfService(k.ns, name, uid)
  {
    assert p.owners[0] in p.owners;
  }

  lemma EmittedNetwork(hash: HashFn, o: Owner, k: ObjectKey, p: Policy)
    requires Emits(hash, o, k, p)
    ensures Lookup(p.labels, Network) == if o.OfVnet? then Some(NetworkId(o.vnet)) else None
  {
    hide SourceValue, NetworkId;
    assert Network !in EXT_LABELS;
  }

  lemma EmittedOwners(hash: HashFn, o: Owner, k: ObjectKey, p: Policy)
    requires Emits(hash, o, k, p)
    ensures !o.OfVnet? ==> k.ns == o.ns
    ensures o.OfService? || o.OfApiserver? ==> p.owners == [OwnerRef("Service", o.name, o.uid, true)]
  {
    hide ExtLabels, Carries, SourceValue, DesiredBaseline, MembershipLabels;
  }

  /** And nothing else that anyone emits. */
  lemma SweepsDoNotInterfere(hash: HashFn, o: Owner, other: Owner, k: ObjectKey, p: Policy)
    requires o != other && Emits(hash, other, k, p)
    requires o.OfVnet? && other.OfVnet? ==> '.' !in o.vnet.ns && '.' !in other.vnet.ns
    ensures !Sweeps(o, k, p)
  {
    hide Emits, NetworkId, HasControllerOwner, OperatorManaged;
    EmittedLabels(hash, other, k, p);
    EmittedNetwork(hash, other, k, p);
    EmittedOwners(hash, other, k, p);
    if o.OfVnet? && other.OfVnet? { NetworkIdInjective(o.vnet, other.vnet); }
    if o.OfService? || o.OfApiserver? { ControllerOwners(p, o.name, o.uid); }
  }

  /** No sweep takes a policy that is not labelled as managed by kube-vnet. */
  lemma ForeignIsNotSwept(hash: HashFn, o: Owner, kind: string, ns: string, name: string, k: ObjectKey, p: Policy)
    requires ServiceKind(kind) && Lookup(p.labels, ManagedBy) != Some("kube-vnet")
    ensures !Sweeps(o, k, p) && !SweepsByKey(hash, kind, ns, name, k, p)
  {
  }

  // ---- the sweep of a Service that is gone ----

  /** deleteByServiceKey matches by the source label, since the uid is gone with the Service. */
  predicate SweepsByKey(hash: HashFn, kind: string, ns: string, name: string, k: ObjectKey, p: Policy)
    requires ServiceKind(kind)
  {
    k.ns == ns && OperatorManaged(p) && Carries(p, Role, EXTERNAL_ALLOW) && Carries(p, SourceKind, kind) &&
    Carries(p, Source, SourceValue(hash, kind, ns, name))
  }

  /** o is a Service of the gone one's namespace with the same source label, and the policies are of the same kind. */
  predicate SharesSource(hash: HashFn, kind: string, ns: string, name: string, o: Owner)
    requires ServiceKind(kind)
  {
    match o
    case OfService(at, other, _) =>
      kind == SVC && at == ns && SourceValue(hash, kind, ns, other) == SourceValue(hash, kind, ns, name)
    case OfApiserver(at, other, _) =>
      kind == APISERVER && at == ns && SourceValue(hash, kind, ns, other) == SourceValue(hash, kind, ns, name)
    case _ => false
  }

  /**
   * Of all that anyone emits it deletes exactly the policies, of its own source kind, of Services with that label:
   * nothing of another family or of the other source kind.
   */
  lemma SweepByKeyIsByLabel(hash: HashFn, kind: string, ns: string, gone: string, o: Owner, k: ObjectKey, p: Policy)
    requires ServiceKind(kind) && Emits(hash, o, k, p)
    ensures SweepsByKey(hash, kind, ns, gone, k, p) <==> SharesSource(hash, kind, ns, gone, o)
  {
  }

  /** Names that fit never collide. */
  lemma FittingSourcesAreDistinct(hash: HashFn, prefix: string, ns: string, a: string, b: string)
    requires |prefix| <= 54 && |prefix + a| <= 63 && |prefix + b| <= 63
    ensures SourceLabelValue(hash, prefix, ns, a) == SourceLabelValue(hash, prefix, ns, b) <==> a == b
  {
    if SourceLabelValue(hash, prefix, ns, a) == SourceLabelValue(hash, prefix, ns, b) {
      assert (prefix + a)[|prefix|..] == a && (prefix + b)[|prefix|..] == b;
    }
  }

  /** A name that does not fit collides with the name spelling its cut form, whatever the hash. */
  lemma CutSourceCollides(hash: HashFn, prefix: string, ns: string, long: string) returns (short: string)
    requires 1 <= |prefix| <= 54 && |prefix + long| > 63
    ensures short != long && |prefix + short| == 63
    ensures SourceLabelValue(hash, prefix, ns, long) == SourceLabelValue(hash, prefix, ns, short)
  {
    var digest := hash("source\0" + ns + "\0" + long);
    assert IsHex8(digest);
    short := long[..63 - |prefix| - 9] + "-" + digest;
    assert prefix + short == prefix + long[..63 - |prefix| - 9] + "-" + digest;
  }

  // ---- the names keep the families apart as well ----

  /** The keys the policies of an owner are stored under. */
  ghost predicate UsesKey(cfg: Config, o: Owner, k: ObjectKey) {
    match o
    case OfBaseline(ns) => k == ObjectKey(ns, BASELINE_NAME)
    case OfVnet(v) => k.name == PolicyName(cfg.hash, v)
    case OfService(ns, name, _) => k == ObjectKey(ns, ServicePolicyName(cfg.hash, SVC, ns, name))
    case OfApiserver(ns, name, _) => k == ObjectKey(ns, ServicePolicyName(cfg.hash, APISERVER, ns, name))
    case OfHost(ns) => k.ns == ns && exists id :: k.name == HostPortPolicyName(cfg.hash, ns, id)
  }

  /** No name of the owner is cut to length, and its vnet is one the API admits. */
  predicate Plain(cfg: Config, o: Owner) {
    match o
    case OfVnet(v) => VnetName(v) && ShortName(v) && (v.name == CLUSTER ==> v.ns == cfg.operatorNS)
    case OfService(_, name, _) => |name| <= 63 - |EXT_PREFIX + SVC + "."| - 9
    case OfApiserver(_, name, _) => |name| <= 63 - |EXT_PREFIX + APISERVER + "."| - 9
    case _ => true
  }

  /** A Service has one uid at a time. */
  predicate SameServiceOtherUid(o: Owner, other: Owner) {
    || (o.OfService? && other.OfService? && o.ns == other.ns && o.name == other.name)
    || (o.OfApiserver? && other.OfApiserver? && o.ns == other.ns && o.name == other.name)
  }

  /** The two characters of a policy name that tell its family: of base, mem or ext, and of the source kind. */
  function Family(o: Owner): (char, char) {
    match o
    case OfBaseline(_) => ('b', ' ')
    case OfVnet(_) => ('m', ' ')
    case OfService(_, _, _) => ('e', 's')
    case OfApiserver(_, _, _) => ('e', 'a')
    case OfHost(_) => ('e', 'h')
  }

  predicate ShowsFamily(name: string, family: (char, char)) {
    |name| >= 14 && name[10] == family.0 && (family.0 == 'e' ==> |name| > 14 && name[14] == family.1)
  }

  lemma MembershipNameShows(hash: HashFn, v: ObjectKey)
    requires ShortName(v)
    ensures |PolicyName(hash, v)| >= 14 && PolicyName(hash, v)[10] == 'm'
  {
    PolicyNameShape(hash, v);
    var name := PolicyName(hash, v);
    assert name[..|MEMBERSHIP_PREFIX|][10] == name[10] && MEMBERSHIP_PREFIX[10] == 'm';
  }

  lemma ServiceNameShows(hash: HashFn, kind: string, ns: string, name: string)
    requires 1 <= |kind| <= 9
    ensures var full := ServicePolicyName(hash, kind, ns, name); |full| > 14 && full[10] == 'e' && full[14] == kind[0]
  {
  }

  lemma HostNamesShow(cfg: Config, ns: string, name: string)
    requires exists id :: name == HostPortPolicyName(cfg.hash, ns, id)
    ensures ShowsFamily(name, ('e', 'h'))
  {
  }

  lemma NamesShowFamily(cfg: Config, o: Owner, k: ObjectKey)
    requires UsesKey(cfg, o, k) && Plain(cfg, o)
    ensures ShowsFamily(k.name, Family(o))
  {
    match o
    case OfBaseline(_) =>
    case OfVnet(v) => MembershipNameShows(cfg.hash, v);
    case OfService(ns, name, _) => ServiceNameShows(cfg.hash, SVC, ns, name);
    case OfApiserver(ns, name, _) => ServiceNameShows(cfg.hash, APISERVER, ns, name);
    case OfHost(ns) => HostNamesShow(cfg, ns, k.name);
  }

  lemma FamiliesDiffer(o: Owner, other: Owner, name: string)
    requires ShowsFamily(name, Family(o)) && ShowsFamily(name, Family(other))
    ensures Family(o) == Family(other)
  {
  }

  lemma ServiceNamesInjective(hash: HashFn, kind: string, ns: string, a: string, b: string)
    requires |kind| <= 9 && |a| <= 63 - |EXT_PREFIX + kind + "."| - 9 && |b| <= 63 - |EXT_PREFIX + kind + "."| - 9
    ensures ServicePolicyName(hash, kind, ns, a) == ServicePolicyName(hash, kind, ns, b) ==> a == b
  {
    var prefix := EXT_PREFIX + kind + ".";
    assert IsHex8(hash(ns + "/" + a)) && IsHex8(hash(ns + "/" + b));
    var full, other := ServicePolicyName(hash, kind, ns, a), ServicePolicyName(hash, kind, ns, b);
    assert full[|prefix|..|full| - 9] == a && other[|prefix|..|other| - 9] == b;
  }

  /** Distinct owners store under distinct keys, with no assumption on hash collisions unless a name is cut. */
  lemma OwnersUseDistinctKeys(cfg: Config, o: Owner, other: Owner, k: ObjectKey)
    requires o != other && Plain(cfg, o) && Plain(cfg, other) && !SameServiceOtherUid(o, other)
    ensures !(UsesKey(cfg, o, k) && UsesKey(cfg, other, k))
  {
    if UsesKey(cfg, o, k) && UsesKey(cfg, other, k) {
      NamesShowFamily(cfg, o, k);
      NamesShowFamily(cfg, other, k);
      FamiliesDiffer(o, other, k.name);
      if o.OfVnet? && other.OfVnet? {
        PolicyNameInjective(cfg.hash, o.vnet, other.vnet);
        CanonicalKeyInjective(o.vnet, other.vnet);
      }
      if o.OfService? && other.OfService? { ServiceNamesInjective(cfg.hash, SVC, o.ns, o.name, other.name); }
      if o.OfApiserver? && other.OfApiserver? { ServiceNamesInjective(cfg.hash, APISERVER, o.ns, o.name, other.name); }
    }
  }

  // ---- runs ----

  /** What every owner wants now. */
  type Wants = map<Owner, map<ObjectKey, Policy>>

  ghost predicate Sound(hash: HashFn, wants: Wants) {
    && (forall o, k | o in wants && k in wants[o] :: Emits(hash, o, k, wants[o][k]))
    && (forall o | o in wants && o.OfVnet? :: '.' !in o.vnet.ns)
    && (forall o, other, k | o in wants && other in wants && o != other && k in wants[o] :: k !in wants[other])
  }

  /** What the builders emit under the names they give it is sound, as long as no name is cut to length. */
  lemma NamedWantsAreSound(cfg: Config, wants: Wants)
    requires forall o, k | o in wants && k in wants[o] :: Emits(cfg.hash, o, k, wants[o][k]) && UsesKey(cfg, o, k)
    requires forall o | o in wants :: Plain(cfg, o)
    requires forall o, other | o in wants && other in wants && o != other :: !SameServiceOtherUid(o, other)
    ensures Sound(cfg.hash, wants)
  {
    hide UsesKey, Emits;
    forall o, other, k | o in wants && other in wants && o != other && k in wants[o] ensures k !in wants[other] {
      OwnersUseDistinctKeys(cfg, o, other, k);
    }
  }

  /**
   * A reconcile of o: it applies some of what it wants and deletes some of what it sweeps and does not want. A clean
   * one applies and deletes all of it.
   */
  ghost predicate Reconciles(wants: Wants, o: Owner, clean: bool, before: map<ObjectKey, Policy>,
                             after: map<ObjectKey, Policy>)
  {
    o in wants && forall k ::
      var live, now := Lookup(before, k), Lookup(after, k);
      if k in wants[o] then now == Some(wants[o][k]) || (!clean && now == live)
      else if live.Some? && Sweeps(o, k, live.value) then now.None? || (!clean && now == live)
      else now == live
  }

  /** A reconcile of a Service that is gone: it deletes what it sweeps, or some of it if something fails. */
  ghost predicate Forgotten(hash: HashFn, kind: string, ns: string, name: string, clean: bool,
                            before: map<ObjectKey, Policy>, after: map<ObjectKey, Policy>)
    requires ServiceKind(kind)
  {
    forall k ::
      var live, now := Lookup(before, k), Lookup(after, k);
      if live.Some? && SweepsByKey(hash, kind, ns, name, k, live.value) then now.None? || (!clean && now == live)
      else now == live
  }

  /** The store holds exactly what o wants, of what is o's. */
  ghost predicate OwnerConverged(wants: Wants, o: Owner, policies: map<ObjectKey, Policy>) {
    o in wants && forall k ::
      var live := Lookup(policies, k);
      if k in wants[o] then live == Some(wants[o][k]) else !(live.Some? && Sweeps(o, k, live.value))
  }

  lemma CleanReconcileConverges(wants: Wants, o: Owner, before: map<ObjectKey, Policy>, after: map<ObjectKey, Policy>)
    requires Reconciles(wants, o, true, before, after)
    ensures OwnerConverged(wants, o, after)
  {
  }

  lemma OthersKeepConverged(hash: HashFn, wants: Wants, o: Owner, other: Owner, clean: bool,
                            before: map<ObjectKey, Policy>, after: map<ObjectKey, Policy>)
    requires Sound(hash, wants) && OwnerConverged(wants, o, before) && Reconciles(wants, other, clean, before, after)
    ensures OwnerConverged(wants, o, after)
  {
    hide Emits, Sweeps;
    if o != other {
      forall k
        ensures k in wants[o] ==> !Sweeps(other, k, wants[o][k]) && k !in wants[other]
        ensures k in wants[other] ==> !Sweeps(o, k, wants[other][k])
      {
        OthersApart(hash, wants, o, other, k);
      }
    }
  }

  lemma OthersApart(hash: HashFn, wants: Wants, o: Owner, other: Owner, k: ObjectKey)
    requires Sound(hash, wants) && o in wants && other in wants && o != other
    ensures k in wants[o] ==> !Sweeps(other, k, wants[o][k]) && k !in wants[other]
    ensures k in wants[other] ==> !Sweeps(o, k, wants[other][k])
  {
    hide Emits, Sweeps;
    if k in wants[o] { SweepsDoNotInterfere(hash, other, o, k, wants[o][k]); }
    if k in wants[other] { SweepsDoNotInterfere(hash, o, other, k, wants[other][k]); }
  }

  datatype Turn = Serves(owner: Owner, clean: bool) | Forgets(kind: string, ns: string, name: string, clean: bool)

  ghost predicate Takes(hash: HashFn, wants: Wants, turn: Turn, before: map<ObjectKey, Policy>,
                        after: map<ObjectKey, Policy>)
  {
    match turn
    case Serves(o, clean) => Reconciles(wants, o, clean, before, after)
    case Forgets(kind, ns, name, clean) => ServiceKind(kind) && Forgotten(hash, kind, ns, name, clean, before, after)
  }

  /** The turn sweeps no policy that o wants. */
  ghost predicate Spares(hash: HashFn, wants: Wants, turn: Turn, o: Owner)
    requires o in wants
  {
    turn.Forgets? && ServiceKind(turn.kind) ==>
      forall k | k in wants[o] :: !SweepsByKey(hash, turn.kind, turn.ns, turn.name, k, wants[o][k])
  }

  /** Which is a matter of source labels: whoever wants a policy is spared iff it does not share the gone one's. */
  lemma SparesIff(hash: HashFn, wants: Wants, turn: Turn, o: Owner)
    requires Sound(hash, wants) && o in wants && wants[o] != map[] && turn.Forgets? && ServiceKind(turn.kind)
    ensures Spares(hash, wants, turn, o) <==> !SharesSource(hash, turn.kind, turn.ns, turn.name, o)
  {
    hide Emits, SweepsByKey, SharesSource;
    var some :| some in wants[o];
    forall k | k in wants[o]
      ensures SweepsByKey(hash, turn.kind, turn.ns, turn.name, k, wants[o][k]) <==>
              SharesSource(hash, turn.kind, turn.ns, turn.name, o)
    {
      SweepByKeyIsByLabel(hash, turn.kind, turn.ns, turn.name, o, k, wants[o][k]);
    }
  }

  /** The reconcile of a gone Service keeps o converged if it spares o, and a clean one only then. */
  lemma GoneServiceKeepsConvergedIff(hash: HashFn, wants: Wants, o: Owner, turn: Turn,
                                     before: map<ObjectKey, Policy>, after: map<ObjectKey, Policy>)
    requires OwnerConverged(wants, o, before) && turn.Forgets? && Takes(hash, wants, turn, before, after)
    ensures Spares(hash, wants, turn, o) ==> OwnerConverged(wants, o, after)
    ensures turn.clean ==> (OwnerConverged(wants, o, after) <==> Spares(hash, wants, turn, o))
  {
    hide SweepsByKey, Sweeps;
    if turn.clean && !Spares(hash, wants, turn, o) {
      var k :| k in wants[o] && SweepsByKey(hash, turn.kind, turn.ns, turn.name, k, wants[o][k]);
      assert Lookup(before, k) == Some(wants[o][k]);
      assert Lookup(after, k) == None;
    }
  }

  /** Some order of reconciles, failing or not, of owners and of Services that are gone. */
  ghost predicate Interleaving(hash: HashFn, wants: Wants, states: seq<map<ObjectKey, Policy>>, turns: seq<Turn>) {
    && |states| == |turns| + 1
    && forall i | 0 <= i < |turns| :: Takes(hash, wants, turns[i], states[i], states[i + 1])
  }

  /** Every turn between i and n spares o. */
  ghost predicate Spared(hash: HashFn, wants: Wants, turns: seq<Turn>, i: int, n: int, o: Owner)
    requires o in wants && -1 <= i && n <= |turns|
  {
    forall j | i < j < n :: Spares(hash, wants, turns[j], o)
  }

  /** Between i and n no turn is o's, and the reconciles of gone Services are clean. */
  ghost predicate OthersOnly(turns: seq<Turn>, i: int, n: int, o: Owner)
    requires -1 <= i && n <= |turns|
  {
    forall j | i < j < n :: if turns[j].Serves? then turns[j].owner != o else turns[j].clean
  }

  lemma TurnKeepsConverged(hash: HashFn, wants: Wants, o: Owner, turn: Turn, before: map<ObjectKey, Policy>,
                           after: map<ObjectKey, Policy>)
    requires Sound(hash, wants) && OwnerConverged(wants, o, before) && Takes(hash, wants, turn, before, after)
    requires Spares(hash, wants, turn, o)
    ensures OwnerConverged(wants, o, after)
  {
    hide Sound, OwnerConverged, Reconciles, Forgotten, Spares;
    match turn
    case Serves(other, clean) => OthersKeepConverged(hash, wants, o, other, clean, before, after);
    case Forgets(_, _, _, _) => GoneServiceKeepsConvergedIff(hash, wants, o, turn, before, after);
  }

  /**
   * Convergence composes: whoever has had one clean turn has exactly what it wants in the store ever after, unless the
   * reconcile of a gone Service swept a policy it wants.
   */
  lemma {:induction false} ConvergenceComposes(
    hash: HashFn, wants: Wants, states: seq<map<ObjectKey, Policy>>, turns: seq<Turn>, i: nat, n: nat, o: Owner)
    requires Sound(hash, wants) && Interleaving(hash, wants, states, turns)
    requires i < n <= |turns| && turns[i] == Serves(o, true) && o in wants
    requires Spared(hash, wants, turns, i, n, o)
    ensures OwnerConverged(wants, o, states[n])
  {
    hide Sound, OwnerConverged, Reconciles, Forgotten, Spares;
    if n == i + 1 {
      CleanReconcileConverges(wants, o, states[i], states[n]);
    } else {
      ConvergenceComposes(hash, wants, states, turns, i, n - 1, o);
      TurnKeepsConverged(hash, wants, o, turns[n - 1], states[n - 1], states[n]);
    }
  }

  lemma MissingStays(hash: HashFn, wants: Wants, turn: Turn, o: Owner, k: ObjectKey, before: map<ObjectKey, Policy>,
                     after: map<ObjectKey, Policy>)
    requires Sound(hash, wants) && o in wants && k in wants[o] && k !in before
    requires Takes(hash, wants, turn, before, after)
    requires turn.Serves? ==> turn.owner != o
    ensures k !in after
  {
    hide Emits, Sweeps, SweepsByKey;
    assert Lookup(before, k) == None;
    assert Lookup(after, k) == None;
  }

  lemma {:induction false} MissingTillServed(
    hash: HashFn, wants: Wants, states: seq<map<ObjectKey, Policy>>, turns: seq<Turn>, i: nat, n: nat, o: Owner,
    k: ObjectKey)
    requires Sound(hash, wants) && Interleaving(hash, wants, states, turns) && o in wants && k in wants[o]
    requires i <= n <= |turns| && k !in states[i]
    requires forall j | i <= j < n :: turns[j].Serves? ==> turns[j].owner != o
    ensures k !in states[n]
  {
    hide Sound, Takes;
    if i < n {
      MissingTillServed(hash, wants, states, turns, i, n - 1, o, k);
      MissingStays(hash, wants, turns[n - 1], o, k, states[n - 1], states[n]);
    }
  }

  lemma SweptIsMissing(hash: HashFn, wants: Wants, o: Owner, turn: Turn, before: map<ObjectKey, Policy>,
                       after: map<ObjectKey, Policy>) returns (k: ObjectKey)
    requires OwnerConverged(wants, o, before) && turn.Forgets? && turn.clean && Takes(hash, wants, turn, before, after)
    requires !Spares(hash, wants, turn, o)
    ensures k in wants[o] && k !in after
  {
    hide SweepsByKey, Sweeps;
    k :| k in wants[o] && SweepsByKey(hash, turn.kind, turn.ns, turn.name, k, wants[o][k]);
    assert Lookup(before, k) == Some(wants[o][k]);
    assert Lookup(after, k) == None;
  }

  lemma NotSparedIsGone(hash: HashFn, wants: Wants, turn: Turn, o: Owner)
    requires o in wants && !Spares(hash, wants, turn, o)
    ensures turn.Forgets?
  {
  }

  lemma MissingIsNotConverged(wants: Wants, o: Owner, policies: map<ObjectKey, Policy>, k: ObjectKey)
    requires o in wants && k in wants[o] && k !in policies
    ensures !OwnerConverged(wants, o, policies)
  {
    hide Sweeps;
    assert Lookup(policies, k) == None;
  }

  lemma SweptIsLost(
    hash: HashFn, wants: Wants, states: seq<map<ObjectKey, Policy>>, turns: seq<Turn>, m: nat, n: nat, o: Owner)
    requires Sound(hash, wants) && Interleaving(hash, wants, states, turns)
    requires m < n <= |turns| && o in wants && OwnerConverged(wants, o, states[m])
    requires !Spares(hash, wants, turns[m], o) && OthersOnly(turns, m - 1, n, o)
    ensures !OwnerConverged(wants, o, states[n])
  {
    hide Sound, Takes, Spares, OwnerConverged;
    NotSparedIsGone(hash, wants, turns[m], o);
    var k := SweptIsMissing(hash, wants, o, turns[m], states[m], states[m + 1]);
    MissingTillServed(hash, wants, states, turns, m + 1, n, o, k);
    MissingIsNotConverged(wants, o, states[n], k);
  }

  lemma InterleavingAt(hash: HashFn, wants: Wants, states: seq<map<ObjectKey, Policy>>, turns: seq<Turn>, m: nat)
    requires Interleaving(hash, wants, states, turns)
    ensures |states| == |turns| + 1
    ensures m < |turns| ==> Takes(hash, wants, turns[m], states[m], states[m + 1])
  {
    hide Takes;
  }

  lemma FirstSpared(hash: HashFn, wants: Wants, turns: seq<Turn>, m: nat, n: nat, o: Owner)
    requires o in wants && m <= n <= |turns|
    ensures !Spared(hash, wants, turns, m - 1, n, o) ==> m < n
    ensures m < n && Spares(hash, wants, turns[m], o) && !Spared(hash, wants, turns, m - 1, n, o) ==>
              !Spared(hash, wants, turns, m, n, o)
    ensures OthersOnly(turns, m - 1, n, o) ==> OthersOnly(turns, m, n, o)
  {
    hide Spares;
  }

  /** From a converged state on, the first turn that does not spare o is the one that loses it a policy. */
  lemma {:induction false} ConvergenceLost(
    hash: HashFn, wants: Wants, states: seq<map<ObjectKey, Policy>>, turns: seq<Turn>, m: nat, n: nat, o: Owner)
    requires Sound(hash, wants) && Interleaving(hash, wants, states, turns)
    requires m <= n <= |turns| && o in wants && OwnerConverged(wants, o, states[m])
    requires !Spared(hash, wants, turns, m - 1, n, o) && OthersOnly(turns, m - 1, n, o)
    ensures !OwnerConverged(wants, o, states[n])
    decreases n - m
  {
    hide Sound, Takes, Spares, OwnerConverged, Spared, OthersOnly, Interleaving;
    InterleavingAt(hash, wants, states, turns, m);
    FirstSpared(hash, wants, turns, m, n, o);
    if Spares(hash, wants, turns[m], o) {
      TurnKeepsConverged(hash, wants, o, turns[m], states[m], states[m + 1]);
      ConvergenceLost(hash, wants, states, turns, m + 1, n, o);
    } else {
      SweptIsLost(hash, wants, states, turns, m, n, o);
    }
  }

  lemma SparedByNone(hash: HashFn, wants: Wants, turns: seq<Turn>, i: nat, o: Owner)
    requires o in wants && i < |turns|
    ensures Spared(hash, wants, turns, i, i + 1, o)
  {
  }

  /**
   * And no more is true: after the last turn of o, a clean one, o is converged iff every gone Service reconciled since,
   * cleanly, spared it.
   */
  lemma ConvergenceLastsIff(
    hash: HashFn, wants: Wants, states: seq<map<ObjectKey, Policy>>, turns: seq<Turn>, i: nat, n: nat, o: Owner)
    requires Sound(hash, wants) && Interleaving(hash, wants, states, turns)
    requires i < n <= |turns| && turns[i] == Serves(o, true) && o in wants && OthersOnly(turns, i, n, o)
    ensures OwnerConverged(wants, o, states[n]) <==> Spared(hash, wants, turns, i, n, o)
  {
    hide Sound, Interleaving, Spared, OwnerConverged, OthersOnly;
    if Spared(hash, wants, turns, i, n, o) {
      ConvergenceComposes(hash, wants, states, turns, i, n, o);
    } else {
      SparedByNone(hash, wants, turns, i, o);
      ConvergenceComposes(hash, wants, states, turns, i, i + 1, o);
      ConvergenceLost(hash, wants, states, turns, i + 1, n, o);
    }
  }

  /** A vnet reconcile is a turn of its owner, whatever fails; it is a clean one if nothing does. */
  lemma VnetReconcileIsATurn(wants: Wants, c: Cluster, before: map<ObjectKey, Policy>, v: ObjectKey, f: Failures)
    requires OfVnet(v) in wants
    ensures Reconciles(wants, OfVnet(v), f == NO_FAILURES && forall k | k in wants[OfVnet(v)] :: !Terminating(c, k.ns),
                       before, PoliciesAfter(c, before, v, wants[OfVnet(v)], f))
  {
    if f.Attempted? {
      forall k
        ensures var desired, live, now :=
                  wants[OfVnet(v)], Lookup(before, k), Lookup(PoliciesAfter(c, before, v, wants[OfVnet(v)], f), k);
          if k in desired then now == if k !in f.applies && !Terminating(c, k.ns) then Some(desired[k]) else live
          else if live.Some? && Sweeps(OfVnet(v), k, live.value) then
            now.None? || (f != NO_FAILURES && now == live)
          else now == live
      {
        PolicyAfter(c, before, v, wants[OfVnet(v)], f, k);
        assert FailedNamespaces(wants[OfVnet(v)], {}) == {};
      }
    }
  }

  /** A policy of someone else, under a name that nobody here wants, comes through every interleaving unchanged. */
  lemma {:induction false} ForeignPoliciesStay(
    hash: HashFn, wants: Wants, states: seq<map<ObjectKey, Policy>>, turns: seq<Turn>, n: nat, k: ObjectKey, p: Policy)
    requires Interleaving(hash, wants, states, turns) && n <= |turns|
    requires Lookup(states[0], k) == Some(p) && Lookup(p.labels, ManagedBy) != Some("kube-vnet")
    requires forall o | o in wants :: k !in wants[o]
    ensures Lookup(states[n], k) == Some(p)
  {
    hide Sweeps, SweepsByKey;
    if n > 0 {
      ForeignPoliciesStay(hash, wants, states, turns, n - 1, k, p);
      var turn := turns[n - 1];
      assert Takes(hash, wants, turn, states[n - 1], states[n]);
      match turn
      case Serves(o, _) => ForeignIsNotSwept(hash, o, SVC, "", "", k, p);
      case Forgets(kind, ns, name, _) => ForeignIsNotSwept(hash, OfBaseline(ns), kind, ns, name, k, p);
    }
  }
}
