/**
 * The running system: a cluster that anyone may change, the work queues of the pod and the vnet controller, and the
 * events that fill them.
 */
module Protocol {
  import opened Prelude
  import opened Names
  import opened Cluster
  import opened Stamps
  import opened Members
  import opened Generator
  import opened VnetReconcile
  import opened Fanout

  datatype State = State(c: Cluster, podQ: set<ObjectKey>, vnetQ: set<ObjectKey>)

  /** One create, update or delete (None). */
  datatype Change =
    | SetClusterBaseline(clusterBaseline: Option<seq<Membership>>)
    | SetBaseline(ns: string, baseline: Option<seq<Membership>>)
    | SetBinding(key: ObjectKey, binding: Option<Binding>)
    | SetVnet(key: ObjectKey, vnet: Option<Vnet>)
    | SetNamespace(ns: string, namespace_: Option<Namespace>)
    | SetPod(key: ObjectKey, pod: Option<Pod>)
    | SetPolicy(key: ObjectKey, policy: Option<Policy>)

  function After(c: Cluster, e: Change): Cluster {
    match e
    case SetClusterBaseline(b) => c.(clusterBaseline := b)
    case SetBaseline(ns, b) => c.(nsBaselines := Put(c.nsBaselines, ns, b))
    case SetBinding(k, b) => c.(bindings := Put(c.bindings, k, b))
    case SetVnet(k, v) => c.(vnets := Put(c.vnets, k, v))
    case SetNamespace(ns, n) => c.(namespaces := Put(c.namespaces, ns, n))
    case SetPod(k, p) => c.(pods := Put(c.pods, k, p))
    case SetPolicy(k, p) => c.(policies := Put(c.policies, k, p))
  }

  ghost function Admitting(c: Cluster, home: string, vnet: Option<Vnet>): set<string> {
    match vnet
    case None => {}
    case Some(v) => AdmittedNamespaces(c, home, v.allowed)
  }

  /** The pods a change enqueues for resolution; on an update the maps see the old and the new object. */
  ghost function PodsWoken(c: Cluster, e: Change): set<ObjectKey> {
    var now := After(c, e);
    match e
    case SetClusterBaseline(_) => now.pods.Keys
    case SetBaseline(ns, _) => PodsOf(now, {ns})
    case SetBinding(k, _) => PodsOf(now, {k.ns})
    case SetVnet(k, v) =>
      if VnetTriggers(Lookup(c.vnets, k), v)
      then PodsOf(now, Admitting(now, k.ns, Lookup(c.vnets, k)) + Admitting(now, k.ns, v)) else {}
    case SetNamespace(ns, n) => if NamespaceTriggers(Lookup(c.namespaces, ns), n) then PodsOf(now, {ns}) else {}
    case SetPod(k, p) => if PodTriggers(Lookup(c.pods, k), p) then {k} else {}
    case SetPolicy(_, _) => {}
  }

  /** The vnets a policy event enqueues. */
  ghost function PolicyWakes(before: Option<Policy>, after: Option<Policy>): set<ObjectKey> {
    if PolicyTriggers(before, after) then PolicyTarget(before) + PolicyTarget(after) else {}
  }

  /** The vnets a change enqueues. */
  ghost function VnetsWoken(cfg: Config, c: Cluster, e: Change): set<ObjectKey> {
    match e
    case SetVnet(k, _) => {k}
    case SetNamespace(ns, _) => VnetsAdmitting(After(c, e), ns)
    case SetPod(k, p) =>
      if JoinLabelTriggers(Lookup(c.pods, k), p)
      then OptPodTargets(cfg, k.ns, Lookup(c.pods, k)) + OptPodTargets(cfg, k.ns, p) else {}
    case SetPolicy(k, p) => PolicyWakes(Lookup(c.policies, k), p)
    case _ => {}
  }

  ghost function Fire(cfg: Config, s: State, e: Change): State {
    State(After(s.c, e), s.podQ + PodsWoken(s.c, e), s.vnetQ + VnetsWoken(cfg, s.c, e))
  }

  // ---- what the API server admits ----

  predicate NamespaceName(ns: string) {
    DnsLabel(ns) && |ns| <= 63
  }

  // What a label key leaves for the vnet: 63 characters of name, of which `net.` takes four.
  const MAX_NET_KEY := 59

  predicate LabelsFit(labels: map<LabelKey, string>) {
    forall k | k in labels :: (k.Join? ==> |k.suffix| <= MAX_NET_KEY) && (k.Stamp? ==> |k.key| <= MAX_NET_KEY)
  }

  /**
   * The API's own rules: namespaced objects live in namespaces, names hold no dot, label keys are of bounded length,
   * `cluster` is a singleton.
   */
  ghost predicate WellFormed(cfg: Config, c: Cluster) {
    && NamespaceName(cfg.operatorNS)
    && (forall ns | ns in c.namespaces :: NamespaceName(ns))
    && (forall k | k in c.pods :: k.ns in c.namespaces && LabelsFit(c.pods[k].labels))
    && (forall v | v in c.vnets :: VnetName(v) && v.ns in c.namespaces && ClusterVnetIsSingleton(cfg, c, v))
  }

  predicate ClusterVnetIsSingleton(cfg: Config, c: Cluster, v: ObjectKey)
    requires v in c.vnets
  {
    v.name == CLUSTER ==>
      v.ns == cfg.operatorNS && c.vnets[v].allowed.Some? && c.vnets[v].allowed.value.all
  }

  /**
   * The changes users and other controllers make. A pod spec does not change without its generation, termination of
   * a namespace is final and empties it, nobody takes the managed-by label off a policy, and vnets have the keys of
   * namespaced objects.
   */
  ghost predicate Legal(cfg: Config, c: Cluster, e: Change) {
    && WellFormed(cfg, After(c, e))
    && (match e
        case SetPod(k, p) => PodTriggers(Lookup(c.pods, k), p) || c.pods[k].hostPorts == p.value.hostPorts
        case SetNamespace(ns, n) =>
          if n.None? then forall k | k in c.policies :: k.ns != ns
          else Terminating(c, ns) ==> n.value.terminating
        case SetPolicy(k, p) => KeepsManaged(Lookup(c.policies, k), p)
        case SetVnet(k, _) => Addressable(k)
        case _ => true)
  }

  predicate KeepsManaged(before: Option<Policy>, after: Option<Policy>) {
    before.Some? && after.Some? && OperatorManaged(before.value) ==> OperatorManaged(after.value)
  }

  // ---- steps ----

  datatype Step =
    | Environment(change: Change)
    | PodFails(pod: ObjectKey)
    | PodRuns(pod: ObjectKey)
    | VnetRuns(vnet: ObjectKey, ok: bool, failures: Failures, write: StatusWrite)

  ghost function PodAfter(cfg: Config, c: Cluster, k: ObjectKey): Option<Pod> {
    if k in c.pods then Some(ResolvedPod(cfg, c, k.ns, c.pods[k])) else None
  }

  /** The API server takes the resolved pod: a stamp of a vnet with too long a name fails the whole write. */
  ghost predicate Writable(cfg: Config, c: Cluster, k: ObjectKey) {
    k in c.pods ==> LabelsFit(ResolvedPod(cfg, c, k.ns, c.pods[k]).labels)
  }

  /** The resolution reconcile of a queued pod: the write, if there is one, is an event like any other. */
  ghost function RunPod(cfg: Config, s: State, k: ObjectKey): State {
    var dequeued := s.(podQ := s.podQ - {k});
    if PodAfter(cfg, s.c, k) == Lookup(s.c.pods, k) then dequeued
    else Fire(cfg, dequeued, SetPod(k, PodAfter(cfg, s.c, k)))
  }

  ghost function PoliciesWake(before: map<ObjectKey, Policy>, after: map<ObjectKey, Policy>): set<ObjectKey> {
    set k, v | k in before.Keys + after.Keys && Lookup(before, k) != Lookup(after, k) &&
               v in PolicyWakes(Lookup(before, k), Lookup(after, k)) :: v
  }

  ghost function AfterVnet(cfg: Config, c: Cluster, v: ObjectKey, f: Failures, write: StatusWrite): Cluster {
    var desired := DesiredPolicies(cfg, c, v);
    c.(policies := PoliciesAfter(c, c.policies, v, desired, f),
       vnets := if write.Written? && v in c.vnets && f.Attempted?
                then c.vnets[v := c.vnets[v].(status := StatusOf(cfg, c, v, f.applies, write.pods, write.errors))]
                else c.vnets)
  }

  /** The vnet reconcile of a queued vnet: its writes are events, and a reconcile with an error is retried. */
  ghost function RunVnet(cfg: Config, s: State, v: ObjectKey, ok: bool, f: Failures, write: StatusWrite): State {
    var c := AfterVnet(cfg, s.c, v, f, write);
    State(c, s.podQ,
          s.vnetQ - {v} + PoliciesWake(s.c.policies, c.policies) + (if c.vnets != s.c.vnets || !ok then {v} else {}))
  }

  ghost predicate Enabled(cfg: Config, s: State, step: Step) {
    match step
    case Environment(e) => Legal(cfg, s.c, e)
    case PodFails(k) => k in s.podQ
    case PodRuns(k) => k in s.podQ && Writable(cfg, s.c, k)
    case VnetRuns(v, ok, f, write) =>
      v in s.vnetQ && (ok ==> f == NO_FAILURES) && (write.Written? ==> ListOrder(s.c, write.pods))
  }

  ghost function Next(cfg: Config, s: State, step: Step): State {
    match step
    case Environment(e) => Fire(cfg, s, e)
    case PodFails(_) => s
    case PodRuns(k) => RunPod(cfg, s, k)
    case VnetRuns(v, ok, f, write) => RunVnet(cfg, s, v, ok, f, write)
  }

  /** A started operator lists everything it watches; vnets gone by then are known from their policies. */
  ghost predicate Init(cfg: Config, s: State) {
    && WellFormed(cfg, s.c)
    && s.podQ == s.c.pods.Keys
    && s.c.vnets.Keys <= s.vnetQ && (forall v | v in s.vnetQ :: Addressable(v))
    && forall k | k in s.c.policies :: PolicyWakes(None, Some(s.c.policies[k])) <= s.vnetQ
  }

  /** A finite run: every state follows from the one before it by an enabled step. */
  ghost predicate Run(cfg: Config, states: seq<State>, steps: seq<Step>) {
    && |states| == |steps| + 1 && Init(cfg, states[0])
    && forall i | 0 <= i < |steps| ::
         Enabled(cfg, states[i], steps[i]) && states[i + 1] == Next(cfg, states[i], steps[i])
  }
}
