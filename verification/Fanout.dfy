/** The watches of the two controllers: which pods and vnets an object change enqueues. */
module Fanout {
  import opened Prelude
  import opened Sorting
  import opened Names
  import opened Cluster
  import opened Generator

  // ---- predicates ----

  /** For pods, resolution watches labels, annotations and the generation; status updates do not count. */
  predicate PodTriggers(before: Option<Pod>, after: Option<Pod>) {
    before.None? || after.None? ||
    before.value.labels != after.value.labels || before.value.annotations != after.value.annotations ||
    before.value.generation != after.value.generation
  }

  predicate NamespaceTriggers(before: Option<Namespace>, after: Option<Namespace>) {
    before.None? || after.None? ||
    before.value.labels != after.value.labels || before.value.disabled != after.value.disabled
  }

  /** The spec of a vnet is its allowedNamespaces; only a spec change moves the generation. */
  predicate VnetTriggers(before: Option<Vnet>, after: Option<Vnet>) {
    before.None? || after.None? || before.value.allowed != after.value.allowed
  }

  predicate IsJoinLabel(k: LabelKey) {
    k.Join? || k.Stamp?
  }

  function JoinLabelSet(pod: Option<Pod>): map<LabelKey, string> {
    match pod
    case None => map[]
    case Some(p) => map k | k in p.labels && IsJoinLabel(k) :: p.labels[k]
  }

  function ResolvedGenerationOf(pod: Option<Pod>): string {
    match pod
    case None => ""
    case Some(p) => if ResolvedGeneration in p.annotations then p.annotations[ResolvedGeneration] else ""
  }

  /** JoinLabelChangedPredicate. */
  predicate JoinLabelTriggers(before: Option<Pod>, after: Option<Pod>) {
    if before.None? then JoinLabelSet(after) != map[]
    else if after.None? then JoinLabelSet(before) != map[]
    else JoinLabelSet(before) != JoinLabelSet(after) || ResolvedGenerationOf(before) != ResolvedGenerationOf(after)
  }

  predicate OperatorManaged(p: Policy) {
    Lookup(p.labels, ManagedBy) == Some(MANAGED_BY_VALUE)
  }

  /** A policy event counts when the object it carries is managed: on an update, the new one. */
  predicate PolicyTriggers(before: Option<Policy>, after: Option<Policy>) {
    if after.Some? then OperatorManaged(after.value) else before.Some? && OperatorManaged(before.value)
  }

  // ---- maps ----

  ghost function PodsOf(c: Cluster, namespaces: set<string>): set<ObjectKey> {
    set k | k in c.pods && k.ns in namespaces
  }

  /** The vnets the labels of a pod name, by join label or stamp. */
  ghost function PodTargets(cfg: Config, ns: string, labels: map<LabelKey, string>): set<ObjectKey> {
    set k | k in labels && IsJoinLabel(k) :: LabelTarget(SuffixOf(k), ns, cfg.operatorNS)
  }

  function SuffixOf(k: LabelKey): string {
    match k
    case Join(s) => s
    case Stamp(s) => s
    case HostPort(s) => s
    case Other(s) => s
  }

  ghost function OptPodTargets(cfg: Config, ns: string, pod: Option<Pod>): set<ObjectKey> {
    match pod
    case None => {}
    case Some(p) => PodTargets(cfg, ns, p.labels)
  }

  /** The vnets that admit a namespace, as it is now. */
  ghost function VnetsAdmitting(c: Cluster, ns: string): set<ObjectKey> {
    set v | v in c.vnets && Admits(c, v.ns, c.vnets[v].allowed, ns)
  }

  ghost function PolicyTarget(p: Option<Policy>): set<ObjectKey> {
    if p.Some? && Network in p.value.labels && NetworkIdTarget(p.value.labels[Network]).Some?
    then {NetworkIdTarget(p.value.labels[Network]).value} else {}
  }

  // ---- the maps as the watches compute them ----

  /** What the lists of these namespaces hold; the empty name lists cluster-wide. */
  ghost function PodsListed(c: Cluster, namespaces: set<string>): set<ObjectKey> {
    if "" in namespaces then c.pods.Keys else PodsOf(c, namespaces)
  }

  method PodsIn(rd: Reader, namespaces: seq<string>) returns (out: seq<ObjectKey>)
    requires !rd.failed
    modifies rd
    ensures Elements(out) <= PodsListed(rd.c, Elements(namespaces))
    ensures !rd.failed ==> Elements(out) == PodsListed(rd.c, Elements(namespaces))
    ensures forall i, j | 0 <= i < j < |out| :: out[i] != out[j]
  {
    out := [];
    var seen: set<ObjectKey> := {};
    for i := 0 to |namespaces|
      invariant Elements(out) == seen
      invariant seen <= PodsListed(rd.c, Elements(namespaces[..i]))
      invariant !rd.failed ==> seen == PodsListed(rd.c, Elements(namespaces[..i]))
      invariant forall i, j | 0 <= i < j < |out| :: out[i] != out[j]
    {
      var ns := namespaces[i];
      assert namespaces[..i + 1] == namespaces[..i] + [ns];
      assert Elements(namespaces[..i + 1]) == Elements(namespaces[..i]) + {ns};
      var list := rd.Read(set k | k in rd.c.pods && (ns == "" || k.ns == ns));
      // A namespace whose list fails is passed over.
      if list.Ok? {
        var found;
        found, seen := AppendUnseen(out, seen, list.value);
        out := found;
      }
    }
    assert namespaces[..|namespaces|] == namespaces;
  }

  method AppendUnseen(out: seq<ObjectKey>, seen: set<ObjectKey>, keys: set<ObjectKey>)
    returns (more: seq<ObjectKey>, now: set<ObjectKey>)
    requires Elements(out) == seen
    requires forall i, j | 0 <= i < j < |out| :: out[i] != out[j]
    ensures Elements(more) == now == seen + keys
    ensures forall i, j | 0 <= i < j < |more| :: more[i] != more[j]
  {
    more, now := out, seen;
    var todo := keys;
    while todo != {}
      invariant todo <= keys && now == seen + (keys - todo) && Elements(more) == now
      invariant forall i, j | 0 <= i < j < |more| :: more[i] != more[j]
    {
      var k :| k in todo;
      if k !in now {
        assert forall i | 0 <= i < |more| :: more[i] in Elements(more);
        assert Elements(more + [k]) == Elements(more) + {k};
        more, now := more + [k], now + {k};
      }
      todo := todo - {k};
    }
  }

  /** An event on the cluster baseline concerns every pod there is. */
  method ClusterBaselineToPods(rd: Reader) returns (out: seq<ObjectKey>)
    requires !rd.failed
    modifies rd
    ensures !rd.failed ==> Elements(out) == rd.c.pods.Keys
  {
    assert [""][0] in Elements([""]);
    out := PodsIn(rd, [""]);
  }

  /** No namespace is called by the empty name. */
  method VnetToAffectedPods(rd: Reader, home: string, allowed: Option<AllowedNamespaces>)
    returns (out: seq<ObjectKey>)
    requires !rd.failed
    modifies rd
    ensures !rd.failed ==> Elements(out) == PodsListed(rd.c, AdmittedNamespaces(rd.c, home, allowed))
    ensures !rd.failed && "" !in AdmittedNamespaces(rd.c, home, allowed) ==>
              Elements(out) == PodsOf(rd.c, AdmittedNamespaces(rd.c, home, allowed))
  {
    var admitted := NamespacesAdmittedBy(rd, home, allowed);
    if admitted.Err? { return []; }
    var list := Listing(admitted.value);
    out := PodsIn(rd, list);
  }

  method Listing(names: set<string>) returns (s: seq<string>)
    ensures Elements(s) == names
  {
    s := [];
    var todo := names;
    while todo != {}
      invariant todo <= names && Elements(s) == names - todo
    {
      var n :| n in todo;
      assert Elements(s + [n]) == Elements(s) + {n};
      s, todo := s + [n], todo - {n};
    }
  }

  /** nsToVnets: permission is evaluated on the namespace as it is now. */
  method NsToVnets(rd: Reader, ns: string) returns (out: set<ObjectKey>)
    requires !rd.failed
    modifies rd
    ensures out <= VnetsAdmitting(rd.c, ns)
    ensures !rd.failed ==> out == VnetsAdmitting(rd.c, ns)
  {
    out := {};
    var list := rd.Read(rd.c.vnets.Keys);
    if list.Err? { return; }
    var todo := list.value;
    while todo != {}
      invariant todo <= rd.c.vnets.Keys
      invariant out <= VnetsAdmitting(rd.c, ns)
      invariant !rd.failed ==> out == VnetsAdmitting(rd.c, ns) - todo
    {
      var v :| v in todo;
      var ok := PermitsForVnet(rd, v.ns, rd.c.vnets[v].allowed, ns);
      if ok.Ok? && ok.value { out := out + {v}; }
      todo := todo - {v};
    }
  }

  method PodToVnets(cfg: Config, ns: string, labels: map<LabelKey, string>) returns (out: set<ObjectKey>)
    ensures out == PodTargets(cfg, ns, labels)
  {
    out := {};
    var todo := labels.Keys;
    while todo != {}
      invariant todo <= labels.Keys
      invariant out == set k | k in labels && k !in todo && IsJoinLabel(k) ::
                         LabelTarget(SuffixOf(k), ns, cfg.operatorNS)
    {
      var k :| k in todo;
      if IsJoinLabel(k) { out := out + {LabelTarget(SuffixOf(k), ns, cfg.operatorNS)}; }
      todo := todo - {k};
    }
  }
}
