/** Who is a member of a vnet right now: discoverMembers, and the tests it shares with the binding reconciler. */
module Members {
  import opened Prelude
  import opened Sorting
  import opened Names
  import opened Directions
  import opened Cluster
  import opened Stamps

  /** The direction a pod's stamp claims for v; policy selectors see nothing else. */
  function StampedDirection(labels: map<LabelKey, string>, v: ObjectKey): Option<Base> {
    if Stamp(CanonicalKey(v)) in labels then ParseBareDirection(labels[Stamp(CanonicalKey(v))]) else None
  }

  /** Whether the labels alone make the pod a member: the marker is there, and so is a stamp that grants something. */
  predicate IsStampedMember(pod: Pod, v: ObjectKey) {
    Resolved(pod) && StampedDirection(pod.labels, v).Some? && StampedDirection(pod.labels, v).value != NoDir
  }

  /** Pods in ns can be members of v: the namespace is managed, and admitted, now. */
  predicate Eligible(cfg: Config, c: Cluster, v: ObjectKey, ns: string) {
    v in c.vnets && Managed(cfg, c, ns) && Admits(c, v.ns, c.vnets[v].allowed, ns)
  }

  lemma EligibleIff(cfg: Config, c: Cluster, v: ObjectKey, ns: string)
    requires v in c.vnets
    ensures Eligible(cfg, c, v, ns) <==>
            ns in c.namespaces && ns !in cfg.excluded && !c.namespaces[ns].disabled &&
            Admits(c, v.ns, c.vnets[v].allowed, ns)
  {
  }

  /** The direction in which pod k is a member of v, if it is one. */
  function MemberDirection(cfg: Config, c: Cluster, v: ObjectKey, k: ObjectKey): Option<Base> {
    if k in c.pods && IsStampedMember(c.pods[k], v) && Eligible(cfg, c, v, k.ns)
    then StampedDirection(c.pods[k].labels, v)
    else None
  }

  // ---- diagnostics ----

  /** The values of the join labels with which a pod names v. */
  function UserValues(c: Cluster, v: ObjectKey, k: ObjectKey): seq<string>
    requires k in c.pods
  {
    ValuesIn(c.pods[k].labels, k.ns, v)
  }

  function ValuesIn(labels: map<LabelKey, string>, ns: string, v: ObjectKey): seq<string> {
    (if Join(v.name) in labels && (ns == v.ns || v.name == CLUSTER) then [labels[Join(v.name)]] else []) +
    (if Join(NetworkId(v)) in labels && v.name != CLUSTER then [labels[Join(NetworkId(v))]] else [])
  }

  /** A pod that names v from an admitted namespace, but with a bad direction or from an unmanaged namespace. */
  function InvalidReason(cfg: Config, c: Cluster, v: ObjectKey, k: ObjectKey): Option<JoinerReason>
    requires v in c.vnets
  {
    if k !in c.pods || UserValues(c, v, k) == [] || !Admits(c, v.ns, c.vnets[v].allowed, k.ns) then None
    else if exists value | value in UserValues(c, v, k) :: ParseBareDirection(value).None? then Some(InvalidDirection)
    else if !Managed(cfg, c, k.ns) then Some(NamespaceExcluded)
    else None
  }

  /** A pod in ns names v with this label: the label wakes v, and is not the `<X>.cluster` that never counts. */
  predicate NamedBy(cfg: Config, ns: string, k: LabelKey, v: ObjectKey) {
    k.Join? && !IsPrefixedClusterSuffix(k.suffix) && LabelTarget(k.suffix, ns, cfg.operatorNS) == v
  }

  lemma NamingLabels(cfg: Config, ns: string, k: LabelKey, v: ObjectKey)
    requires VnetName(v) && (v.name == CLUSTER ==> v.ns == cfg.operatorNS)
    ensures NamedBy(cfg, ns, k, v) <==> Spelt(ns, k, v)
  {
    hide IsPrefixedClusterSuffix;
    if k.Join? {
      CutParts(k.suffix);
      if v.name == CLUSTER { ClusterNaming(ns, k.suffix, v); } else { NamingPathsAgree(v, ns, cfg.operatorNS); }
    }
  }

  lemma ClusterNaming(ns: string, suffix: string, v: ObjectKey)
    requires VnetName(v) && v.name == CLUSTER
    ensures LabelTarget(suffix, ns, v.ns) == v && !IsPrefixedClusterSuffix(suffix) <==> suffix == CLUSTER
  {
    CutParts(suffix);
    ClusterNamingAgrees(ns, v.ns);
    PrefixedClusterShape(CLUSTER);
  }

  lemma ValuesOfNaming(cfg: Config, c: Cluster, v: ObjectKey, k: ObjectKey)
    requires k in c.pods && VnetName(v) && (v.name == CLUSTER ==> v.ns == cfg.operatorNS)
    ensures var values, naming := UserValues(c, v, k), set l | l in c.pods[k].labels && NamedBy(cfg, k.ns, l, v);
      && (values == [] <==> naming == {})
      && (forall l | l in naming :: c.pods[k].labels[l] in values)
      && (forall value | value in values :: exists l | l in naming :: c.pods[k].labels[l] == value)
  {
    hide NamedBy, NetworkId, ValuesIn, VnetName;
    var labels := c.pods[k].labels;
    var naming := set l | l in labels && NamedBy(cfg, k.ns, l, v);
    forall l ensures l in naming <==> l in labels && Spelt(k.ns, l, v) {
      NamingLabels(cfg, k.ns, l, v);
    }
    ValuesOfSpelt(labels, k.ns, v);
    assert forall l | l in labels && Spelt(k.ns, l, v) :: l in naming;
  }

  /** The two ways to spell a join label for v. */
  predicate Spelt(ns: string, l: LabelKey, v: ObjectKey) {
    (l == Join(v.name) && (ns == v.ns || v.name == CLUSTER)) || (l == Join(NetworkId(v)) && v.name != CLUSTER)
  }

  lemma ValuesOfSpelt(labels: map<LabelKey, string>, ns: string, v: ObjectKey)
    ensures ValuesIn(labels, ns, v) == [] <==> forall l | l in labels :: !Spelt(ns, l, v)
    ensures forall l | l in labels && Spelt(ns, l, v) :: labels[l] in ValuesIn(labels, ns, v)
    ensures forall value | value in ValuesIn(labels, ns, v) ::
              exists l | l in labels :: Spelt(ns, l, v) && labels[l] == value
  {
    hide NetworkId;
    assert Spelt(ns, Join(v.name), v) <==> ns == v.ns || v.name == CLUSTER || Join(v.name) == Join(NetworkId(v));
    assert Spelt(ns, Join(NetworkId(v)), v) <==> v.name != CLUSTER || NetworkId(v) == v.name;
  }

  /**
   * The diagnostics go by the labels that wake the vnet: a pod of an admitted namespace is an invalid joiner if some
   * label of it that names the vnet has no bare direction, or if it has such a label at all and its namespace is gone,
   * excluded or disabled.
   */
  lemma InvalidJoinerIff(cfg: Config, c: Cluster, v: ObjectKey, k: ObjectKey)
    requires v in c.vnets && VnetName(v) && (v.name == CLUSTER ==> v.ns == cfg.operatorNS)
    ensures var naming := if k in c.pods then set l | l in c.pods[k].labels && NamedBy(cfg, k.ns, l, v) else {};
      InvalidReason(cfg, c, v, k) ==
      if naming == {} || !Admits(c, v.ns, c.vnets[v].allowed, k.ns) then None
      else if exists l | l in naming :: c.pods[k].labels[l] !in {"both", "ingress", "egress", "none"} then
        Some(InvalidDirection)
      else if k.ns !in c.namespaces || k.ns in cfg.excluded || c.namespaces[k.ns].disabled then Some(NamespaceExcluded)
      else None
  {
    hide Admits, NamedBy, UserValues, ParseBareDirection;
    if k in c.pods { ValuesOfNaming(cfg, c, v, k); }
    forall value ensures ParseBareDirection(value).None? <==> value !in {"both", "ingress", "egress", "none"} {
      BareValues(value);
    }
  }

  lemma BareValues(value: string)
    ensures ParseBareDirection(value).None? <==> value !in {"both", "ingress", "egress", "none"}
  {
  }

  /** An order in which the API may list the pods: each once, and nothing is said about which comes first. */
  ghost predicate ListOrder(c: Cluster, pods: seq<ObjectKey>) {
    Distinct(pods) && Elements(pods) == c.pods.Keys
  }

  predicate Distinct(pods: seq<ObjectKey>) {
    forall i, j | 0 <= i < j < |pods| :: pods[i] != pods[j]
  }

  /** The invalid joiners, in list order. */
  function InvalidIn(cfg: Config, c: Cluster, v: ObjectKey, pods: seq<ObjectKey>): seq<(ObjectKey, JoinerReason)>
    requires v in c.vnets
  {
    if pods == [] then [] else InvalidAt(cfg, c, v, pods[0]) + InvalidIn(cfg, c, v, pods[1..])
  }

  function InvalidAt(cfg: Config, c: Cluster, v: ObjectKey, k: ObjectKey): seq<(ObjectKey, JoinerReason)>
    requires v in c.vnets
  {
    match InvalidReason(cfg, c, v, k)
    case Some(reason) => [(k, reason)]
    case None => []
  }

  lemma {:induction false} InvalidAppends(cfg: Config, c: Cluster, v: ObjectKey, pods: seq<ObjectKey>, k: ObjectKey)
    requires v in c.vnets
    ensures InvalidIn(cfg, c, v, pods + [k]) == InvalidIn(cfg, c, v, pods) + InvalidAt(cfg, c, v, k)
  {
    hide InvalidAt;
    if pods == [] {
      assert [k][1..] == [];
    } else {
      InvalidAppends(cfg, c, v, pods[1..], k);
      assert (pods + [k])[1..] == pods[1..] + [k];
    }
  }

  // ---- the algorithm ----

  /** Members of a vnet: namespace, then direction, then pod names. */
  type MembersByNS = map<string, map<Base, seq<string>>>

  predicate Listed(m: MembersByNS, ns: string, b: Base, name: string) {
    ns in m && b in m[ns] && name in m[ns][b]
  }

  predicate HasMember(byDir: map<Base, seq<string>>) {
    exists b | b in byDir :: byDir[b] != []
  }

  /** No namespace is listed without a member. */
  predicate NoEmptyNamespace(m: MembersByNS) {
    forall ns | ns in m :: HasMember(m[ns])
  }

  function AddMember(m: MembersByNS, ns: string, b: Base, name: string): MembersByNS {
    var byDir := if ns in m then m[ns] else map[];
    m[ns := byDir[b := (if b in byDir then byDir[b] else []) + [name]]]
  }

  lemma AddMemberLists(m: MembersByNS, ns: string, b: Base, name: string)
    ensures forall n, d, p :: Listed(AddMember(m, ns, b, name), n, d, p) <==>
              Listed(m, n, d, p) || (n == ns && d == b && p == name)
  {
  }

  lemma AddMemberFillsNamespace(m: MembersByNS, ns: string, b: Base, name: string)
    requires NoEmptyNamespace(m)
    ensures NoEmptyNamespace(AddMember(m, ns, b, name))
  {
    var more := AddMember(m, ns, b, name);
    assert b in more[ns] && more[ns][b] != [];
  }

  /** The listing is right for the pods visited so far. */
  ghost predicate ListsMembers(cfg: Config, c: Cluster, v: ObjectKey, m: MembersByNS, todo: set<ObjectKey>) {
    forall ns, b, name :: Listed(m, ns, b, name) <==>
      ObjectKey(ns, name) !in todo && MemberDirection(cfg, c, v, ObjectKey(ns, name)) == Some(b)
  }

  /**
   * Membership on the fields of the pod, its namespace and the vnet: the pod is marked as resolved and its stamp says
   * b, its namespace exists and is neither excluded nor disabled, and the vnet admits it.
   */
  ghost predicate MemberNow(cfg: Config, c: Cluster, v: ObjectKey, k: ObjectKey, b: Base) {
    && k in c.pods && b != NoDir
    && Lookup(c.pods[k].labels, Stamp(CanonicalKey(v))) == Some(BaseName(b))
    && Lookup(c.pods[k].annotations, ResolvedGeneration) !in {None, Some("")}
    && k.ns in c.namespaces && k.ns !in cfg.excluded && !c.namespaces[k.ns].disabled
    && v in c.vnets && Admits(c, v.ns, c.vnets[v].allowed, k.ns)
  }

  lemma StampSays(labels: map<LabelKey, string>, v: ObjectKey, b: Base)
    ensures StampedDirection(labels, v) == Some(b) <==> Lookup(labels, Stamp(CanonicalKey(v))) == Some(BaseName(b))
  {
    hide CanonicalKey, ParseBareDirection, BaseName;
    if Stamp(CanonicalKey(v)) in labels {
      ParseInvertsRender(Direction(b, false), labels[Stamp(CanonicalKey(v))]);
    }
  }

  lemma MemberIff(cfg: Config, c: Cluster, v: ObjectKey, k: ObjectKey, b: Base)
    ensures MemberDirection(cfg, c, v, k) == Some(b) <==> MemberNow(cfg, c, v, k, b)
  {
    hide Admits, CanonicalKey, BaseName, StampedDirection;
    if k in c.pods { StampSays(c.pods[k].labels, v, b); }
  }

  lemma ListsOnFields(cfg: Config, c: Cluster, v: ObjectKey, m: MembersByNS)
    requires ListsMembers(cfg, c, v, m, {})
    ensures forall ns, b, name :: Listed(m, ns, b, name) <==> MemberNow(cfg, c, v, ObjectKey(ns, name), b)
  {
    hide Listed, MemberDirection, MemberNow;
    forall ns, b, name
      ensures Listed(m, ns, b, name) <==> MemberNow(cfg, c, v, ObjectKey(ns, name), b)
    {
      MemberIff(cfg, c, v, ObjectKey(ns, name), b);
    }
  }

  lemma ListMember(cfg: Config, c: Cluster, v: ObjectKey, m: MembersByNS, todo: set<ObjectKey>, k: ObjectKey)
    requires ListsMembers(cfg, c, v, m, todo) && k in todo
    ensures var dir := MemberDirection(cfg, c, v, k);
      ListsMembers(cfg, c, v, if dir.Some? then AddMember(m, k.ns, dir.value, k.name) else m, todo - {k})
  {
    var dir := MemberDirection(cfg, c, v, k);
    if dir.Some? { AddMemberLists(m, k.ns, dir.value, k.name); }
  }

  lemma ScanStarts(cfg: Config, c: Cluster, v: ObjectKey)
    ensures ListsMembers(cfg, c, v, map[], c.pods.Keys) && NoEmptyNamespace(map[])
    ensures Distinct([]) && Elements<ObjectKey>([]) == {}
  {
  }

  lemma DistinctAppends(pods: seq<ObjectKey>, k: ObjectKey)
    requires Distinct(pods) && k !in Elements(pods)
    ensures Distinct(pods + [k]) && Elements(pods + [k]) == Elements(pods) + {k}
  {
    assert forall i | 0 <= i < |pods| :: pods[i] in Elements(pods);
  }

  lemma {:induction false} OrderOf(pods: set<ObjectKey>) returns (order: seq<ObjectKey>)
    ensures Distinct(order) && Elements(order) == pods
    decreases |pods|
  {
    order := [];
    if k :| k in pods {
      order := OrderOf(pods - {k});
      DistinctAppends(order, k);
      order := order + [k];
    }
  }

  lemma SomeOrder(c: Cluster) returns (pods: seq<ObjectKey>)
    ensures ListOrder(c, pods)
  {
    pods := OrderOf(c.pods.Keys);
  }

  /** One scan over the pods, with the namespace answers memoised. */
  class Scan {
    const cfg: Config
    const rd: Reader
    const v: ObjectKey
    var nsAdmitted: map<string, bool>
    var nsEligible: map<string, bool>

    ghost predicate Valid()
      reads this, rd
    {
      && v in rd.c.vnets
      && (!rd.failed ==>
            (forall ns | ns in nsAdmitted :: nsAdmitted[ns] == Admits(rd.c, v.ns, rd.c.vnets[v].allowed, ns)) &&
            (forall ns | ns in nsEligible :: nsEligible[ns] == Eligible(cfg, rd.c, v, ns)))
    }

    constructor (cfg: Config, rd: Reader, v: ObjectKey)
      requires v in rd.c.vnets
      ensures Valid() && this.cfg == cfg && this.rd == rd && this.v == v
    {
      this.cfg, this.rd, this.v := cfg, rd, v;
      nsAdmitted, nsEligible := map[], map[];
    }

    method AdmitsNamespace(ns: string) returns (r: Result<bool>)
      requires Valid() && !rd.failed
      modifies this, rd
      ensures Valid() && Exact(r, Admits(rd.c, v.ns, rd.c.vnets[v].allowed, ns), rd.failed, false)
    {
      if ns in nsAdmitted { return Ok(nsAdmitted[ns]); }
      r := PermitsForVnet(rd, v.ns, rd.c.vnets[v].allowed, ns);
      nsAdmitted := nsAdmitted[ns := r.Ok? && r.value];
    }

    method IsEligible(ns: string) returns (r: Result<bool>)
      requires Valid() && !rd.failed
      modifies this, rd
      ensures Valid() && Exact(r, Eligible(cfg, rd.c, v, ns), rd.failed, false)
      ensures r.Ok? ==> (r.value <==>
                ns in rd.c.namespaces && ns !in cfg.excluded && !rd.c.namespaces[ns].disabled &&
                Admits(rd.c, v.ns, rd.c.vnets[v].allowed, ns))
    {
      hide Admits, Managed;
      EligibleIff(cfg, rd.c, v, ns);
      if ns in nsEligible { return Ok(nsEligible[ns]); }
      r := IsManaged(cfg, rd, ns);
      if r.Err? { return; }
      if r.value {
        r := AdmitsNamespace(ns);
        if r.Err? { return; }
      }
      nsEligible := nsEligible[ns := r.value];
    }

    /** The advisory scan of one pod's join labels. */
    method Diagnose(k: ObjectKey) returns (r: Result<Option<JoinerReason>>)
      requires Valid() && !rd.failed && k in rd.c.pods
      modifies this, rd
      ensures Valid() && Exact(r, InvalidReason(cfg, rd.c, v, k), rd.failed, false)
      ensures UserValues(rd.c, v, k) == [] ==> r == Ok(None)
    {
      var values := UserValues(rd.c, v, k);
      if values == [] { return Ok(None); }
      var admitted := AdmitsNamespace(k.ns);
      if admitted.Err? { return Err; }
      if !admitted.value { return Ok(None); }
      var bad := false;
      for i := 0 to |values|
        invariant bad <==> exists j | 0 <= j < i :: ParseBareDirection(values[j]).None?
      {
        if ParseBareDirection(values[i]).None? { bad := true; }
      }
      if bad { return Ok(Some(InvalidDirection)); }
      var eligible := IsEligible(k.ns);
      if eligible.Err? { return Err; }
      r := Ok(if eligible.value then None else Some(NamespaceExcluded));
    }

    /** The membership of one pod; the namespace is read only for pods that carry the stamp. */
    method Member(k: ObjectKey) returns (r: Result<Option<Base>>)
      requires Valid() && !rd.failed && k in rd.c.pods
      modifies this, rd
      ensures Valid() && Exact(r, MemberDirection(cfg, rd.c, v, k), rd.failed, false)
      ensures !IsStampedMember(rd.c.pods[k], v) ==> r == Ok(None)
    {
      var pod := rd.c.pods[k];
      if !IsStampedMember(pod, v) { return Ok(None); }
      var ok := IsEligible(k.ns);
      if ok.Err? { return Err; }
      r := Ok(if ok.value then StampedDirection(pod.labels, v) else None);
    }

    /** Adds one pod to the listing. */
    method List(k: ObjectKey, members: MembersByNS, ghost todo: set<ObjectKey>) returns (r: Result<MembersByNS>)
      requires Valid() && !rd.failed && k in rd.c.pods && k in todo
      requires ListsMembers(cfg, rd.c, v, members, todo) && NoEmptyNamespace(members)
      modifies this, rd
      ensures Valid() && (r.Err? <==> rd.failed)
      ensures r.Ok? ==> ListsMembers(cfg, rd.c, v, r.value, todo - {k}) && NoEmptyNamespace(r.value)
    {
      var dir := Member(k);
      if dir.Err? { return Err; }
      ListMember(cfg, rd.c, v, members, todo, k);
      if dir.value.None? { return Ok(members); }
      AddMemberFillsNamespace(members, k.ns, dir.value.value, k.name);
      r := Ok(AddMember(members, k.ns, dir.value.value, k.name));
    }
  }

  /**
   * Lists the members of v. A pod is listed iff resolution has stamped it with a direction other than none and its
   * namespace is managed and admitted now, so a stale stamp never reaches a policy; the join labels of a pod play no
   * part. Any failed read fails the whole listing. The invalid joiners come in the order of the pod list.
   */
  method DiscoverMembers(cfg: Config, rd: Reader, v: ObjectKey)
    returns (r: Result<MembersByNS>, invalid: seq<(ObjectKey, JoinerReason)>, ghost pods: seq<ObjectKey>)
    requires v in rd.c.vnets && !rd.failed
    modifies rd
    ensures r.Err? <==> rd.failed
    ensures r.Ok? ==> ListsMembers(cfg, rd.c, v, r.value, {}) && NoEmptyNamespace(r.value)
    ensures r.Ok? ==> forall ns, b, name ::
              Listed(r.value, ns, b, name) <==> MemberNow(cfg, rd.c, v, ObjectKey(ns, name), b)
    ensures r.Ok? ==> ListOrder(rd.c, pods) && invalid == InvalidIn(cfg, rd.c, v, pods)
  {
    hide InvalidReason, ListsMembers, NoEmptyNamespace, Distinct, Elements, MemberNow, Listed, MemberDirection;
    invalid, pods := [], [];
    var list := rd.Read(rd.c.pods.Keys);
    if list.Err? { return Err, invalid, pods; }
    var scan := new Scan(cfg, rd, v);
    ScanStarts(cfg, rd.c, v);
    var members: MembersByNS := map[];
    var todo := list.value;
    while todo != {}
      invariant scan.Valid() && fresh(scan) && scan.rd == rd && scan.v == v && scan.cfg == cfg && !rd.failed
      invariant ListsMembers(cfg, rd.c, v, members, todo) && NoEmptyNamespace(members)
      invariant Elements(pods) + todo == rd.c.pods.Keys && Elements(pods) !! todo && Distinct(pods)
      invariant invalid == InvalidIn(cfg, rd.c, v, pods)
    {
      var k :| k in todo;
      InvalidAppends(cfg, rd.c, v, pods, k);
      DistinctAppends(pods, k);
      var bad := scan.Diagnose(k);
      if bad.Err? { return Err, invalid, pods; }
      if bad.value.Some? { invalid := invalid + [(k, bad.value.value)]; }
      var listed := scan.List(k, members, todo);
      if listed.Err? { return Err, invalid, pods; }
      members := listed.value;
      todo, pods := todo - {k}, pods + [k];
    }
    ListsOnFields(cfg, rd.c, v, members);
    r := Ok(members);
  }
}
