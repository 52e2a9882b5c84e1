/**
 * The pod-side ports of the external-allow and apiserver-reachable policies, and the pod events that can change them
 * (external_allow_controller.go, apiserver_reachable_controller.go).
 */
module Ports {
  import opened Prelude
  import opened Sorting
  import opened Names
  import opened Cluster
  import opened Generator

  datatype TargetPort = Unset | Number(number: int) | Named(name: string)

  datatype ServicePort = ServicePort(port: int, protocol: string, target: TargetPort)

  datatype ServiceType = ClusterIP | NodePort | LoadBalancer | ExternalName

  datatype Service = Service(
    uid: string, kind: ServiceType, headless: bool, externalIPs: seq<string>, selector: map<LabelKey, string>,
    ports: seq<ServicePort>)

  /** What port resolution sees of a pod; the container ports of a pod never change. */
  datatype Backend = Backend(labels: map<LabelKey, string>, ports: seq<(string, int)>)

  /** Go's zero value: an absent label reads as the empty string. An empty selector matches nothing. */
  predicate LabelsMatchSelector(labels: map<LabelKey, string>, selector: map<LabelKey, string>) {
    |selector| != 0 && forall k | k in selector :: (if k in labels then labels[k] else "") == selector[k]
  }

  // ---- the ports, as a function of the set of backends ----

  ghost function NamedPorts(selector: map<LabelKey, string>, name: string, pods: set<Backend>): set<int> {
    set p, cp | p in pods && LabelsMatchSelector(p.labels, selector) && cp in p.ports && cp.0 == name :: cp.1
  }

  lemma IntLessIsStrictOrder()
    ensures StrictOrder(IntLess)
  {
  }

  ghost function SortedPorts(ports: set<int>): (r: seq<int>)
    ensures Increasing(IntLess, r) && Elements(r) == ports
  {
    IntLessIsStrictOrder();
    SortedOf(IntLess, ports)
  }

  /** Err while a named target port has no backing pod. */
  ghost function TargetPorts(sp: ServicePort, selector: map<LabelKey, string>, pods: set<Backend>): Result<seq<int>> {
    if sp.target.Number? && sp.target.number != 0 then Ok([sp.target.number])
    else if !sp.target.Named? || sp.target.name == "" then Ok([sp.port])
    else if NamedPorts(selector, sp.target.name, pods) == {} then Err
    else Ok(SortedPorts(NamedPorts(selector, sp.target.name, pods)))
  }

  function Protocol(sp: ServicePort): string {
    if sp.protocol == "" then "TCP" else sp.protocol
  }

  function AppendPolicyPort(ports: seq<PolicyPort>, protocol: string, port: int): seq<PolicyPort> {
    if PolicyPort(protocol, port) in ports then ports else ports + [PolicyPort(protocol, port)]
  }

  function AppendAll(ports: seq<PolicyPort>, protocol: string, targets: seq<int>): seq<PolicyPort> {
    if targets == [] then ports
    else AppendPolicyPort(AppendAll(ports, protocol, targets[..|targets| - 1]), protocol, targets[|targets| - 1])
  }

  /** The ports of all Service ports; one that cannot be resolved fails the whole Service. */
  ghost function PolicyPorts(ports: seq<ServicePort>, selector: map<LabelKey, string>, pods: set<Backend>)
    : Result<seq<PolicyPort>>
  {
    if ports == [] then Ok([]) else
      var sp := ports[|ports| - 1];
      match PolicyPorts(ports[..|ports| - 1], selector, pods)
      case Err => Err
      case Ok(before) =>
        match TargetPorts(sp, selector, pods)
        case Err => Err
        case Ok(targets) => Ok(AppendAll(before, Protocol(sp), targets))
  }

  predicate ExternallyExposed(svc: Service) {
    !svc.headless && (
      svc.kind.LoadBalancer? || svc.kind.NodePort? || (svc.kind.ClusterIP? && |svc.externalIPs| > 0))
  }

  const ANY_IPV4 := "0.0.0.0/0"

  const EXTERNAL_ALLOW := "external-allow"

  // The source kinds of the external-allow policies.
  const SVC := "svc"
  const APISERVER := "apiserver"
  const HOST := "host"

  function ExternalAllowPolicy(sourceKind: string, source: string, selector: map<LabelKey, string>, cidr: string,
                               ports: seq<PolicyPort>): Policy
  {
    Policy(
      map[ManagedBy := MANAGED_BY_VALUE, K8sManagedBy := MANAGED_BY_VALUE, Role := EXTERNAL_ALLOW,
          SourceKind := sourceKind, Source := source],
      [], Selector(selector, []), [IngressRule([IPBlock(cidr)], ports)])
  }

  /** The Service-source policy: Err while a named port waits, None when the Service gets none. */
  ghost function ExternalAllow(svc: Service, source: string, pods: set<Backend>): Result<Option<Policy>> {
    if !ExternallyExposed(svc) || |svc.selector| == 0 then Ok(None) else
      match PolicyPorts(svc.ports, svc.selector, pods)
      case Err => Err
      case Ok(ports) => Ok(Some(ExternalAllowPolicy(SVC, source, svc.selector, ANY_IPV4, ports)))
  }

  function FindServicePort(ports: seq<ServicePort>, port: int): Option<ServicePort> {
    if ports == [] then None
    else if ports[0].port == port then Some(ports[0])
    else FindServicePort(ports[1..], port)
  }

  /** A port the Service does not declare is emitted as it is. */
  ghost function DialedPorts(svc: Service, port: int, pods: set<Backend>): Result<seq<int>> {
    match FindServicePort(svc.ports, port)
    case None => Ok([port])
    case Some(sp) => TargetPorts(sp, svc.selector, pods)
  }

  ghost function ApiserverPorts(svc: Service, ports: seq<int>, pods: set<Backend>): Result<seq<PolicyPort>> {
    if ports == [] then Ok([]) else
      match ApiserverPorts(svc, ports[..|ports| - 1], pods)
      case Err => Err
      case Ok(before) =>
        match DialedPorts(svc, ports[|ports| - 1], pods)
        case Err => Err
        case Ok(targets) => Ok(AppendAll(before, "TCP", targets))
  }

  /** The apiserver-reachable policy of a Service referenced on `ports`. */
  ghost function ApiserverReachable(svc: Service, source: string, ports: seq<int>, cidr: string, pods: set<Backend>)
    : Result<Policy>
  {
    match ApiserverPorts(svc, ports, pods)
    case Err => Err
    case Ok(out) =>
      Ok(ExternalAllowPolicy(APISERVER, source, svc.selector, if cidr == "" then ANY_IPV4 else cidr, out))
  }

  // ---- the algorithms ----

  lemma MorePods(selector: map<LabelKey, string>, name: string, pods: seq<Backend>, i: nat)
    requires i < |pods|
    ensures NamedPorts(selector, name, Elements(pods[..i + 1])) ==
            NamedPorts(selector, name, Elements(pods[..i])) + NamedPorts(selector, name, {pods[i]})
  {
  }

  /** The numbers one matching pod declares under a name. */
  method DeclaredPorts(p: Backend, selector: map<LabelKey, string>, name: string) returns (out: seq<int>)
    requires LabelsMatchSelector(p.labels, selector)
    ensures Elements(out) == NamedPorts(selector, name, {p})
  {
    out := [];
    for i := 0 to |p.ports|
      invariant Elements(out) == set cp | cp in p.ports[..i] && cp.0 == name :: cp.1
    {
      assert p.ports[..i + 1] == p.ports[..i] + [p.ports[i]];
      if p.ports[i].0 == name {
        assert Elements(out + [p.ports[i].1]) == Elements(out) + {p.ports[i].1};
        out := out + [p.ports[i].1];
      }
    }
    assert p.ports[..|p.ports|] == p.ports;
  }

  /** Collects, sorts and compacts; the order in which the API lists the pods does not show. */
  method ResolveTargetPorts(sp: ServicePort, selector: map<LabelKey, string>, pods: seq<Backend>)
    returns (r: Result<seq<int>>)
    ensures r == TargetPorts(sp, selector, Elements(pods))
  {
    if sp.target.Number? && sp.target.number != 0 { return Ok([sp.target.number]); }
    if !sp.target.Named? || sp.target.name == "" { return Ok([sp.port]); }
    var out: seq<int> := [];
    for i := 0 to |pods|
      invariant Elements(out) == NamedPorts(selector, sp.target.name, Elements(pods[..i]))
    {
      MorePods(selector, sp.target.name, pods, i);
      if LabelsMatchSelector(pods[i].labels, selector) {
        var declared := DeclaredPorts(pods[i], selector, sp.target.name);
        assert Elements(out + declared) == Elements(out) + Elements(declared);
        out := out + declared;
      }
    }
    assert pods[..|pods|] == pods;
    if out == [] { return Err; }
    assert out[0] in Elements(out);
    IntLessIsStrictOrder();
    var sorted := SortCompact(IntLess, out);
    IncreasingUnique(IntLess, sorted, SortedPorts(Elements(out)));
    r := Ok(sorted);
  }

  method AppendPolicyPorts(ports: seq<PolicyPort>, protocol: string, targets: seq<int>) returns (out: seq<PolicyPort>)
    ensures out == AppendAll(ports, protocol, targets)
  {
    out := ports;
    for i := 0 to |targets|
      invariant out == AppendAll(ports, protocol, targets[..i])
    {
      assert targets[..i + 1][..i] == targets[..i];
      if PolicyPort(protocol, targets[i]) !in out {
        out := out + [PolicyPort(protocol, targets[i])];
      }
    }
    assert targets[..|targets|] == targets;
  }

  lemma {:induction false} FailedPrefixFails(ports: seq<ServicePort>, i: nat, selector: map<LabelKey, string>,
                                             pods: set<Backend>)
    requires i <= |ports| && PolicyPorts(ports[..i], selector, pods).Err?
    ensures PolicyPorts(ports, selector, pods).Err?
  {
    if i < |ports| {
      assert ports[..|ports| - 1][..i] == ports[..i];
      FailedPrefixFails(ports[..|ports| - 1], i, selector, pods);
    } else {
      assert ports[..i] == ports;
    }
  }

  method BuildExternalAllowPolicy(svc: Service, source: string, podsInNS: seq<Backend>)
    returns (r: Result<Option<Policy>>)
    ensures r == ExternalAllow(svc, source, Elements(podsInNS))
  {
    if !ExternallyExposed(svc) || |svc.selector| == 0 { return Ok(None); }
    var ports: seq<PolicyPort> := [];
    for i := 0 to |svc.ports|
      invariant PolicyPorts(svc.ports[..i], svc.selector, Elements(podsInNS)) == Ok(ports)
    {
      var sp := svc.ports[i];
      assert svc.ports[..i + 1][..i] == svc.ports[..i];
      var targets := ResolveTargetPorts(sp, svc.selector, podsInNS);
      if targets.Err? {
        FailedPrefixFails(svc.ports, i + 1, svc.selector, Elements(podsInNS));
        return Err;
      }
      ports := AppendPolicyPorts(ports, Protocol(sp), targets.value);
    }
    assert svc.ports[..|svc.ports|] == svc.ports;
    r := Ok(Some(ExternalAllowPolicy(SVC, source, svc.selector, ANY_IPV4, ports)));
  }

  lemma {:induction false} FailedDialFails(svc: Service, ports: seq<int>, i: nat, pods: set<Backend>)
    requires i <= |ports| && ApiserverPorts(svc, ports[..i], pods).Err?
    ensures ApiserverPorts(svc, ports, pods).Err?
  {
    if i < |ports| {
      assert ports[..|ports| - 1][..i] == ports[..i];
      FailedDialFails(svc, ports[..|ports| - 1], i, pods);
    } else {
      assert ports[..i] == ports;
    }
  }

  method BuildApiserverReachablePolicy(svc: Service, source: string, podsInNS: seq<Backend>, ports: seq<int>,
                                       sourceCIDR: string) returns (r: Result<Policy>)
    ensures r == ApiserverReachable(svc, source, ports, sourceCIDR, Elements(podsInNS))
  {
    var cidr := if sourceCIDR == "" then ANY_IPV4 else sourceCIDR;
    var policyPorts: seq<PolicyPort> := [];
    for i := 0 to |ports|
      invariant ApiserverPorts(svc, ports[..i], Elements(podsInNS)) == Ok(policyPorts)
    {
      assert ports[..i + 1][..i] == ports[..i];
      var targets := [ports[i]];
      var sp := FindServicePort(svc.ports, ports[i]);
      if sp.Some? {
        var resolved := ResolveTargetPorts(sp.value, svc.selector, podsInNS);
        if resolved.Err? {
          FailedDialFails(svc, ports, i + 1, Elements(podsInNS));
          return Err;
        }
        targets := resolved.value;
      }
      policyPorts := AppendPolicyPorts(policyPorts, "TCP", targets);
    }
    assert ports[..|ports|] == ports;
    r := Ok(ExternalAllowPolicy(APISERVER, source, svc.selector, cidr, policyPorts));
  }

  // ---- what the ports mean ----

  lemma {:induction false} AppendAllExact(ports: seq<PolicyPort>, protocol: string, targets: seq<int>)
    requires forall i, j | 0 <= i < j < |ports| :: ports[i] != ports[j]
    ensures var out := AppendAll(ports, protocol, targets);
      && (forall i, j | 0 <= i < j < |out| :: out[i] != out[j])
      && (forall p :: p in out <==> p in ports || (p.protocol == protocol && p.port in targets))
  {
    if targets != [] {
      AppendAllExact(ports, protocol, targets[..|targets| - 1]);
      assert targets == targets[..|targets| - 1] + [targets[|targets| - 1]];
    }
  }

  /** Some Service port sends this protocol to this pod-side port. */
  ghost predicate Reaches(ports: seq<ServicePort>, selector: map<LabelKey, string>, pods: set<Backend>, p: PolicyPort) {
    exists sp | sp in ports :: Protocol(sp) == p.protocol &&
      TargetPorts(sp, selector, pods).Ok? && p.port in TargetPorts(sp, selector, pods).value
  }

  /** A policy opens exactly the pod-side ports the Service's traffic arrives at, each once. */
  lemma {:induction false} PolicyPortsExact(ports: seq<ServicePort>, selector: map<LabelKey, string>,
                                            pods: set<Backend>)
    ensures PolicyPorts(ports, selector, pods).Err? <==> exists sp | sp in ports :: TargetPorts(sp, selector, pods).Err?
    ensures PolicyPorts(ports, selector, pods).Ok? ==>
              var out := PolicyPorts(ports, selector, pods).value;
              && (forall i, j | 0 <= i < j < |out| :: out[i] != out[j])
              && (forall p :: p in out <==> Reaches(ports, selector, pods, p))
  {
    if ports != [] {
      var rest, sp := ports[..|ports| - 1], ports[|ports| - 1];
      assert ports == rest + [sp];
      PolicyPortsExact(rest, selector, pods);
      var before, targets := PolicyPorts(rest, selector, pods), TargetPorts(sp, selector, pods);
      if before.Ok? && targets.Ok? { AppendAllExact(before.value, Protocol(sp), targets.value); }
    }
  }

  /** The apiserver, dialing one of these Service ports, arrives at this pod-side port. */
  ghost predicate Dials(svc: Service, ports: seq<int>, pods: set<Backend>, p: PolicyPort) {
    p.protocol == "TCP" && exists port | port in ports ::
      DialedPorts(svc, port, pods).Ok? && p.port in DialedPorts(svc, port, pods).value
  }

  /** And the apiserver-reachable policy opens exactly those, each once, or fails with any of them. */
  lemma {:induction false} ApiserverPortsExact(svc: Service, ports: seq<int>, pods: set<Backend>)
    ensures ApiserverPorts(svc, ports, pods).Err? <==> exists port | port in ports :: DialedPorts(svc, port, pods).Err?
    ensures ApiserverPorts(svc, ports, pods).Ok? ==>
              var out := ApiserverPorts(svc, ports, pods).value;
              && (forall i, j | 0 <= i < j < |out| :: out[i] != out[j])
              && (forall p :: p in out <==> Dials(svc, ports, pods, p))
  {
    hide DialedPorts;
    if ports != [] {
      var rest, port := ports[..|ports| - 1], ports[|ports| - 1];
      assert ports == rest + [port];
      ApiserverPortsExact(svc, rest, pods);
      var before, targets := ApiserverPorts(svc, rest, pods), DialedPorts(svc, port, pods);
      if before.Ok? && targets.Ok? { AppendAllExact(before.value, "TCP", targets.value); }
    }
  }

  /** A dialed port is the first port the Service declares under that number, or itself where it declares none. */
  lemma {:induction false} FirstDeclared(ports: seq<ServicePort>, port: int)
    ensures match FindServicePort(ports, port)
            case None => forall sp | sp in ports :: sp.port != port
            case Some(sp) => sp.port == port && exists i | 0 <= i < |ports| ::
                               ports[i] == sp && forall j | 0 <= j < i :: ports[j].port != port
  {
    if ports != [] && ports[0].port != port {
      FirstDeclared(ports[1..], port);
      var found := FindServicePort(ports[1..], port);
      if found.Some? {
        var i :| 0 <= i < |ports| - 1 && ports[1..][i] == found.value &&
                 forall j | 0 <= j < i :: ports[1..][j].port != port;
        assert ports[i + 1] == found.value;
        assert forall j | 1 <= j < i + 1 :: ports[j] == ports[1..][j - 1];
      }
    }
  }

  // ---- the policies, on the fields of the Service ----

  /** Traffic that some port of the Service forwards arrives at this pod-side port. */
  ghost predicate ArrivesAt(sp: ServicePort, selector: map<LabelKey, string>, pods: set<Backend>, p: PolicyPort) {
    p.protocol == (if sp.protocol == "" then "TCP" else sp.protocol) && TargetIs(sp, selector, pods, p.port)
  }

  /** A number is a pod-side port as it stands, a name is any port a backend declares by it; neither is the port. */
  ghost predicate TargetIs(sp: ServicePort, selector: map<LabelKey, string>, pods: set<Backend>, port: int) {
    match sp.target
    case Unset => port == sp.port
    case Number(n) => port == if n == 0 then sp.port else n
    case Named(name) =>
      if name == "" then port == sp.port
      else exists p | p in pods :: LabelsMatchSelector(p.labels, selector) && (name, port) in p.ports
  }

  lemma TargetsExact(sp: ServicePort, selector: map<LabelKey, string>, pods: set<Backend>, port: int)
    ensures TargetIs(sp, selector, pods, port) <==>
            TargetPorts(sp, selector, pods).Ok? && port in TargetPorts(sp, selector, pods).value
    ensures TargetPorts(sp, selector, pods).Err? ==> sp.target.Named? && sp.target.name != ""
  {
    hide LabelsMatchSelector;
    if sp.target.Named? && sp.target.name != "" {
      var named := NamedPorts(selector, sp.target.name, pods);
      assert forall q :: q in SortedPorts(named) <==> q in Elements(SortedPorts(named));
      forall p | p in pods && LabelsMatchSelector(p.labels, selector) && (sp.target.name, port) in p.ports
        ensures port in named
      {
        assert (sp.target.name, port).0 == sp.target.name;
      }
    }
  }

  lemma NamedTargetWaits(sp: ServicePort, selector: map<LabelKey, string>, pods: set<Backend>)
    ensures TargetPorts(sp, selector, pods).Err? <==> forall port :: !TargetIs(sp, selector, pods, port)
  {
    hide TargetIs;
    forall port ensures TargetIs(sp, selector, pods, port) <==>
                        TargetPorts(sp, selector, pods).Ok? && port in TargetPorts(sp, selector, pods).value
    {
      TargetsExact(sp, selector, pods, port);
    }
    if TargetPorts(sp, selector, pods).Ok? {
      var some := TargetPorts(sp, selector, pods).value;
      assert some != [] by { TargetsNonEmpty(sp, selector, pods); }
      assert some[0] in some;
      assert TargetIs(sp, selector, pods, some[0]);
    }
  }

  lemma TargetsNonEmpty(sp: ServicePort, selector: map<LabelKey, string>, pods: set<Backend>)
    requires TargetPorts(sp, selector, pods).Ok?
    ensures TargetPorts(sp, selector, pods).value != []
  {
    if sp.target.Named? && sp.target.name != "" {
      var named := NamedPorts(selector, sp.target.name, pods);
      assert Elements(SortedPorts(named)) == named;
    }
  }

  /**
   * The external-allow policy, from the Service and its backends alone: there is none iff the Service selects no pods
   * or does not face outside the cluster, and it waits while one of the ports arrives nowhere. It selects the pods with
   * the labels the Service selects by, and lets in every IPv4 address, at exactly the ports where traffic arrives.
   */
  lemma ExternalAllowMeans(svc: Service, source: string, pods: set<Backend>)
    ensures var r := ExternalAllow(svc, source, pods);
      var inward := svc.headless || svc.kind.ExternalName? || (svc.kind.ClusterIP? && svc.externalIPs == []);
      && (r == Ok(None) <==> svc.selector == map[] || inward)
      && (r.Err? <==> svc.selector != map[] && !inward &&
                      exists sp | sp in svc.ports :: forall port :: !TargetIs(sp, svc.selector, pods, port))
      && (r.Ok? && r.value.Some? ==>
            AdmitsFrom(r.value.value, "0.0.0.0/0", svc.selector) &&
            var ports := r.value.value.ingress[0].ports;
            (forall i, j | 0 <= i < j < |ports| :: ports[i] != ports[j]) &&
            forall p :: p in ports <==> exists sp | sp in svc.ports :: ArrivesAt(sp, svc.selector, pods, p))
  {
    hide TargetIs, TargetPorts, LabelsMatchSelector;
    PolicyPortsExact(svc.ports, svc.selector, pods);
    forall sp | sp in svc.ports
      ensures TargetPorts(sp, svc.selector, pods).Err? <==> forall port :: !TargetIs(sp, svc.selector, pods, port)
    {
      NamedTargetWaits(sp, svc.selector, pods);
    }
    forall p ensures Reaches(svc.ports, svc.selector, pods, p) <==>
                     exists sp | sp in svc.ports :: ArrivesAt(sp, svc.selector, pods, p)
    {
      forall sp { TargetsExact(sp, svc.selector, pods, p.port); }
    }
    assert svc.selector == map[] <==> |svc.selector| == 0;
  }

  /** One rule for one address range, on the pods that carry these labels. */
  ghost predicate AdmitsFrom(p: Policy, cidr: string, selector: map<LabelKey, string>) {
    && |p.ingress| == 1 && p.ingress[0].from == [IPBlock(cidr)]
    && forall labels ::
         Selects(p.podSelector, labels) <==> forall k | k in selector :: Lookup(labels, k) == Some(selector[k])
  }

  /** And the apiserver-reachable policy: from the address range that is configured, or from everywhere. */
  lemma ApiserverReachableMeans(svc: Service, source: string, ports: seq<int>, cidr: string, pods: set<Backend>)
    ensures var r := ApiserverReachable(svc, source, ports, cidr, pods);
      && (r.Err? <==> exists port | port in ports :: DialedPorts(svc, port, pods).Err?)
      && (r.Ok? ==> AdmitsFrom(r.value, if cidr == "" then "0.0.0.0/0" else cidr, svc.selector) &&
                    forall p :: p in r.value.ingress[0].ports <==> Dials(svc, ports, pods, p))
  {
    hide DialedPorts, Dials;
    ApiserverPortsExact(svc, ports, pods);
  }

  /**
   * The two readings of a selector: port resolution takes an absent label for an empty one, and policies do not. The
   * backends are the pods the policy selects, and those it would select with their absent labels set to nothing.
   */
  lemma BackendsAreSelected(labels: map<LabelKey, string>, selector: map<LabelKey, string>)
    ensures LabelsMatchSelector(labels, selector) <==>
      selector != map[] &&
      Selects(Selector(selector, []), (map k | k in selector && k !in labels :: "") + labels)
  {
    var padded := (map k | k in selector && k !in labels :: "") + labels;
    assert forall k | k in selector :: k in padded && padded[k] == if k in labels then labels[k] else "";
    assert Selector(selector, []).exprs == [];
    assert selector == map[] <==> |selector| == 0;
  }

  // ---- the pod events that matter ----

  predicate HasNamedTargetPort(svc: Service) {
    exists sp | sp in svc.ports :: sp.target.Named? && sp.target.name != ""
  }

  /** podToSelectingServices: a pod event enqueues a Service with a named target port whose selector it flips. */
  predicate Enqueues(svc: Service, before: Option<Backend>, after: Option<Backend>) {
    HasNamedTargetPort(svc) && (
      var matched := before.Some? && LabelsMatchSelector(before.value.labels, svc.selector);
      var matches := after.Some? && LabelsMatchSelector(after.value.labels, svc.selector);
      if before.None? then matches
      else if after.None? then matched
      else before.value.labels != after.value.labels && matched != matches)
  }

  /** A pod event of one namespace: container ports never change. */
  predicate PodEvent(before: Option<Backend>, after: Option<Backend>) {
    before.Some? && after.Some? ==> before.value.ports == after.value.ports
  }

  lemma UnflippedSamePorts(pods: map<string, Backend>, pod: string, after: Option<Backend>, svc: Service, name: string)
    requires PodEvent(Lookup(pods, pod), after) && HasNamedTargetPort(svc) && !Enqueues(svc, Lookup(pods, pod), after)
    ensures NamedPorts(svc.selector, name, pods.Values) == NamedPorts(svc.selector, name, Put(pods, pod, after).Values)
  {
    var now := Put(pods, pod, after);
    forall p, cp | p in pods.Values && LabelsMatchSelector(p.labels, svc.selector) && cp in p.ports && cp.0 == name
      ensures cp.1 in NamedPorts(svc.selector, name, now.Values)
    {
      var n :| n in pods && pods[n] == p;
      if n != pod { assert n in now && now[n] == p; } else { assert now[n] in now.Values; }
    }
    forall p, cp | p in now.Values && LabelsMatchSelector(p.labels, svc.selector) && cp in p.ports && cp.0 == name
      ensures cp.1 in NamedPorts(svc.selector, name, pods.Values)
    {
      var n :| n in now && now[n] == p;
      if n != pod { assert n in pods && pods[n] == p; } else { assert pods[n] in pods.Values; }
    }
  }

  lemma UnenqueuedSameTargets(pods: map<string, Backend>, pod: string, after: Option<Backend>, svc: Service,
                              sp: ServicePort)
    requires PodEvent(Lookup(pods, pod), after) && !Enqueues(svc, Lookup(pods, pod), after) && sp in svc.ports
    ensures TargetPorts(sp, svc.selector, pods.Values) == TargetPorts(sp, svc.selector, Put(pods, pod, after).Values)
  {
    if sp.target.Named? && sp.target.name != "" {
      UnflippedSamePorts(pods, pod, after, svc, sp.target.name);
    }
  }

  lemma {:induction false} SameTargetsSamePorts(ports: seq<ServicePort>, selector: map<LabelKey, string>,
                                                a: set<Backend>, b: set<Backend>)
    requires forall sp | sp in ports :: TargetPorts(sp, selector, a) == TargetPorts(sp, selector, b)
    ensures PolicyPorts(ports, selector, a) == PolicyPorts(ports, selector, b)
  {
    if ports != [] { SameTargetsSamePorts(ports[..|ports| - 1], selector, a, b); }
  }

  lemma {:induction false} FoundIsDeclared(ports: seq<ServicePort>, port: int)
    ensures FindServicePort(ports, port).Some? ==> FindServicePort(ports, port).value in ports
  {
    if ports != [] { FoundIsDeclared(ports[1..], port); }
  }

  lemma {:induction false} SameTargetsSameDials(svc: Service, ports: seq<int>, a: set<Backend>, b: set<Backend>)
    requires forall sp | sp in svc.ports :: TargetPorts(sp, svc.selector, a) == TargetPorts(sp, svc.selector, b)
    ensures ApiserverPorts(svc, ports, a) == ApiserverPorts(svc, ports, b)
  {
    if ports != [] {
      SameTargetsSameDials(svc, ports[..|ports| - 1], a, b);
      FoundIsDeclared(svc.ports, ports[|ports| - 1]);
    }
  }

  /**
   * The incremental triggers are complete: a pod create, delete or relabel that does not enqueue a Service leaves both
   * policies built for it exactly as they were.
   */
  lemma UnenqueuedSamePolicies(pods: map<string, Backend>, pod: string, after: Option<Backend>, svc: Service,
                               source: string, ports: seq<int>, cidr: string)
    requires PodEvent(Lookup(pods, pod), after) && !Enqueues(svc, Lookup(pods, pod), after)
    ensures var now := Put(pods, pod, after);
      && ExternalAllow(svc, source, pods.Values) == ExternalAllow(svc, source, now.Values)
      && ApiserverReachable(svc, source, ports, cidr, pods.Values) ==
           ApiserverReachable(svc, source, ports, cidr, now.Values)
  {
    var now := Put(pods, pod, after);
    forall sp | sp in svc.ports
      ensures TargetPorts(sp, svc.selector, pods.Values) == TargetPorts(sp, svc.selector, now.Values)
    {
      UnenqueuedSameTargets(pods, pod, after, svc, sp);
    }
    SameTargetsSamePorts(svc.ports, svc.selector, pods.Values, now.Values);
    SameTargetsSameDials(svc, ports, pods.Values, now.Values);
  }
}
