/**
 * The operator's own writes do not feed it for ever: with the environment silent and no call failing, reconciles come
 * to an end exactly when every pod, resolved again and again on its own, comes to rest.
 */
module Termination {
  import opened Prelude
  import opened Names
  import opened Cluster
  import opened Stamps
  import opened Resolver
  import opened Members
  import opened Generator
  import opened VnetReconcile
  import opened Fanout
  import opened Protocol
  import opened PodFreshness
  import opened VnetFreshness
  import opened Invariant
  import opened Settling
  import opened Drain

  // ---- the measure: writes left on pods, then vnets to converge, then queue length ----

  /** The writes left, over all pods. */
  ghost function Total(bounds: map<ObjectKey, nat>): nat {
    if bounds == map[] then 0 else
      var k :| k in bounds;
      bounds[k] + Total(bounds - {k})
  }

  lemma {:induction false} TotalSplits(bounds: map<ObjectKey, nat>, k: ObjectKey)
    requires k in bounds
    ensures Total(bounds) == bounds[k] + Total(bounds - {k})
    decreases |bounds|
  {
    var j :| j in bounds && Total(bounds) == bounds[j] + Total(bounds - {j});
    if j != k {
      TotalSplits(bounds - {j}, k);
      TotalSplits(bounds - {k}, j);
      assert bounds - {j} - {k} == bounds - {k} - {j};
    }
  }

  lemma TotalDrops(bounds: map<ObjectKey, nat>, k: ObjectKey)
    requires k in bounds && bounds[k] > 0
    ensures Total(bounds[k := bounds[k] - 1]) < Total(bounds)
  {
    TotalSplits(bounds, k);
    TotalSplits(bounds[k := bounds[k] - 1], k);
    assert bounds[k := bounds[k] - 1] - {k} == bounds - {k};
  }

  /** The vnets that have an object or a policy. */
  ghost function Known(c: Cluster): set<ObjectKey> {
    c.vnets.Keys + set k, v | k in c.policies && v in PolicyTarget(Some(c.policies[k])) :: v
  }

  ghost function Unconverged(cfg: Config, c: Cluster): set<ObjectKey> {
    set v | v in Known(c) && Addressable(v) && !Converged(cfg, c, v)
  }

  lemma UnconvergedIsKnown(cfg: Config, c: Cluster, v: ObjectKey)
    requires Addressable(v)
    ensures v in Unconverged(cfg, c) <==> !Converged(cfg, c, v)
  {
    if v !in Known(c) {
      forall k ensures FreshAt(c, v, Lookup(DesiredPolicies(cfg, c, v), k), k) {
        if k in c.policies && OwnedBy(c.policies[k], v) { NetworkTarget(v, c.policies[k]); }
      }
      var pods := SomeOrder(c);
      GoneHasNoStatus(cfg, c, v, pods);
    }
  }

  lemma Smaller<T>(part: set<T>, whole: set<T>)
    requires part <= whole
    ensures |part| <= |whole| && (part != whole ==> |part| < |whole|)
  {
    assert whole == part + (whole - part);
  }

  /** Every pod comes to rest within its bound. */
  ghost predicate PodsWithin(cfg: Config, c: Cluster, bounds: map<ObjectKey, nat>) {
    forall k | k in c.pods :: k in bounds && SettlesWithin(cfg, c, k.ns, c.pods[k], bounds[k])
  }

  ghost predicate Drainable(cfg: Config, s: State, bounds: map<ObjectKey, nat>) {
    WellFormed(cfg, s.c) && PodsWithin(cfg, s.c, bounds) && QueueAddressable(s)
  }

  ghost predicate Less(cfg: Config, t: State, fewer: map<ObjectKey, nat>, s: State, bounds: map<ObjectKey, nat>) {
    var vnets, vnetsAfter := |Unconverged(cfg, s.c)|, |Unconverged(cfg, t.c)|;
    Total(fewer) < Total(bounds) || (fewer == bounds && (
      vnetsAfter < vnets || (vnetsAfter == vnets && |t.podQ| + |t.vnetQ| < |s.podQ| + |s.vnetQ|)))
  }

  // ---- a resolution ----

  /** Two clusters resolve the pods of ns alike. */
  ghost predicate SameResolutions(cfg: Config, c: Cluster, d: Cluster, ns: string) {
    forall p :: ResolvedPod(cfg, c, ns, p) == ResolvedPod(cfg, d, ns, p)
  }

  lemma SameInputsSameResolutions(cfg: Config, c: Cluster, d: Cluster, ns: string)
    requires SameInputs(c, d, ns)
    ensures SameResolutions(cfg, c, d, ns)
  {
    SameInputsSameView(cfg, c, d, ns);
    forall p ensures ResolvedPod(cfg, c, ns, p) == ResolvedPod(cfg, d, ns, p) { SameResolution(cfg, c, d, ns, p); }
  }

  lemma SameSettlingStep(cfg: Config, c: Cluster, d: Cluster, ns: string, pod: Pod, n: nat)
    requires ResolvedPod(cfg, c, ns, pod) == ResolvedPod(cfg, d, ns, pod)
    requires n > 0 ==> (SettlesWithin(cfg, c, ns, ResolvedPod(cfg, c, ns, pod), n - 1) <==>
                        SettlesWithin(cfg, d, ns, ResolvedPod(cfg, c, ns, pod), n - 1))
    ensures SettlesWithin(cfg, c, ns, pod, n) <==> SettlesWithin(cfg, d, ns, pod, n)
  {
  }

  lemma {:induction false} SameSettling(cfg: Config, c: Cluster, d: Cluster, ns: string, pod: Pod, n: nat)
    requires SameResolutions(cfg, c, d, ns)
    ensures SettlesWithin(cfg, c, ns, pod, n) <==> SettlesWithin(cfg, d, ns, pod, n)
    decreases n
  {
    if n > 0 { SameSettling(cfg, c, d, ns, ResolvedPod(cfg, c, ns, pod), n - 1); }
    SameSettlingStep(cfg, c, d, ns, pod, n);
  }

  lemma PodsDoNotMatter(cfg: Config, c: Cluster, d: Cluster, ns: string)
    requires d == c.(pods := d.pods) && ns in c.namespaces
    ensures SameResolutions(cfg, c, d, ns)
  {
    assert SameInputs(c, d, ns);
    SameInputsSameResolutions(cfg, c, d, ns);
  }

  lemma WithinStep(cfg: Config, c: Cluster, ns: string, pod: Pod, n: nat)
    requires SettlesWithin(cfg, c, ns, pod, n) && ResolvedPod(cfg, c, ns, pod) != pod
    ensures n > 0 && LabelsFit(ResolvedPod(cfg, c, ns, pod).labels)
    ensures SettlesWithin(cfg, c, ns, ResolvedPod(cfg, c, ns, pod), n - 1)
  {
  }

  lemma OtherPodWithin(cfg: Config, c: Cluster, d: Cluster, k: ObjectKey, n: nat)
    requires d == c.(pods := d.pods) && k in c.pods && k.ns in c.namespaces && Lookup(d.pods, k) == Some(c.pods[k])
    requires SettlesWithin(cfg, c, k.ns, c.pods[k], n)
    ensures SettlesWithin(cfg, d, k.ns, d.pods[k], n)
  {
    PodsDoNotMatter(cfg, c, d, k.ns);
    SameSettling(cfg, c, d, k.ns, c.pods[k], n);
  }

  lemma WrittenPodWithin(cfg: Config, c: Cluster, d: Cluster, k: ObjectKey, n: nat)
    requires d == c.(pods := d.pods) && k in c.pods && k.ns in c.namespaces
    requires Lookup(d.pods, k) == Some(ResolvedPod(cfg, c, k.ns, c.pods[k])) && !PodSynced(cfg, c, k)
    requires SettlesWithin(cfg, c, k.ns, c.pods[k], n)
    ensures n > 0 && SettlesWithin(cfg, d, k.ns, d.pods[k], n - 1)
  {
    WithinStep(cfg, c, k.ns, c.pods[k], n);
    PodsDoNotMatter(cfg, c, d, k.ns);
    SameSettling(cfg, c, d, k.ns, d.pods[k], n - 1);
  }

  lemma WithinAt(cfg: Config, c: Cluster, bounds: map<ObjectKey, nat>)
    ensures PodsWithin(cfg, c, bounds) <==>
            forall k | k in c.pods :: k in bounds && SettlesWithin(cfg, c, k.ns, c.pods[k], bounds[k])
  {
    hide SettlesWithin;
  }

  /** One write brings the written pod one step nearer to rest, and the others no further from it. */
  lemma ResolutionNearsRest(cfg: Config, c: Cluster, d: Cluster, k: ObjectKey, bounds: map<ObjectKey, nat>)
    requires (forall j | j in c.pods :: j.ns in c.namespaces) && PodsWithin(cfg, c, bounds)
    requires k in c.pods && !PodSynced(cfg, c, k)
    requires d == c.(pods := c.pods[k := ResolvedPod(cfg, c, k.ns, c.pods[k])])
    ensures bounds[k] > 0 && PodsWithin(cfg, d, bounds[k := bounds[k] - 1])
  {
    hide SettlesWithin, ResolvedPod, PodSynced, Writable, PodsWithin;
    WithinAt(cfg, c, bounds);
    WithinAt(cfg, d, bounds[k := if k in bounds && bounds[k] > 0 then bounds[k] - 1 else 0]);
    WrittenPodWithin(cfg, c, d, k, bounds[k]);
    forall j | j in d.pods && j != k ensures j in bounds && SettlesWithin(cfg, d, j.ns, d.pods[j], bounds[j]) {
      OtherPodWithin(cfg, c, d, j, bounds[j]);
    }
  }

  lemma DrainableIsWritable(cfg: Config, s: State, bounds: map<ObjectKey, nat>, k: ObjectKey)
    requires Drainable(cfg, s, bounds)
    ensures Writable(cfg, s.c, k)
  {
    if k in s.c.pods && !PodSynced(cfg, s.c, k) { WithinStep(cfg, s.c, k.ns, s.c.pods[k], bounds[k]); }
  }

  lemma RunPodWrites(cfg: Config, s: State, k: ObjectKey)
    requires WellFormed(cfg, s.c) && k in s.podQ && Writable(cfg, s.c, k) && k in s.c.pods && !PodSynced(cfg, s.c, k)
    ensures RunPod(cfg, s, k).c == s.c.(pods := s.c.pods[k := ResolvedPod(cfg, s.c, k.ns, s.c.pods[k])])
    ensures forall v | v in RunPod(cfg, s, k).vnetQ ::
              || v in s.vnetQ || v in OptPodTargets(cfg, k.ns, Some(s.c.pods[k]))
              || v in OptPodTargets(cfg, k.ns, Some(ResolvedPod(cfg, s.c, k.ns, s.c.pods[k])))
  {
    hide WellFormed, Legal, PodSynced, ResolvedPod, Writable, OptPodTargets, JoinLabelTriggers;
    RunPodIsChange(cfg, s, k);
  }

  lemma RunPodDrains(cfg: Config, s: State, k: ObjectKey, bounds: map<ObjectKey, nat>)
    returns (fewer: map<ObjectKey, nat>)
    requires Drainable(cfg, s, bounds) && k in s.podQ
    ensures Drainable(cfg, RunPod(cfg, s, k), fewer) && Less(cfg, RunPod(cfg, s, k), fewer, s, bounds)
  {
    hide PodSynced, ResolvedPod, Writable, Unconverged, QueueAddressable, SettlesWithin;
    fewer := bounds;
    DrainableIsWritable(cfg, s, bounds, k);
    RunPodKeepsAddressable(cfg, s, k);
    RunPodIsChange(cfg, s, k);
    if k in s.c.pods && !PodSynced(cfg, s.c, k) {
      RunPodWrites(cfg, s, k);
      ResolutionNearsRest(cfg, s.c, RunPod(cfg, s, k).c, k, bounds);
      TotalDrops(bounds, k);
      fewer := bounds[k := bounds[k] - 1];
    }
  }

  // ---- a vnet reconcile ----

  lemma VnetRunSameResolutions(cfg: Config, c: Cluster, d: Cluster, ns: string)
    requires d == c.(policies := d.policies, vnets := d.vnets) && d.vnets.Keys == c.vnets.Keys && ns in c.namespaces
    requires forall w | w in c.vnets :: d.vnets[w] == c.vnets[w].(status := d.vnets[w].status)
    ensures SameResolutions(cfg, c, d, ns)
  {
    hide SameInputs, SameResolutions;
    VnetRunSameInputs(c, d, ns);
    SameInputsSameResolutions(cfg, c, d, ns);
  }

  lemma VnetRunKeepsWithin(cfg: Config, c: Cluster, v: ObjectKey, write: StatusWrite, bounds: map<ObjectKey, nat>)
    requires WellFormed(cfg, c) && PodsWithin(cfg, c, bounds)
    ensures PodsWithin(cfg, AfterVnet(cfg, c, v, NO_FAILURES, write), bounds)
  {
    hide AfterVnet, SettlesWithin, SameResolutions, LabelsFit, VnetName, NamespaceName;
    var d := AfterVnet(cfg, c, v, NO_FAILURES, write);
    OnlyPoliciesAndStatus(cfg, c, v, NO_FAILURES, write);
    forall k | k in d.pods ensures k in bounds && SettlesWithin(cfg, d, k.ns, d.pods[k], bounds[k]) {
      VnetRunSameResolutions(cfg, c, d, k.ns);
      SameSettling(cfg, c, d, k.ns, c.pods[k], bounds[k]);
    }
  }

  lemma VnetRunConverges(cfg: Config, c: Cluster, v: ObjectKey, pods: seq<ObjectKey>)
    requires WellFormed(cfg, c) && Addressable(v) && !Converged(cfg, c, v) && ListOrder(c, pods)
    ensures |Unconverged(cfg, AfterVnet(cfg, c, v, NO_FAILURES, Written(pods, "")))| < |Unconverged(cfg, c)|
  {
    hide WellFormed, Converged, AfterVnet, ListOrder;
    var d := AfterVnet(cfg, c, v, NO_FAILURES, Written(pods, ""));
    CleanRunConverges(cfg, c, v, pods, "");
    UnconvergedIsKnown(cfg, c, v);
    forall u | u in Unconverged(cfg, d) ensures u in Unconverged(cfg, c) && u != v {
      UnconvergedIsKnown(cfg, c, u);
      if u != v && Converged(cfg, c, u) { OtherStaysConverged(cfg, c, v, Written(pods, ""), u); }
    }
    Smaller(Unconverged(cfg, d), Unconverged(cfg, c));
  }

  /** A reconcile in which no call fails, and which lists the pods in this order. */
  ghost function CleanVnetRun(cfg: Config, s: State, v: ObjectKey, pods: seq<ObjectKey>): State {
    RunVnet(cfg, s, v, true, NO_FAILURES, Written(pods, ""))
  }

  lemma ConvergedIsDequeued(cfg: Config, s: State, v: ObjectKey, pods: seq<ObjectKey>)
    requires VnetFresh(cfg, s.c, v) && StatusIn(cfg, s.c, v, pods)
    ensures CleanVnetRun(cfg, s, v, pods) == State(s.c, s.podQ, s.vnetQ - {v})
  {
    hide VnetFresh, StatusIn, AfterVnet;
    WritesNothingIff(cfg, s.c, v, pods, "");
    assert PoliciesWake(s.c.policies, s.c.policies) == {};
  }

  /** An order in which a reconcile of v makes progress: any, if it has not converged; else one that shows no change. */
  ghost predicate Progressive(cfg: Config, c: Cluster, v: ObjectKey, pods: seq<ObjectKey>) {
    ListOrder(c, pods) && (Converged(cfg, c, v) ==> StatusIn(cfg, c, v, pods))
  }

  lemma SomeProgressive(cfg: Config, c: Cluster, v: ObjectKey) returns (pods: seq<ObjectKey>)
    ensures Progressive(cfg, c, v, pods)
  {
    hide VnetFresh, StatusIn, ListOrder;
    if Converged(cfg, c, v) {
      pods :| ListOrder(c, pods) && StatusIn(cfg, c, v, pods);
    } else {
      pods := SomeOrder(c);
    }
  }

  /** With at most one invalid joiner every order is. */
  lemma OneIsProgressive(cfg: Config, c: Cluster, v: ObjectKey, pods: seq<ObjectKey>)
    requires ListOrder(c, pods) && AtMostOneInvalid(cfg, c, v)
    ensures Progressive(cfg, c, v, pods)
  {
    hide VnetFresh, StatusIn, ListOrder, AtMostOneInvalid;
    if Converged(cfg, c, v) {
      var seen :| ListOrder(c, seen) && StatusIn(cfg, c, v, seen);
      OneStatus(cfg, c, v, seen, pods);
    }
  }

  lemma RunVnetDrains(cfg: Config, s: State, v: ObjectKey, pods: seq<ObjectKey>, bounds: map<ObjectKey, nat>)
    requires Drainable(cfg, s, bounds) && v in s.vnetQ && Progressive(cfg, s.c, v, pods)
    ensures var t := CleanVnetRun(cfg, s, v, pods); Drainable(cfg, t, bounds) && Less(cfg, t, bounds, s, bounds)
  {
    hide WellFormed, PodsWithin, Unconverged, AfterVnet, ListOrder, VnetFresh, StatusIn, PoliciesWake;
    VnetRunKeepsWellFormed(cfg, s.c, v, NO_FAILURES, Written(pods, ""));
    VnetRunKeepsWithin(cfg, s.c, v, Written(pods, ""), bounds);
    RunVnetKeepsAddressable(cfg, s, v, true, NO_FAILURES, Written(pods, ""));
    if Converged(cfg, s.c, v) {
      ConvergedIsDequeued(cfg, s, v, pods);
    } else {
      VnetRunConverges(cfg, s.c, v, pods);
    }
  }

  // ---- schedules ----

  /**
   * A step of a silent environment in which no call fails, except that the API server refuses a pod whose stamps do
   * not fit.
   */
  ghost predicate SilentStep(cfg: Config, s: State, t: State) {
    || (exists k | k in s.podQ :: t == if Writable(cfg, s.c, k) then RunPod(cfg, s, k) else s)
    || (exists v, pods | v in s.vnetQ && ListOrder(s.c, pods) :: t == CleanVnetRun(cfg, s, v, pods))
  }

  ghost predicate Quiet(s: State) {
    s.podQ == {} && s.vnetQ == {}
  }

  lemma SilentStepIsStep(cfg: Config, s: State, t: State) returns (step: Step)
    requires SilentStep(cfg, s, t)
    ensures Enabled(cfg, s, step) && t == Next(cfg, s, step) && !step.Environment?
  {
    hide Writable, RunPod, RunVnet, ListOrder;
    if k :| k in s.podQ && t == if Writable(cfg, s.c, k) then RunPod(cfg, s, k) else s {
      step := if Writable(cfg, s.c, k) then PodRuns(k) else PodFails(k);
    } else {
      var v, pods :| v in s.vnetQ && ListOrder(s.c, pods) && t == CleanVnetRun(cfg, s, v, pods);
      step := VnetRuns(v, true, NO_FAILURES, Written(pods, ""));
    }
  }

  lemma SilentStepKeepsInv(cfg: Config, s: State, t: State)
    requires Inv(cfg, s) && SilentStep(cfg, s, t)
    ensures Inv(cfg, t)
  {
    hide Inv, SilentStep, Enabled, Next;
    var step := SilentStepIsStep(cfg, s, t);
    StepKeepsInv(cfg, s, step);
  }

  /** No vnet that is served has two invalid joiners. */
  ghost predicate OneInvalidEach(cfg: Config, c: Cluster) {
    forall v :: AtMostOneInvalid(cfg, c, v)
  }

  lemma SilentStepDrains(cfg: Config, s: State, t: State, bounds: map<ObjectKey, nat>)
    returns (fewer: map<ObjectKey, nat>)
    requires Drainable(cfg, s, bounds) && OneInvalidEach(cfg, s.c) && SilentStep(cfg, s, t)
    ensures Drainable(cfg, t, fewer) && Less(cfg, t, fewer, s, bounds)
  {
    hide Drainable, Less, Writable, RunPod, RunVnet, ListOrder, AtMostOneInvalid, Progressive;
    if k :| k in s.podQ && t == if Writable(cfg, s.c, k) then RunPod(cfg, s, k) else s {
      DrainableIsWritable(cfg, s, bounds, k);
      fewer := RunPodDrains(cfg, s, k, bounds);
    } else {
      var v, pods :| v in s.vnetQ && ListOrder(s.c, pods) && t == CleanVnetRun(cfg, s, v, pods);
      OneIsProgressive(cfg, s.c, v, pods);
      RunVnetDrains(cfg, s, v, pods, bounds);
      fewer := bounds;
    }
  }

  // ---- what makes a joiner invalid does not change ----

  /** The two clusters find the same joiners of every vnet invalid. */
  ghost predicate SameInvalids(cfg: Config, c: Cluster, d: Cluster) {
    c.vnets.Keys == d.vnets.Keys && forall v | v in c.vnets ::
      (Served(cfg, c, v) <==> Served(cfg, d, v)) &&
      forall k :: InvalidReason(cfg, c, v, k) == InvalidReason(cfg, d, v, k)
  }

  lemma VnetRunSameInvalids(cfg: Config, c: Cluster, v: ObjectKey, write: StatusWrite)
    ensures SameInvalids(cfg, c, AfterVnet(cfg, c, v, NO_FAILURES, write))
  {
    hide AfterVnet, InvalidReason;
    var d := AfterVnet(cfg, c, v, NO_FAILURES, write);
    OnlyPoliciesAndStatus(cfg, c, v, NO_FAILURES, write);
    forall u, k | u in c.vnets ensures InvalidReason(cfg, c, u, k) == InvalidReason(cfg, d, u, k) {
      SameReason(cfg, c, d, u, k);
    }
  }

  lemma ResolutionKeepsOthers(cfg: Config, c: Cluster, ns: string, pod: Pod, k: LabelKey)
    requires !ResolutionManaged(k)
    ensures Lookup(ResolvedPod(cfg, c, ns, pod).labels, k) == Lookup(pod.labels, k)
  {
    hide Desired, Managed, Synced, Resolved, Marked;
    SyncedLookup(pod.labels, map[], OwnsAll, k);
    SyncedLookup(pod.labels, Desired(c, ns, pod), OwnsAll, k);
    DesiredIsManaged(c, ns, pod);
  }

  lemma SameJoinsSameReason(cfg: Config, c: Cluster, d: Cluster, v: ObjectKey, k: ObjectKey)
    requires d == c.(pods := d.pods) && d.pods.Keys == c.pods.Keys && v in c.vnets
    requires k in c.pods ==> forall l: LabelKey | l.Join? :: Lookup(c.pods[k].labels, l) == Lookup(d.pods[k].labels, l)
    ensures InvalidReason(cfg, c, v, k) == InvalidReason(cfg, d, v, k)
  {
    hide Admits, Managed, UserValues;
    if k in c.pods {
      SameJoinsSameValues(c, d, v, k);
      SameHousing(cfg, c, d, v, k.ns);
    }
  }

  lemma SameJoinsSameValues(c: Cluster, d: Cluster, v: ObjectKey, k: ObjectKey)
    requires k in c.pods && k in d.pods
    requires forall l: LabelKey | l.Join? :: Lookup(c.pods[k].labels, l) == Lookup(d.pods[k].labels, l)
    ensures UserValues(c, v, k) == UserValues(d, v, k)
  {
    hide NetworkId;
    assert Lookup(c.pods[k].labels, Join(v.name)) == Lookup(d.pods[k].labels, Join(v.name));
    assert Lookup(c.pods[k].labels, Join(NetworkId(v))) == Lookup(d.pods[k].labels, Join(NetworkId(v)));
  }

  lemma WriteSameInvalids(cfg: Config, c: Cluster, d: Cluster, k: ObjectKey)
    requires k in c.pods && d == c.(pods := c.pods[k := ResolvedPod(cfg, c, k.ns, c.pods[k])])
    ensures SameInvalids(cfg, c, d)
  {
    hide InvalidReason, ResolvedPod;
    forall l: LabelKey | l.Join? ensures Lookup(c.pods[k].labels, l) == Lookup(d.pods[k].labels, l) {
      ResolutionKeepsOthers(cfg, c, k.ns, c.pods[k], l);
    }
    forall v, j | v in c.vnets ensures InvalidReason(cfg, c, v, j) == InvalidReason(cfg, d, v, j) {
      SameJoinsSameReason(cfg, c, d, v, j);
    }
  }

  lemma SilentStepSameInvalids(cfg: Config, s: State, t: State)
    requires WellFormed(cfg, s.c) && SilentStep(cfg, s, t)
    ensures SameInvalids(cfg, s.c, t.c)
  {
    hide WellFormed, Writable, RunPod, AfterVnet, PodSynced, ResolvedPod, InvalidReason, Served, ListOrder;
    if k :| k in s.podQ && t == if Writable(cfg, s.c, k) then RunPod(cfg, s, k) else s {
      if Writable(cfg, s.c, k) {
        if k in s.c.pods && !PodSynced(cfg, s.c, k) {
          RunPodWrites(cfg, s, k);
          WriteSameInvalids(cfg, s.c, t.c, k);
        } else {
          RunPodIsChange(cfg, s, k);
        }
      }
    } else {
      var v, pods :| v in s.vnetQ && ListOrder(s.c, pods) && t == CleanVnetRun(cfg, s, v, pods);
      VnetRunSameInvalids(cfg, s.c, v, Written(pods, ""));
    }
  }

  lemma SameInvalidsSameOne(cfg: Config, c: Cluster, d: Cluster, v: ObjectKey)
    requires SameInvalids(cfg, c, d)
    ensures AtMostOneInvalid(cfg, c, v) <==> AtMostOneInvalid(cfg, d, v)
  {
    hide InvalidReason, Served;
    if v !in c.vnets {
      NotServed(cfg, c, v);
      NotServed(cfg, d, v);
    }
  }

  lemma NotServed(cfg: Config, c: Cluster, v: ObjectKey)
    requires v !in c.vnets
    ensures !Served(cfg, c, v)
  {
  }

  lemma SilentStepKeepsOne(cfg: Config, s: State, t: State)
    requires WellFormed(cfg, s.c) && SilentStep(cfg, s, t)
    ensures OneInvalidEach(cfg, s.c) <==> OneInvalidEach(cfg, t.c)
  {
    hide WellFormed, SilentStep, SameInvalids, AtMostOneInvalid;
    SilentStepSameInvalids(cfg, s, t);
    forall v ensures AtMostOneInvalid(cfg, s.c, v) <==> AtMostOneInvalid(cfg, t.c, v) {
      SameInvalidsSameOne(cfg, s.c, t.c, v);
    }
  }

  // ---- every schedule ----

  /** The reconciles follow one another, with the pods listed in any order, until both queues are empty. */
  ghost predicate Schedule(cfg: Config, run: nat -> State) {
    forall i: nat :: if Quiet(run(i)) then run(i + 1) == run(i) else SilentStep(cfg, run(i), run(i + 1))
  }

  lemma {:induction false} DrainsFrom(cfg: Config, run: nat -> State, i: nat, bounds: map<ObjectKey, nat>)
    returns (n: nat)
    requires Schedule(cfg, run) && Drainable(cfg, run(i), bounds) && Inv(cfg, run(i)) && OneInvalidEach(cfg, run(i).c)
    ensures Quiet(run(n)) && Inv(cfg, run(n))
    decreases Total(bounds), |Unconverged(cfg, run(i).c)|, |run(i).podQ| + |run(i).vnetQ|
  {
    hide SilentStep, Drainable, OneInvalidEach, PodsCovered, VnetsCovered, WellFormed, Quiet;
    if Quiet(run(i)) {
      n := i;
    } else {
      var fewer := SilentStepDrains(cfg, run(i), run(i + 1), bounds);
      SilentStepKeepsInv(cfg, run(i), run(i + 1));
      SilentStepKeepsOne(cfg, run(i), run(i + 1));
      n := DrainsFrom(cfg, run, i + 1, fewer);
    }
  }

  /** Every pod, resolved again and again on its own, comes to rest. */
  ghost predicate PodsSettle(cfg: Config, c: Cluster) {
    forall k | k in c.pods :: Settles(cfg, c, k.ns, c.pods[k])
  }

  ghost function WritesToRest(cfg: Config, c: Cluster, ns: string, pod: Pod): (n: nat)
    requires Settles(cfg, c, ns, pod)
    ensures SettlesWithin(cfg, c, ns, pod, n)
  {
    var n: nat :| SettlesWithin(cfg, c, ns, pod, n);
    n
  }

  lemma SettlingBounds(cfg: Config, c: Cluster) returns (bounds: map<ObjectKey, nat>)
    requires PodsSettle(cfg, c)
    ensures PodsWithin(cfg, c, bounds)
  {
    bounds := map k | k in c.pods :: WritesToRest(cfg, c, k.ns, c.pods[k]);
  }

  /** The plain case: under bindings that select on no stamp every pod settles whose stamps fit. */
  lemma AvoidingStampsSettles(cfg: Config, c: Cluster)
    requires WellFormed(cfg, c) && forall k | k in c.bindings :: AvoidsStamps(c.bindings[k].podSelector)
    requires forall k | k in c.pods :: Writable(cfg, c, k)
    ensures PodsSettle(cfg, c)
  {
    hide WellFormed, AvoidsStamps, ResolvedPod, SelectsAlike, LabelsFit, Settles;
    forall k | k in c.pods ensures Settles(cfg, c, k.ns, c.pods[k]) {
      var next := ResolvedPod(cfg, c, k.ns, c.pods[k]);
      ResolutionKeepsUserLabels(cfg, c, k.ns, c.pods[k]);
      AvoidingStampsSelectsAlike(c, k.ns, c.pods[k].labels, next.labels);
      assert Writable(cfg, c, k);
      AlikeSettles(cfg, c, k.ns, c.pods[k]);
    }
  }

  lemma ResolutionKeepsUserLabels(cfg: Config, c: Cluster, ns: string, pod: Pod)
    ensures SameUserLabels(pod.labels, ResolvedPod(cfg, c, ns, pod).labels)
  {
    hide ResolvedPod;
    forall k | !ResolutionManaged(k) ensures Lookup(pod.labels, k) == Lookup(ResolvedPod(cfg, c, ns, pod).labels, k) {
      ResolutionKeepsOthers(cfg, c, ns, pod, k);
    }
  }

  ghost predicate Settled(cfg: Config, s: State) {
    && Quiet(s)
    && (forall k | k in s.c.pods :: PodSynced(cfg, s.c, k))
    && (forall v | Addressable(v) :: VnetFresh(cfg, s.c, v))
  }

  lemma QuietIsSettled(cfg: Config, s: State)
    requires Inv(cfg, s) && Quiet(s)
    ensures Settled(cfg, s)
  {
  }

  lemma SettlingIsDrainable(cfg: Config, s: State) returns (bounds: map<ObjectKey, nat>)
    requires Inv(cfg, s) && PodsSettle(cfg, s.c)
    ensures Drainable(cfg, s, bounds)
  {
    hide WellFormed, PodsCovered, VnetsCovered, PodsSettle, PodsWithin;
    bounds := SettlingBounds(cfg, s.c);
  }

  /**
   * From any state the invariant holds in, if every pod comes to rest on its own and no vnet that is served has two
   * invalid joiners, then whatever the order in which queued objects are reconciled and pods are listed, both queues
   * are empty after finitely many reconciles, and then every pod is synced and every vnet fresh.
   */
  lemma EveryScheduleDrains(cfg: Config, run: nat -> State)
    requires Schedule(cfg, run) && Inv(cfg, run(0)) && PodsSettle(cfg, run(0).c) && OneInvalidEach(cfg, run(0).c)
    ensures exists n: nat :: Settled(cfg, run(n))
  {
    hide Schedule, Inv, PodsSettle, OneInvalidEach, Settled, Drainable;
    var bounds := SettlingIsDrainable(cfg, run(0));
    var n := DrainsFrom(cfg, run, 0, bounds);
    QuietIsSettled(cfg, run(n));
  }

  // ---- exactly then ----

  /** A sequence of silent steps. */
  ghost predicate SilentPath(cfg: Config, path: seq<State>) {
    path != [] && forall i | 0 <= i < |path| - 1 :: SilentStep(cfg, path[i], path[i + 1])
  }

  lemma PathTail(cfg: Config, path: seq<State>)
    requires SilentPath(cfg, path) && |path| > 1
    ensures SilentStep(cfg, path[0], path[1]) && SilentPath(cfg, path[1..])
  {
    hide SilentStep;
  }

  /** A silent step that makes progress, whatever the invalid joiners. */
  lemma SomeSilentStep(cfg: Config, s: State, bounds: map<ObjectKey, nat>)
    returns (t: State, fewer: map<ObjectKey, nat>)
    requires Drainable(cfg, s, bounds) && !Quiet(s)
    ensures SilentStep(cfg, s, t) && Drainable(cfg, t, fewer) && Less(cfg, t, fewer, s, bounds)
  {
    hide Drainable, Less, Writable, RunPod, RunVnet, ListOrder, Converged, StatusIn;
    if s.podQ != {} {
      var k :| k in s.podQ;
      DrainableIsWritable(cfg, s, bounds, k);
      t := RunPod(cfg, s, k);
      fewer := RunPodDrains(cfg, s, k, bounds);
    } else {
      var v :| v in s.vnetQ;
      var pods := SomeProgressive(cfg, s.c, v);
      t, fewer := CleanVnetRun(cfg, s, v, pods), bounds;
      RunVnetDrains(cfg, s, v, pods, bounds);
    }
  }

  lemma ExtendedPath(cfg: Config, s: State, rest: seq<State>) returns (path: seq<State>)
    requires SilentPath(cfg, rest) && SilentStep(cfg, s, rest[0])
    ensures SilentPath(cfg, path) && path[0] == s && path[|path| - 1] == rest[|rest| - 1]
  {
    hide SilentStep;
    path := [s] + rest;
    forall i | 0 <= i < |path| - 1 ensures SilentStep(cfg, path[i], path[i + 1]) {
      assert i > 0 ==> path[i] == rest[i - 1];
    }
  }

  lemma {:induction false} PathToQuiet(cfg: Config, s: State, bounds: map<ObjectKey, nat>) returns (path: seq<State>)
    requires Drainable(cfg, s, bounds) && Inv(cfg, s)
    ensures path != [] && SilentPath(cfg, path) && path[0] == s
    ensures Quiet(path[|path| - 1]) && Inv(cfg, path[|path| - 1])
    decreases Total(bounds), |Unconverged(cfg, s.c)|, |s.podQ| + |s.vnetQ|
  {
    hide SilentStep, Drainable, Inv;
    if Quiet(s) {
      path := [s];
    } else {
      var t, fewer := SomeSilentStep(cfg, s, bounds);
      SilentStepKeepsInv(cfg, s, t);
      var rest := PathToQuiet(cfg, t, fewer);
      path := ExtendedPath(cfg, s, rest);
    }
  }

  lemma SettlingSame(cfg: Config, c: Cluster, d: Cluster, ns: string, pod: Pod)
    requires SameResolutions(cfg, c, d, ns) && Settles(cfg, d, ns, pod)
    ensures Settles(cfg, c, ns, pod)
  {
    var n: nat :| SettlesWithin(cfg, d, ns, pod, n);
    SameSettling(cfg, c, d, ns, pod, n);
  }

  lemma WrittenSettles(cfg: Config, c: Cluster, d: Cluster, k: ObjectKey)
    requires d == c.(pods := d.pods) && k in c.pods && k.ns in c.namespaces
    requires Lookup(d.pods, k) == Some(ResolvedPod(cfg, c, k.ns, c.pods[k])) && Writable(cfg, c, k)
    requires Settles(cfg, d, k.ns, d.pods[k])
    ensures Settles(cfg, c, k.ns, c.pods[k])
  {
    PodsDoNotMatter(cfg, c, d, k.ns);
    SettlingSame(cfg, c, d, k.ns, d.pods[k]);
    SettlesByStep(cfg, c, k.ns, c.pods[k]);
  }

  lemma OtherSettles(cfg: Config, c: Cluster, d: Cluster, k: ObjectKey)
    requires d == c.(pods := d.pods) && k in c.pods && k.ns in c.namespaces && Lookup(d.pods, k) == Some(c.pods[k])
    requires Settles(cfg, d, k.ns, d.pods[k])
    ensures Settles(cfg, c, k.ns, c.pods[k])
  {
    PodsDoNotMatter(cfg, c, d, k.ns);
    SettlingSame(cfg, c, d, k.ns, c.pods[k]);
  }

  lemma WriteSettlesBack(cfg: Config, c: Cluster, d: Cluster, k: ObjectKey)
    requires (forall j | j in c.pods :: j.ns in c.namespaces) && k in c.pods && Writable(cfg, c, k)
    requires d == c.(pods := c.pods[k := ResolvedPod(cfg, c, k.ns, c.pods[k])]) && PodsSettle(cfg, d)
    ensures PodsSettle(cfg, c)
  {
    hide Settles, ResolvedPod, Writable;
    forall j | j in c.pods ensures Settles(cfg, c, j.ns, c.pods[j]) {
      assert Settles(cfg, d, j.ns, d.pods[j]);
      if j == k {
        WrittenSettles(cfg, c, d, k);
      } else {
        OtherSettles(cfg, c, d, j);
      }
    }
  }

  lemma RunPodSettlesBack(cfg: Config, s: State, k: ObjectKey)
    requires WellFormed(cfg, s.c) && k in s.podQ && Writable(cfg, s.c, k) && PodsSettle(cfg, RunPod(cfg, s, k).c)
    ensures PodsSettle(cfg, s.c)
  {
    hide PodSynced, PodsSettle, ResolvedPod, Writable;
    if k in s.c.pods && !PodSynced(cfg, s.c, k) {
      RunPodWrites(cfg, s, k);
      WriteSettlesBack(cfg, s.c, RunPod(cfg, s, k).c, k);
    } else {
      RunPodIsChange(cfg, s, k);
    }
  }

  lemma RunVnetSettlesBack(cfg: Config, c: Cluster, v: ObjectKey, write: StatusWrite)
    requires WellFormed(cfg, c) && PodsSettle(cfg, AfterVnet(cfg, c, v, NO_FAILURES, write))
    ensures PodsSettle(cfg, c)
  {
    hide AfterVnet, Settles, SameResolutions, LabelsFit, VnetName, NamespaceName;
    var d := AfterVnet(cfg, c, v, NO_FAILURES, write);
    OnlyPoliciesAndStatus(cfg, c, v, NO_FAILURES, write);
    forall k | k in c.pods ensures Settles(cfg, c, k.ns, c.pods[k]) {
      VnetRunSameResolutions(cfg, c, d, k.ns);
      assert Settles(cfg, d, k.ns, d.pods[k]);
      SettlingSame(cfg, c, d, k.ns, c.pods[k]);
    }
  }

  lemma SilentStepSettlesBack(cfg: Config, s: State, t: State)
    requires WellFormed(cfg, s.c) && SilentStep(cfg, s, t) && PodsSettle(cfg, t.c)
    ensures PodsSettle(cfg, s.c)
  {
    hide WellFormed, PodsSettle, Writable, RunPod, AfterVnet, ListOrder;
    if k :| k in s.podQ && t == if Writable(cfg, s.c, k) then RunPod(cfg, s, k) else s {
      if Writable(cfg, s.c, k) { RunPodSettlesBack(cfg, s, k); }
    } else {
      var v, pods :| v in s.vnetQ && ListOrder(s.c, pods) && t == CleanVnetRun(cfg, s, v, pods);
      RunVnetSettlesBack(cfg, s.c, v, Written(pods, ""));
    }
  }

  lemma {:induction false} PathSettlesBack(cfg: Config, path: seq<State>)
    requires SilentPath(cfg, path) && Inv(cfg, path[0]) && PodsSettle(cfg, path[|path| - 1].c)
    ensures PodsSettle(cfg, path[0].c)
  {
    if |path| > 1 {
      SilentStepKeepsInv(cfg, path[0], path[1]);
      PathSettlesBack(cfg, path[1..]);
      SilentStepSettlesBack(cfg, path[0], path[1]);
    }
  }

  lemma SettledPodsSettle(cfg: Config, s: State)
    requires Settled(cfg, s)
    ensures PodsSettle(cfg, s.c)
  {
    forall k | k in s.c.pods ensures Settles(cfg, s.c, k.ns, s.c.pods[k]) {
      assert PodSynced(cfg, s.c, k);
      assert SettlesWithin(cfg, s.c, k.ns, s.c.pods[k], 0);
    }
  }

  /** The operator can come to rest from a state iff every pod can on its own, whatever the invalid joiners. */
  lemma SettlesIffPodsDo(cfg: Config, s: State)
    requires Inv(cfg, s)
    ensures (exists path :: SilentPath(cfg, path) && path[0] == s && Settled(cfg, path[|path| - 1])) <==>
            PodsSettle(cfg, s.c)
  {
    hide Inv, SilentStep, Settled, PodsSettle, Drainable, Quiet;
    if PodsSettle(cfg, s.c) {
      var bounds := SettlingIsDrainable(cfg, s);
      var path := PathToQuiet(cfg, s, bounds);
      QuietIsSettled(cfg, path[|path| - 1]);
    }
    if path :| SilentPath(cfg, path) && path[0] == s && Settled(cfg, path[|path| - 1]) {
      SettledPodsSettle(cfg, path[|path| - 1]);
      PathSettlesBack(cfg, path);
    }
  }

  // ---- such a path continues the run it starts from ----

  lemma RunExtends(cfg: Config, states: seq<State>, steps: seq<Step>, step: Step, t: State)
    requires Run(cfg, states, steps) && Enabled(cfg, states[|steps|], step) && t == Next(cfg, states[|steps|], step)
    ensures Run(cfg, states + [t], steps + [step])
  {
    hide Enabled, Next, Init;
  }

  lemma Shift<T>(s: seq<T>, t: seq<T>)
    requires t != []
    ensures s + [t[0]] + t[1..] == s + t
  {
  }

  lemma Unit<T>(s: seq<T>)
    ensures s + [] == s
  {
  }

  lemma {:induction false} PathContinuesRun(cfg: Config, states: seq<State>, steps: seq<Step>, path: seq<State>)
    returns (more: seq<Step>)
    requires Run(cfg, states, steps) && path != [] && SilentPath(cfg, path) && path[0] == states[|steps|]
    ensures Run(cfg, states + path[1..], steps + more)
    decreases |path|
  {
    hide Run, SilentPath, SilentStep, Enabled, Next;
    RunLength(cfg, states, steps);
    if |path| == 1 {
      more := [];
      assert path[1..] == [];
      Unit(states);
      Unit(steps);
    } else {
      PathTail(cfg, path);
      var step := SilentStepIsStep(cfg, path[0], path[1]);
      RunExtends(cfg, states, steps, step, path[1]);
      var rest := PathContinuesRun(cfg, states + [path[1]], steps + [step], path[1..]);
      Shift(states, path[1..]);
      Shift(steps, [step] + rest);
      more := [step] + rest;
    }
  }
}
