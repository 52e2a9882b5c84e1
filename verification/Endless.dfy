/**
 * Schedules that never end: the status of a vnet names its invalid joiners in list order, so two of them are enough
 * for every reconcile to write it again, and the write queues the vnet.
 */
module Endless {
  import opened Prelude
  import opened Names
  import opened Cluster
  import opened Stamps
  import opened Members
  import opened Generator
  import opened VnetReconcile
  import opened Protocol
  import opened Invariant
  import opened Settling
  import opened Drain
  import opened Termination

  // ---- some schedule leaves every state ----

  lemma NotStuck(cfg: Config, s: State)
    requires !Quiet(s)
    ensures exists t :: SilentStep(cfg, s, t)
  {
    hide Writable, RunPod, RunVnet, ListOrder;
    if k :| k in s.podQ {
      assert SilentStep(cfg, s, if Writable(cfg, s.c, k) then RunPod(cfg, s, k) else s);
    } else {
      var v :| v in s.vnetQ;
      var pods := SomeOrder(s.c);
      assert SilentStep(cfg, s, CleanVnetRun(cfg, s, v, pods));
    }
  }

  ghost function StepFrom(cfg: Config, s: State): (t: State)
    ensures if Quiet(s) then t == s else SilentStep(cfg, s, t)
  {
    if Quiet(s) then s else
      NotStuck(cfg, s);
      var t :| SilentStep(cfg, s, t);
      t
  }

  ghost function RunFrom(cfg: Config, s: State, n: nat): State {
    if n == 0 then s else StepFrom(cfg, RunFrom(cfg, s, n - 1))
  }

  lemma SomeSchedule(cfg: Config, s: State) returns (run: nat -> State)
    ensures Schedule(cfg, run) && run(0) == s
  {
    hide SilentStep, Quiet, StepFrom;
    run := (n: nat) => RunFrom(cfg, s, n);
    forall i: nat ensures if Quiet(run(i)) then run(i + 1) == run(i) else SilentStep(cfg, run(i), run(i + 1)) {
      assert run(i + 1) == StepFrom(cfg, run(i));
    }
  }

  // ---- two invalid joiners ----

  lemma SomeDisagrees(cfg: Config, c: Cluster, v: ObjectKey)
    requires !AtMostOneInvalid(cfg, c, v)
    ensures exists pods :: ListOrder(c, pods) && !StatusIn(cfg, c, v, pods)
  {
    hide AtMostOneInvalid, ListOrder, StatusIn;
    var pods := TwoInvalidDisagree(cfg, c, v);
  }

  /** A reconcile of v that lists the pods in an order the status does not show. */
  ghost function Again(cfg: Config, s: State, v: ObjectKey): State {
    if AtMostOneInvalid(cfg, s.c, v) then s else
      SomeDisagrees(cfg, s.c, v);
      var pods :| ListOrder(s.c, pods) && !StatusIn(cfg, s.c, v, pods);
      CleanVnetRun(cfg, s, v, pods)
  }

  /** It writes the status, and the write queues v again. */
  lemma DisagreeingRequeues(cfg: Config, s: State, v: ObjectKey, pods: seq<ObjectKey>)
    requires !StatusIn(cfg, s.c, v, pods)
    ensures v in CleanVnetRun(cfg, s, v, pods).vnetQ
  {
    hide StatusOf, DesiredPolicies, PoliciesAfter, PoliciesWake;
    ErrorsDoNotShow(cfg, s.c, v, pods, "");
    assert AfterVnet(cfg, s.c, v, NO_FAILURES, Written(pods, "")).vnets[v].status != s.c.vnets[v].status;
  }

  lemma AgainStays(cfg: Config, s: State, v: ObjectKey)
    requires v in s.vnetQ && !AtMostOneInvalid(cfg, s.c, v)
    ensures var t := Again(cfg, s, v); SilentStep(cfg, s, t) && v in t.vnetQ && !AtMostOneInvalid(cfg, t.c, v)
  {
    hide AtMostOneInvalid, ListOrder, StatusIn, AfterVnet, SameInvalids, Writable, RunPod;
    SomeDisagrees(cfg, s.c, v);
    var pods :| ListOrder(s.c, pods) && !StatusIn(cfg, s.c, v, pods) &&
                Again(cfg, s, v) == CleanVnetRun(cfg, s, v, pods);
    DisagreeingRequeues(cfg, s, v, pods);
    VnetRunSameInvalids(cfg, s.c, v, Written(pods, ""));
    SameInvalidsSameOne(cfg, s.c, Again(cfg, s, v).c, v);
  }

  ghost function Repeated(cfg: Config, s: State, v: ObjectKey, n: nat): State {
    if n == 0 then s else Again(cfg, Repeated(cfg, s, v, n - 1), v)
  }

  lemma {:induction false} RepeatedStays(cfg: Config, s: State, v: ObjectKey, n: nat)
    requires v in s.vnetQ && !AtMostOneInvalid(cfg, s.c, v)
    ensures v in Repeated(cfg, s, v, n).vnetQ && !AtMostOneInvalid(cfg, Repeated(cfg, s, v, n).c, v)
  {
    hide AtMostOneInvalid, Again, SilentStep;
    if n > 0 {
      RepeatedStays(cfg, s, v, n - 1);
      AgainStays(cfg, Repeated(cfg, s, v, n - 1), v);
    }
  }

  /** A queued vnet with two invalid joiners need never leave the queue. */
  lemma TwoInvalidNeverDrain(cfg: Config, s: State, v: ObjectKey) returns (run: nat -> State)
    requires v in s.vnetQ && !AtMostOneInvalid(cfg, s.c, v)
    ensures Schedule(cfg, run) && run(0) == s && forall n: nat :: v in run(n).vnetQ
  {
    hide AtMostOneInvalid, Again, SilentStep;
    run := (n: nat) => Repeated(cfg, s, v, n);
    forall n: nat
      ensures v in run(n).vnetQ
      ensures if Quiet(run(n)) then run(n + 1) == run(n) else SilentStep(cfg, run(n), run(n + 1))
    {
      RepeatedStays(cfg, s, v, n);
      AgainStays(cfg, run(n), v);
      assert run(n + 1) == Again(cfg, run(n), v);
    }
  }

  // ---- exactly which clusters drain ----

  lemma {:induction false} ScheduleKeepsInv(cfg: Config, run: nat -> State, n: nat)
    requires Schedule(cfg, run) && Inv(cfg, run(0))
    ensures Inv(cfg, run(n))
  {
    hide Inv, SilentStep, Quiet;
    if n > 0 {
      ScheduleKeepsInv(cfg, run, n - 1);
      assert run(n - 1 + 1) == run(n);
      if !Quiet(run(n - 1)) { SilentStepKeepsInv(cfg, run(n - 1), run(n)); }
    }
  }

  lemma InvIsWellFormed(cfg: Config, s: State)
    requires Inv(cfg, s)
    ensures WellFormed(cfg, s.c)
  {
  }

  lemma {:induction false} ScheduleSettlesBack(cfg: Config, run: nat -> State, n: nat)
    requires Schedule(cfg, run) && Inv(cfg, run(0)) && PodsSettle(cfg, run(n).c)
    ensures PodsSettle(cfg, run(0).c)
  {
    hide Inv, SilentStep, Quiet, PodsSettle;
    if n > 0 {
      assert run(n - 1 + 1) == run(n);
      ScheduleKeepsInv(cfg, run, n - 1);
      InvIsWellFormed(cfg, run(n - 1));
      if !Quiet(run(n - 1)) { SilentStepSettlesBack(cfg, run(n - 1), run(n)); }
      ScheduleSettlesBack(cfg, run, n - 1);
    }
  }

  ghost predicate Drains(cfg: Config, run: nat -> State) {
    exists n: nat :: Settled(cfg, run(n))
  }

  lemma DrainingPodsSettle(cfg: Config, run: nat -> State)
    requires Schedule(cfg, run) && Inv(cfg, run(0)) && Drains(cfg, run)
    ensures PodsSettle(cfg, run(0).c)
  {
    hide Schedule, Inv, Settled, PodsSettle;
    var n: nat :| Settled(cfg, run(n));
    SettledPodsSettle(cfg, run(n));
    ScheduleSettlesBack(cfg, run, n);
  }

  lemma QueuedIsUnsettled(cfg: Config, run: nat -> State, v: ObjectKey)
    requires forall n: nat :: v in run(n).vnetQ
    ensures !Drains(cfg, run)
  {
  }

  /**
   * From a state in which the vnets with two invalid joiners are queued, as all vnets are when the operator starts:
   * every schedule comes to rest iff every pod does on its own and there is no such vnet.
   */
  lemma EveryScheduleDrainsIff(cfg: Config, s: State)
    requires Inv(cfg, s) && forall v | !AtMostOneInvalid(cfg, s.c, v) :: v in s.vnetQ
    ensures (forall run: nat -> State | Schedule(cfg, run) && run(0) == s :: Drains(cfg, run)) <==>
            PodsSettle(cfg, s.c) && OneInvalidEach(cfg, s.c)
  {
    hide Schedule, Inv, PodsSettle, AtMostOneInvalid, Drains;
    if PodsSettle(cfg, s.c) && OneInvalidEach(cfg, s.c) {
      forall run: nat -> State | Schedule(cfg, run) && run(0) == s ensures Drains(cfg, run) {
        DrainingSchedule(cfg, run);
      }
    } else if v :| !AtMostOneInvalid(cfg, s.c, v) {
      var run := TwoInvalidNeverDrain(cfg, s, v);
      QueuedIsUnsettled(cfg, run, v);
    } else {
      var run := SomeSchedule(cfg, s);
      if Drains(cfg, run) { DrainingPodsSettle(cfg, run); }
    }
  }

  lemma DrainingSchedule(cfg: Config, run: nat -> State)
    requires Schedule(cfg, run) && Inv(cfg, run(0)) && PodsSettle(cfg, run(0).c) && OneInvalidEach(cfg, run(0).c)
    ensures Drains(cfg, run)
  {
    hide Schedule, Inv, PodsSettle, OneInvalidEach, Settled;
    EveryScheduleDrains(cfg, run);
  }

  // ---- such a cluster ----

  const HOME := ObjectKey("home", "net")

  /** A pod of a disabled namespace that asks for the vnet. */
  const JOINER := Pod(map[Join("home.net") := "both"], map[], 1, {})

  const UNSET := VnetStatus(map[], {}, None)

  /** A vnet for everyone, and two such pods. */
  ghost function TwoJoiners(): Cluster {
    Cluster(
      map["home" := Namespace(map[], false, false), "off" := Namespace(map[], true, false)],
      map[HOME := Vnet(Some(AllowedNamespaces(true, [], None)), false, "uid", UNSET)],
      None, map[], map[], map[ObjectKey("off", "a") := JOINER, ObjectKey("off", "b") := JOINER], map[])
  }

  ghost function Operator(hash: HashFn): Config {
    Config({}, "operator", hash)
  }

  ghost function Started(): State {
    State(TwoJoiners(), TwoJoiners().pods.Keys, TwoJoiners().vnets.Keys)
  }

  lemma TwoPods(k: ObjectKey)
    ensures k in TwoJoiners().pods <==> k == ObjectKey("off", "a") || k == ObjectKey("off", "b")
    ensures k in TwoJoiners().pods ==> k.ns == "off" && TwoJoiners().pods[k] == JOINER
  {
  }

  lemma JoinerNamesHome()
    ensures Lookup(JOINER.labels, Join(NetworkId(HOME))) == Some("both") && Join(HOME.name) !in JOINER.labels
    ensures HOME.name != CLUSTER
  {
    assert NetworkId(HOME) == "home.net";
  }

  lemma JoinersAreAsked(k: ObjectKey)
    requires k in TwoJoiners().pods
    ensures UserValues(TwoJoiners(), HOME, k) == ["both"]
  {
    hide TwoJoiners, NetworkId;
    TwoPods(k);
    JoinerNamesHome();
  }

  lemma OnlyHomeIsManaged(hash: HashFn)
    ensures var cfg, c := Operator(hash), TwoJoiners();
      && Managed(cfg, c, "home") && !Managed(cfg, c, "off") && HOME in c.vnets && Served(cfg, c, HOME)
      && Admits(c, HOME.ns, c.vnets[HOME].allowed, "off")
  {
  }

  lemma JoinersAreInvalid(hash: HashFn, k: ObjectKey)
    requires k in TwoJoiners().pods
    ensures Served(Operator(hash), TwoJoiners(), HOME)
    ensures InvalidReason(Operator(hash), TwoJoiners(), HOME, k) == Some(NamespaceExcluded)
  {
    hide TwoJoiners, Operator, UserValues, Admits, Managed, Served;
    OnlyHomeIsManaged(hash);
    TwoPods(k);
    JoinersAreAsked(k);
    assert ["both"][0] == "both";
  }

  lemma NamesAreFine()
    ensures NamespaceName("home") && NamespaceName("off") && NamespaceName("operator") && VnetName(HOME)
    ensures LabelsFit(JOINER.labels)
  {
    assert |"home.net"| == 8;
  }

  lemma TwoJoinersWellFormed(hash: HashFn)
    ensures WellFormed(Operator(hash), TwoJoiners())
  {
    hide NamespaceName, VnetName, LabelsFit;
    var c := TwoJoiners();
    NamesAreFine();
    HomeIsNotCluster(hash);
    forall k | k in c.pods ensures k.ns in c.namespaces && LabelsFit(c.pods[k].labels) { TwoPods(k); }
  }

  lemma HomeIsNotCluster(hash: HashFn)
    ensures ClusterVnetIsSingleton(Operator(hash), TwoJoiners(), HOME)
  {
  }

  lemma StartedIsInit(hash: HashFn)
    ensures Init(Operator(hash), Started())
  {
    hide WellFormed;
    TwoJoinersWellFormed(hash);
  }

  lemma JoinerIsStripped(cfg: Config, c: Cluster, ns: string)
    requires !Managed(cfg, c, ns)
    ensures ResolvedPod(cfg, c, ns, JOINER) == JOINER
  {
    assert Synced(JOINER.labels, map[], OwnsAll) == JOINER.labels;
  }

  lemma AtRestSettles(cfg: Config, c: Cluster, ns: string, pod: Pod)
    requires ResolvedPod(cfg, c, ns, pod) == pod
    ensures Settles(cfg, c, ns, pod)
  {
    hide ResolvedPod;
    assert SettlesWithin(cfg, c, ns, pod, 0);
  }

  lemma JoinerIsAtRest(hash: HashFn, k: ObjectKey)
    requires k in TwoJoiners().pods
    ensures Settles(Operator(hash), TwoJoiners(), k.ns, TwoJoiners().pods[k])
  {
    hide TwoJoiners, Operator, ResolvedPod, Settles, Managed, Served, Admits;
    OnlyHomeIsManaged(hash);
    TwoPods(k);
    JoinerIsStripped(Operator(hash), TwoJoiners(), k.ns);
    AtRestSettles(Operator(hash), TwoJoiners(), k.ns, JOINER);
  }

  lemma JoinersAreAtRest(hash: HashFn)
    ensures PodsSettle(Operator(hash), TwoJoiners())
  {
    hide TwoJoiners, Operator, Settles;
    forall k | k in TwoJoiners().pods ensures Settles(Operator(hash), TwoJoiners(), k.ns, TwoJoiners().pods[k]) {
      JoinerIsAtRest(hash, k);
    }
  }

  /** Two pods that name one vnet from a disabled namespace keep a silent operator writing for ever. */
  lemma TwoJoinersNeverRest(hash: HashFn) returns (run: nat -> State)
    ensures Init(Operator(hash), run(0)) && PodsSettle(Operator(hash), run(0).c)
    ensures Schedule(Operator(hash), run) && forall n: nat :: !Quiet(run(n))
  {
    hide Init, PodsSettle, Schedule;
    StartedIsInit(hash);
    JoinersAreAtRest(hash);
    TwoAreInvalid(hash);
    run := TwoInvalidNeverDrain(Operator(hash), Started(), HOME);
    forall n: nat ensures !Quiet(run(n)) { assert HOME in run(n).vnetQ; }
  }

  lemma TwoAreInvalid(hash: HashFn)
    ensures !AtMostOneInvalid(Operator(hash), TwoJoiners(), HOME)
  {
    hide InvalidReason, Served, TwoJoiners;
    TwoPods(ObjectKey("off", "a"));
    TwoPods(ObjectKey("off", "b"));
    JoinersAreInvalid(hash, ObjectKey("off", "a"));
    JoinersAreInvalid(hash, ObjectKey("off", "b"));
  }
}
