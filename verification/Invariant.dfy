/** Whatever is out of date is still queued, in every state of every run. */
module Invariant {
  import opened Prelude
  import opened Names
  import opened Cluster
  import opened Stamps
  import opened VnetReconcile
  import opened Fanout
  import opened Protocol
  import opened PodFreshness
  import opened VnetFreshness

  /** Whatever is out of date is queued, and the vnet queue holds keys that some vnet can have. */
  ghost predicate Inv(cfg: Config, s: State) {
    WellFormed(cfg, s.c) && PodsCovered(cfg, s) && VnetsCovered(cfg, s) && QueueAddressable(s)
  }

  ghost predicate QueueAddressable(s: State) {
    forall v | v in s.vnetQ :: Addressable(v)
  }

  lemma InitHasInv(cfg: Config, s: State)
    requires Init(cfg, s)
    ensures Inv(cfg, s)
  {
    forall v | Addressable(v) ensures v in s.vnetQ || VnetFresh(cfg, s.c, v) {
      forall k | Owned(s.c, v, k) ensures v in s.vnetQ {
        NetworkTarget(v, s.c.policies[k]);
        assert v in PolicyWakes(None, Some(s.c.policies[k]));
      }
    }
  }

  // ---- what is enqueued is addressable ----

  lemma LabelTargetsAddressable(cfg: Config, ns: string, pod: Option<Pod>)
    requires DnsLabel(cfg.operatorNS) && DnsLabel(ns)
    ensures forall v | v in OptPodTargets(cfg, ns, pod) :: Addressable(v)
  {
    if pod.Some? {
      forall k | k in pod.value.labels && IsJoinLabel(k)
        ensures Addressable(LabelTarget(SuffixOf(k), ns, cfg.operatorNS))
      {
        CutParts(SuffixOf(k));
      }
    }
  }

  lemma PolicyTargetsAddressable(p: Option<Policy>)
    ensures forall v | v in PolicyTarget(p) :: Addressable(v)
  {
    if p.Some? && Network in p.value.labels { CutParts(p.value.labels[Network]); }
  }

  lemma WakesAddressable(before: map<ObjectKey, Policy>, after: map<ObjectKey, Policy>)
    ensures forall v | v in PoliciesWake(before, after) :: Addressable(v)
  {
    forall k, v | v in PolicyWakes(Lookup(before, k), Lookup(after, k)) ensures Addressable(v) {
      PolicyTargetsAddressable(Lookup(before, k));
      PolicyTargetsAddressable(Lookup(after, k));
    }
  }

  lemma PodEventAddressable(cfg: Config, c: Cluster, k: ObjectKey, p: Option<Pod>)
    requires WellFormed(cfg, c) && WellFormed(cfg, After(c, SetPod(k, p)))
    ensures forall v | v in VnetsWoken(cfg, c, SetPod(k, p)) :: Addressable(v)
  {
    hide OptPodTargets, JoinLabelTriggers, LabelsFit, VnetName, ClusterVnetIsSingleton;
    if k in c.pods { LabelTargetsAddressable(cfg, k.ns, Lookup(c.pods, k)); }
    if p.Some? {
      assert k in After(c, SetPod(k, p)).pods;
      LabelTargetsAddressable(cfg, k.ns, p);
    }
    NoPodNoTargets(cfg, k.ns);
  }

  lemma NoPodNoTargets(cfg: Config, ns: string)
    ensures OptPodTargets(cfg, ns, None) == {}
  {
  }

  lemma WokenAddressable(cfg: Config, c: Cluster, e: Change)
    requires WellFormed(cfg, c) && Legal(cfg, c, e)
    ensures forall v | v in VnetsWoken(cfg, c, e) :: Addressable(v)
  {
    match e
    case SetPod(k, p) => PodEventAddressable(cfg, c, k, p);
    case SetPolicy(k, p) =>
      PolicyTargetsAddressable(Lookup(c.policies, k));
      PolicyTargetsAddressable(p);
    case SetNamespace(_, _) => VnetsAddressable(cfg, After(c, e));
    case _ =>
  }

  lemma VnetsAddressable(cfg: Config, c: Cluster)
    requires WellFormed(cfg, c)
    ensures forall v | v in c.vnets :: Addressable(v)
  {
  }

  lemma ChangeKeepsAddressable(cfg: Config, s: State, e: Change)
    requires WellFormed(cfg, s.c) && Legal(cfg, s.c, e) && QueueAddressable(s)
    ensures QueueAddressable(Fire(cfg, s, e))
  {
    hide WellFormed, Legal, VnetsWoken, PodsWoken;
    WokenAddressable(cfg, s.c, e);
  }

  lemma RunPodKeepsAddressable(cfg: Config, s: State, k: ObjectKey)
    requires WellFormed(cfg, s.c) && QueueAddressable(s) && k in s.podQ && Writable(cfg, s.c, k)
    ensures QueueAddressable(RunPod(cfg, s, k))
  {
    hide WellFormed, Legal, Writable, PodSynced, RunPod, Fire, ResolvedPod;
    RunPodIsChange(cfg, s, k);
    if k in s.c.pods && !PodSynced(cfg, s.c, k) {
      ChangeKeepsAddressable(cfg, s, SetPod(k, Some(ResolvedPod(cfg, s.c, k.ns, s.c.pods[k]))));
    }
  }

  lemma RunVnetKeepsAddressable(cfg: Config, s: State, v: ObjectKey, ok: bool, f: Failures, write: StatusWrite)
    requires QueueAddressable(s) && v in s.vnetQ
    ensures QueueAddressable(RunVnet(cfg, s, v, ok, f, write))
  {
    hide AfterVnet, PoliciesWake;
    WakesAddressable(s.c.policies, AfterVnet(cfg, s.c, v, f, write).policies);
  }

  // ---- the steps ----

  lemma VnetRunKeepsWellFormed(cfg: Config, c: Cluster, v: ObjectKey, f: Failures, write: StatusWrite)
    requires WellFormed(cfg, c)
    ensures WellFormed(cfg, AfterVnet(cfg, c, v, f, write))
  {
    hide AfterVnet, VnetName, NamespaceName, LabelsFit;
    var d := AfterVnet(cfg, c, v, f, write);
    OnlyPoliciesAndStatus(cfg, c, v, f, write);
    forall w | w in d.vnets ensures ClusterVnetIsSingleton(cfg, d, w) {
      assert ClusterVnetIsSingleton(cfg, c, w);
    }
  }

  /** The invariant is inductive over every step: any change, any resolution, any reconcile with any failures. */
  lemma StepKeepsInv(cfg: Config, s: State, step: Step)
    requires Inv(cfg, s) && Enabled(cfg, s, step)
    ensures Inv(cfg, Next(cfg, s, step))
  {
    hide WellFormed, PodsCovered, VnetsCovered, QueueAddressable, AfterVnet;
    match step
    case Environment(e) =>
      ChangeCoversPods(cfg, s, e);
      ChangeCoversVnets(cfg, s, e);
      ChangeKeepsAddressable(cfg, s, e);
    case PodFails(_) =>
    case PodRuns(k) =>
      RunPodIsChange(cfg, s, k);
      RunPodCoversPods(cfg, s, k);
      RunPodCoversVnets(cfg, s, k);
      RunPodKeepsAddressable(cfg, s, k);
    case VnetRuns(v, ok, f, write) =>
      VnetRunKeepsWellFormed(cfg, s.c, v, f, write);
      RunVnetCoversPods(cfg, s, v, ok, f, write);
      RunVnetCoversVnets(cfg, s, v, ok, f, write);
      RunVnetKeepsAddressable(cfg, s, v, ok, f, write);
  }

  lemma RunLength(cfg: Config, states: seq<State>, steps: seq<Step>)
    requires Run(cfg, states, steps)
    ensures |states| == |steps| + 1
  {
  }

  /** In every reachable state, whatever is out of date is queued. */
  lemma {:induction false} RunKeepsInv(cfg: Config, states: seq<State>, steps: seq<Step>)
    requires Run(cfg, states, steps)
    ensures Inv(cfg, states[|steps|])
  {
    if steps == [] {
      InitHasInv(cfg, states[0]);
    } else {
      var n := |steps| - 1;
      RunKeepsInv(cfg, states[..n + 1], steps[..n]);
      StepKeepsInv(cfg, states[n], steps[n]);
    }
  }
}
