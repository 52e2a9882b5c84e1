/**
 * PolicyRestored: which recreations are reported (signals.go), by the baseline, host-port and Service reconcilers that
 * use the tracker (namespace_reconciler.go, hostport_controller.go, external_allow_controller.go).
 */
module Tracker {
  import opened Prelude
  import opened Names
  import opened Cluster
  import opened Sorting
  import opened Generator
  import opened VnetReconcile
  import opened Ports
  import opened Families

  // ---- the tracker over a history of reconciles ----

  /** The policies a reconcile speaks for: a namespace's host-port policies, or the one policy of a Service. */
  datatype Remit = InNamespace(ns: string) | Only(key: ObjectKey)

  predicate Covers(r: Remit, k: ObjectKey) {
    match r
    case InNamespace(ns) => k.ns == ns
    case Only(key) => k == key
  }

  /**
   * One reconcile: the policies it wants, those it applied, and those it found absent when it did. `Skipped` is one
   * that learns nothing: a failed read, a terminating namespace, a Service waiting for its named port.
   */
  datatype Round =
    | Skipped
    | Round(remit: Remit, wanted: set<ObjectKey>, applied: set<ObjectKey>, created: set<ObjectKey>)

  ghost predicate StopsWanting(r: Round, k: ObjectKey) {
    r.Round? && Covers(r.remit, k) && k !in r.wanted
  }

  ghost predicate Applies(r: Round, k: ObjectKey) {
    r.Round? && k in r.applied
  }

  ghost function NextKeys(keys: set<ObjectKey>, r: Round): set<ObjectKey> {
    match r
    case Skipped => keys
    case Round(remit, wanted, applied, _) =>
      set k | k in keys + applied && !(Covers(remit, k) && k !in wanted)
  }

  ghost function Restored(keys: set<ObjectKey>, r: Round): set<ObjectKey> {
    match r
    case Skipped => {}
    case Round(_, _, applied, created) => set k | k in applied && k in created && k in keys
  }

  ghost function KeysAfter(rounds: seq<Round>): set<ObjectKey> {
    if rounds == [] then {} else NextKeys(KeysAfter(rounds[..|rounds| - 1]), rounds[|rounds| - 1])
  }

  /** Some round before n applied k, and none since has stopped wanting it. */
  ghost predicate AppliedAndWantedSince(rounds: seq<Round>, n: nat, k: ObjectKey)
    requires n <= |rounds|
  {
    exists m: nat | m < n :: Applies(rounds[m], k) && forall j | m <= j < n :: !StopsWanting(rounds[j], k)
  }

  lemma {:induction false} TrackedMeansApplied(rounds: seq<Round>, n: nat, k: ObjectKey)
    requires n <= |rounds|
    ensures k in KeysAfter(rounds[..n]) <==> AppliedAndWantedSince(rounds, n, k)
  {
    if n > 0 {
      TrackedMeansApplied(rounds, n - 1, k);
      assert rounds[..n][..n - 1] == rounds[..n - 1];
      var r := rounds[n - 1];
      if Applies(r, k) && !StopsWanting(r, k) {
        assert AppliedAndWantedSince(rounds, n, k);
      } else if AppliedAndWantedSince(rounds, n - 1, k) && !StopsWanting(r, k) {
        var m: nat :| m < n - 1 && Applies(rounds[m], k) && forall j | m <= j < n - 1 :: !StopsWanting(rounds[j], k);
        assert AppliedAndWantedSince(rounds, n, k);
      }
    }
  }

  /**
   * PolicyRestored is exact over any history, failed applies included: round n reports k iff it created a policy that
   * some earlier round applied and no round since has stopped wanting.
   */
  lemma RestoreIsExact(rounds: seq<Round>, n: nat, k: ObjectKey)
    requires n < |rounds|
    ensures k in Restored(KeysAfter(rounds[..n]), rounds[n]) <==>
      Applies(rounds[n], k) && k in rounds[n].created && AppliedAndWantedSince(rounds, n, k)
  {
    TrackedMeansApplied(rounds, n, k);
  }

  // ---- the tracker ----

  /** policyTracker; it lives as long as the process. */
  class PolicyTracker {
    var keys: set<ObjectKey>

    constructor ()
      ensures keys == KeysAfter([])
    {
      keys := {};
    }

    method Applied(key: ObjectKey, created: bool) returns (restored: bool)
      modifies this
      ensures restored <==> created && key in old(keys)
      ensures keys == old(keys) + {key}
    {
      restored := created && key in keys;
      keys := keys + {key};
    }

    method Forget(key: ObjectKey)
      modifies this
      ensures keys == NextKeys(old(keys), Round(Only(key), {}, {}, {}))
    {
      keys := keys - {key};
    }

    method ForgetNamespace(ns: string, keep: set<ObjectKey>)
      modifies this
      ensures keys == set k | k in old(keys) && !(k.ns == ns && k !in keep)
    {
      var todo := keys;
      while todo != {}
        invariant todo <= keys
        invariant keys == set k | k in old(keys) && (k in todo || !(k.ns == ns && k !in keep))
      {
        var k :| k in todo;
        if k.ns == ns && k !in keep { keys := keys - {k}; }
        todo := todo - {k};
      }
    }
  }

  // ---- the host-port reconcile ----

  /** The store, the tracker and the reports after the applies for the keys in `done`. */
  ghost predicate TrackedSoFar(before: map<ObjectKey, Policy>, keysBefore: set<ObjectKey>,
                               wanted: map<ObjectKey, Policy>, done: set<ObjectKey>, applied: set<ObjectKey>,
                               policies: map<ObjectKey, Policy>, keys: set<ObjectKey>, reported: set<ObjectKey>)
  {
    && applied <= done <= wanted.Keys
    && (forall k :: Lookup(policies, k) == if k in applied && k in wanted then Some(wanted[k]) else Lookup(before, k))
    && keys == keysBefore + applied
    && reported == set k | k in applied && k !in before && k in keysBefore
  }

  lemma ApplyTracked(before: map<ObjectKey, Policy>, keysBefore: set<ObjectKey>, wanted: map<ObjectKey, Policy>,
                     done: set<ObjectKey>, applied: set<ObjectKey>, policies: map<ObjectKey, Policy>,
                     keys: set<ObjectKey>, reported: set<ObjectKey>, k: ObjectKey)
    requires TrackedSoFar(before, keysBefore, wanted, done, applied, policies, keys, reported)
    requires k in wanted && k !in done
    ensures TrackedSoFar(before, keysBefore, wanted, done + {k}, applied, policies, keys, reported)
    ensures TrackedSoFar(before, keysBefore, wanted, done + {k}, applied + {k}, policies[k := wanted[k]], keys + {k},
                         if k !in policies && k in keys then reported + {k} else reported)
  {
  }

  /** The keys done are those applied and those that failed. */
  ghost predicate Parted(done: set<ObjectKey>, applied: set<ObjectKey>, failed: set<ObjectKey>) {
    applied + failed == done && applied !! failed
  }

  lemma PartedSteps(done: set<ObjectKey>, applied: set<ObjectKey>, failed: set<ObjectKey>, k: ObjectKey)
    requires Parted(done, applied, failed)
    ensures |done - applied| == Size(failed) && (done == applied <==> Size(failed) == 0)
    ensures k !in done ==> Parted(done + {k}, applied + {k}, failed) && Parted(done + {k}, applied, failed + {k})
    ensures k !in done ==> Size(failed + {k}) == Size(failed) + 1
  {
    SizeSteps(failed, k);
    assert done - applied == failed;
    assert |failed| == 0 <==> failed == {};
  }

  lemma TrackingStarts(before: map<ObjectKey, Policy>, keys: set<ObjectKey>, wanted: map<ObjectKey, Policy>)
    ensures TrackedSoFar(before, keys, wanted, {}, {}, before, keys, {}) && Parted({}, {}, {})
  {
  }

  method ApplyHostPort(store: Store, tracker: PolicyTracker, k: ObjectKey, policy: Policy)
    returns (fails: bool, restored: bool)
    modifies tracker, store`policies, store`writes, store`failed, store`failures
    ensures fails ==> store.policies == old(store.policies) && tracker.keys == old(tracker.keys) && store.failed
    ensures !fails ==> store.policies == old(store.policies)[k := policy] && tracker.keys == old(tracker.keys) + {k}
    ensures !fails ==> (restored <==> k !in old(store.policies) && k in old(tracker.keys))
    ensures !fails ==> store.failed == old(store.failed)
    ensures store.failures == old(store.failures) + if fails then 1 else 0
  {
    var created := store.Apply(k, policy);
    if created.Err? { return true, false; }
    restored := tracker.Applied(k, created.value);
    fails := false;
  }

  /** The apply loop over the wanted policies; a failed apply does not stop it, and keeps its key tracked. */
  method ApplyHostPorts(store: Store, tracker: PolicyTracker, policies: seq<(ObjectKey, Policy)>,
                        ghost wanted: map<ObjectKey, Policy>)
    returns (ok: bool, reported: set<ObjectKey>, ghost applied: set<ObjectKey>)
    requires ListsExactly(policies, wanted)
    modifies tracker, store`policies, store`writes, store`failed, store`failures
    ensures TrackedSoFar(old(store.policies), old(tracker.keys), wanted, wanted.Keys, applied, store.policies,
                         tracker.keys, reported)
    ensures ok <==> applied == wanted.Keys
    ensures |wanted.Keys - applied| == store.failures - old(store.failures)
    ensures ok ==> store.failed == old(store.failed)
    ensures !ok ==> store.failed
  {
    hide Size, TrackedSoFar, Parted, DoneUpTo, ListsExactly;
    ghost var before, keysBefore, done := store.policies, tracker.keys, {};
    ok, reported, applied := true, {}, {};
    TrackingStarts(before, keysBefore, wanted);
    NothingDone(policies);
    ghost var failed: set<ObjectKey> := {};
    SizeSteps(failed, ObjectKey("", ""));
    for i := 0 to |policies|
      invariant DoneUpTo(policies, i, done)
      invariant TrackedSoFar(before, keysBefore, wanted, done, applied, store.policies, tracker.keys, reported)
      invariant Parted(done, applied, failed) && (ok <==> Size(failed) == 0)
      invariant Size(failed) == store.failures - old(store.failures)
      invariant if ok then store.failed == old(store.failed) else store.failed
    {
      var (k, policy) := policies[i];
      DoneSteps(policies, wanted, i, done);
      ApplyTracked(before, keysBefore, wanted, done, applied, store.policies, tracker.keys, reported, k);
      PartedSteps(done, applied, failed, k);
      var fails, restored := ApplyHostPort(store, tracker, k, policy);
      if fails {
        ok, failed := false, failed + {k};
      } else {
        reported, applied := if restored then reported + {k} else reported, applied + {k};
      }
      done := done + {k};
    }
    DoneSteps(policies, wanted, |policies|, done);
    PartedSteps(done, applied, failed, ObjectKey("", ""));
  }

  /** What this reconcile wants when the namespace is managed and has not opted out. */
  ghost function WantedIn(cfg: Config, c: Cluster, ns: string, optedOut: bool, wanted: map<ObjectKey, Policy>)
    : map<ObjectKey, Policy>
  {
    if Managed(cfg, c, ns) && !optedOut then wanted else map[]
  }

  method SweepOwner(store: Store, o: Owner, keep: set<ObjectKey>) returns (ok: bool, ghost left: set<ObjectKey>)
    modifies store`policies, store`writes, store`failed, store`failures
    ensures store.policies ==
            old(store.policies) - (Selected(old(store.policies), (k, p) => Sweeps(o, k, p), keep) - left)
    ensures ok ==> left == {} && store.failed == old(store.failed)
    ensures !ok ==> store.failed
  {
    var selects := (k: ObjectKey, p: Policy) => Sweeps(o, k, p);
    assert Selected(store.policies, selects, keep) == Selected(store.policies, (k, p) => Sweeps(o, k, p), keep);
    ok, left := store.Sweep(selects, keep);
  }

  lemma SweptReconciles(o: Owner, wanted: map<ObjectKey, Policy>, ok: bool, clean: bool, before: map<ObjectKey, Policy>,
                        applied: set<ObjectKey>, policies: map<ObjectKey, Policy>, left: set<ObjectKey>)
    requires applied <= wanted.Keys && (ok ==> applied == wanted.Keys) && (clean ==> ok && left == {})
    requires forall k ::
               Lookup(policies, k) == if k in applied && k in wanted then Some(wanted[k]) else Lookup(before, k)
    ensures Reconciles(map[o := wanted], o, clean, before,
                       policies - (Selected(policies, (k, p) => Sweeps(o, k, p), wanted.Keys) - left))
  {
  }

  /** What a reconcile that speaks for a whole namespace leaves behind. */
  ghost predicate NamespaceOutcome(
    o: Owner, c: Cluster, ns: string, wanted: map<ObjectKey, Policy>, ok: bool, round: Round, reported: set<ObjectKey>,
    keysBefore: set<ObjectKey>, keys: set<ObjectKey>, before: map<ObjectKey, Policy>, after: map<ObjectKey, Policy>)
  {
    && keys == NextKeys(keysBefore, round) && reported == Restored(keysBefore, round)
    && (round.Round? ==>
          round.remit == InNamespace(ns) && round.wanted == wanted.Keys && round.applied <= wanted.Keys &&
          forall k | k in round.applied :: k in round.created <==> k !in before)
    && (if round.Round? && ns in c.namespaces then Reconciles(map[o := wanted], o, ok, before, after)
        else after == before)
  }

  lemma ForgottenRound(keys: set<ObjectKey>, ns: string)
    ensures NextKeys(keys, Round(InNamespace(ns), {}, {}, {})) == set k | k in keys && !(k.ns == ns && k !in {})
    ensures Restored(keys, Round(InNamespace(ns), {}, {}, {})) == {}
  {
  }

  /** Opt-out, or an unmanaged namespace: nothing is wanted, so everything is forgotten and swept. */
  method DropAll(rd: Reader, store: Store, tracker: PolicyTracker, o: Owner, ns: string)
    returns (ok: bool, ghost round: Round)
    requires !store.failed && ns in rd.c.namespaces
    modifies tracker, store`policies, store`writes, store`failed, store`failures
    ensures NamespaceOutcome(o, rd.c, ns, map[], ok, round, {}, old(tracker.keys), tracker.keys,
                             old(store.policies), store.policies)
    ensures (ok <==> !store.failed) && round.Round?
  {
    ghost var before := store.policies;
    round := Round(InNamespace(ns), {}, {}, {});
    ForgottenRound(tracker.keys, ns);
    tracker.ForgetNamespace(ns, {});
    ghost var left;
    ok, left := SweepOwner(store, o, {});
    ghost var nothing: map<ObjectKey, Policy> := map[];
    assert nothing.Keys == {};
    SweptReconciles(o, nothing, true, ok, before, {}, before, left);
  }

  lemma AppliedRound(ns: string, wanted: map<ObjectKey, Policy>, before: map<ObjectKey, Policy>,
                     keysBefore: set<ObjectKey>, applied: set<ObjectKey>, policies: map<ObjectKey, Policy>,
                     keys: set<ObjectKey>, reported: set<ObjectKey>)
    requires TrackedSoFar(before, keysBefore, wanted, wanted.Keys, applied, policies, keys, reported)
    ensures var round := Round(InNamespace(ns), wanted.Keys, applied, set k | k in applied && k !in before);
      && NextKeys(keysBefore, round) == (set k | k in keys && !(k.ns == ns && k !in wanted.Keys))
      && Restored(keysBefore, round) == reported
  {
  }

  /** A managed namespace: apply, forget what is no longer wanted, sweep. */
  method ApplyAndSweepHostPorts(cfg: Config, rd: Reader, store: Store, tracker: PolicyTracker, ns: string,
                                policies: seq<(ObjectKey, Policy)>, ghost wanted: map<ObjectKey, Policy>)
    returns (ok: bool, reported: set<ObjectKey>, ghost round: Round)
    requires !store.failed && ns in rd.c.namespaces && ListsExactly(policies, wanted)
    modifies tracker, store`policies, store`writes, store`failed, store`failures
    ensures NamespaceOutcome(OfHost(ns), rd.c, ns, wanted, ok, round, reported, old(tracker.keys), tracker.keys,
                            old(store.policies), store.policies)
    ensures (ok <==> !store.failed) && round.Round?
  {
    ghost var before, keysBefore := store.policies, tracker.keys;
    var keep := set p | p in policies :: p.0;
    KeysListed(policies, wanted);
    var applyOk;
    ghost var applied;
    applyOk, reported, applied := ApplyHostPorts(store, tracker, policies, wanted);
    AppliedRound(ns, wanted, before, keysBefore, applied, store.policies, tracker.keys, reported);
    round := Round(InNamespace(ns), wanted.Keys, applied, set k | k in applied && k !in before);
    tracker.ForgetNamespace(ns, keep);
    ghost var current := store.policies;
    var sweepOk;
    ghost var left;
    sweepOk, left := SweepOwner(store, OfHost(ns), keep);
    ok := applyOk && sweepOk;
    SweptReconciles(OfHost(ns), wanted, applyOk, ok, before, applied, current, left);
  }

  /**
   * The host-port reconcile of a namespace; `policies` are those of the host ports its pods declare. It reports a
   * restore for exactly the tracked policies it found missing, keeps tracking what failed to apply, and touches no
   * policy of another family.
   */
  method ReconcileHostPorts(cfg: Config, rd: Reader, store: Store, tracker: PolicyTracker, ns: string, optedOut: bool,
                            policies: seq<(ObjectKey, Policy)>, ghost wanted: map<ObjectKey, Policy>)
    returns (ok: bool, reported: set<ObjectKey>, ghost round: Round)
    requires !rd.failed && !store.failed && ListsExactly(policies, wanted)
    modifies rd, tracker, store`policies, store`writes, store`failed, store`failures
    ensures NamespaceOutcome(OfHost(ns), rd.c, ns, WantedIn(cfg, rd.c, ns, optedOut, wanted), ok, round, reported,
                            old(tracker.keys), tracker.keys, old(store.policies), store.policies)
    ensures ok <==> !rd.failed && !store.failed
    ensures ok && round.Skipped? ==> Terminating(rd.c, ns)
    ensures Terminating(rd.c, ns) ==> round.Skipped?
  {
    hide Reconciles;
    reported, round := {}, Skipped;
    var read := rd.Read(Lookup(rd.c.namespaces, ns));
    if read.Err? { return false, {}, Skipped; }
    if read.value.None? {
      round := Round(InNamespace(ns), {}, {}, {});
      ForgottenRound(tracker.keys, ns);
      tracker.ForgetNamespace(ns, {});
      return true, {}, round;
    }
    if read.value.value.terminating { return true, {}, Skipped; }
    if ns in cfg.excluded || read.value.value.disabled || optedOut {
      ok, round := DropAll(rd, store, tracker, OfHost(ns), ns);
      return;
    }
    var list := rd.Read(());
    if list.Err? { return false, {}, Skipped; }
    ok, reported, round := ApplyAndSweepHostPorts(cfg, rd, store, tracker, ns, policies, wanted);
  }

  lemma ConvergedAt(o: Owner, wanted: map<ObjectKey, Policy>, policies: map<ObjectKey, Policy>, k: ObjectKey)
    requires OwnerConverged(map[o := wanted], o, policies)
    ensures if k in wanted then Lookup(policies, k) == Some(wanted[k]) else k in policies ==> !Sweeps(o, k, policies[k])
  {
    hide Sweeps;
    assert k in policies ==> Lookup(policies, k) == Some(policies[k]);
  }

  /**
   * What a clean host-port reconcile leaves, on the fields: the wanted policies and no other of that source, or none
   * where the namespace is excluded, disabled or opted out.
   */
  lemma HostPortsLeft(cfg: Config, c: Cluster, ns: string, optedOut: bool, wanted: map<ObjectKey, Policy>,
                      before: map<ObjectKey, Policy>, after: map<ObjectKey, Policy>, k: ObjectKey)
    requires ns in c.namespaces
    requires Reconciles(map[OfHost(ns) := WantedIn(cfg, c, ns, optedOut, wanted)], OfHost(ns), true, before, after)
    ensures optedOut || ns in cfg.excluded || c.namespaces[ns].disabled ==>
              !(k in after && k.ns == ns && IsHostPort(after[k]))
    ensures !optedOut && ns !in cfg.excluded && !c.namespaces[ns].disabled ==>
              (k in wanted ==> Lookup(after, k) == Some(wanted[k])) &&
              (k in after && k.ns == ns && IsHostPort(after[k]) ==> k in wanted)
  {
    hide Reconciles, OwnerConverged;
    var o, wants := OfHost(ns), WantedIn(cfg, c, ns, optedOut, wanted);
    CleanReconcileConverges(map[o := wants], o, before, after);
    ConvergedAt(o, wants, after, k);
  }

  predicate IsHostPort(p: Policy) {
    Lookup(p.labels, ManagedBy) == Some("kube-vnet") && Lookup(p.labels, Role) == Some("external-allow") &&
    Lookup(p.labels, SourceKind) == Some("host")
  }

  // ---- reconciles that speak for one policy ----

  ghost predicate OnePolicyOutcome(
    o: Owner, key: ObjectKey, wanted: map<ObjectKey, Policy>, ok: bool, round: Round, restored: bool,
    keysBefore: set<ObjectKey>, keys: set<ObjectKey>, before: map<ObjectKey, Policy>, after: map<ObjectKey, Policy>)
  {
    && keys == NextKeys(keysBefore, round) && (restored <==> key in Restored(keysBefore, round))
    && (round.Round? ==>
          Covers(round.remit, key) && round.wanted == wanted.Keys && round.applied <= wanted.Keys &&
          forall k | k in round.applied :: k in round.created <==> k !in before)
    && Reconciles(map[o := wanted], o, ok && round.Round?, before, after)
  }

  lemma UntouchedReconciles(o: Owner, wanted: map<ObjectKey, Policy>, policies: map<ObjectKey, Policy>)
    ensures Reconciles(map[o := wanted], o, false, policies, policies)
  {
  }

  lemma UntouchedOutcome(o: Owner, key: ObjectKey, wanted: map<ObjectKey, Policy>, ok: bool, keys: set<ObjectKey>,
                         policies: map<ObjectKey, Policy>)
    ensures OnePolicyOutcome(o, key, wanted, ok, Skipped, false, keys, keys, policies, policies)
  {
  }

  /** No policy is wanted: what there was is forgotten and swept. */
  method DropPolicy(store: Store, tracker: PolicyTracker, o: Owner, key: ObjectKey)
    returns (ok: bool, ghost round: Round)
    requires !store.failed
    modifies tracker, store`policies, store`writes, store`failed, store`failures
    ensures OnePolicyOutcome(o, key, map[], ok, round, false, old(tracker.keys), tracker.keys,
                             old(store.policies), store.policies)
    ensures ok <==> !store.failed
    ensures round.Round?
  {
    ghost var before := store.policies;
    round := Round(Only(key), {}, {}, {});
    tracker.Forget(key);
    ghost var left;
    ok, left := SweepOwner(store, o, {});
    ghost var nothing: map<ObjectKey, Policy> := map[];
    assert nothing.Keys == {};
    SweptReconciles(o, nothing, true, ok, before, {}, before, left);
  }

  /** This policy is wanted: apply it, report a restore, and sweep the owner's other policies. */
  method ApplyPolicy(store: Store, tracker: PolicyTracker, o: Owner, key: ObjectKey, policy: Policy)
    returns (ok: bool, restored: bool, ghost round: Round)
    requires !store.failed
    modifies tracker, store`policies, store`writes, store`failed, store`failures
    ensures OnePolicyOutcome(o, key, map[key := policy], ok, round, restored, old(tracker.keys), tracker.keys,
                             old(store.policies), store.policies)
    ensures ok <==> !store.failed
    ensures ok ==> round.Round?
  {
    ghost var before := store.policies;
    ghost var wanted := map[key := policy];
    var created := store.Apply(key, policy);
    if created.Err? {
      UntouchedReconciles(o, wanted, before);
      return false, false, Skipped;
    }
    restored := tracker.Applied(key, created.value);
    round := Round(Only(key), {key}, {key}, if key in before then {} else {key});
    ghost var current := store.policies;
    ghost var left;
    ok, left := SweepOwner(store, o, {key});
    assert wanted.Keys == {key};
    SweptReconciles(o, wanted, true, ok, before, {key}, current, left);
  }

  // ---- the baseline reconcile ----

  ghost function WantedBaseline(cfg: Config, c: Cluster, ns: string): map<ObjectKey, Policy> {
    if Managed(cfg, c, ns) then map[ObjectKey(ns, BASELINE_NAME) := DesiredBaseline()] else map[]
  }

  /**
   * The namespace reconcile: a managed namespace has the deny-all baseline and no other policy of that role, an
   * unmanaged one none. A namespace that is gone is forgotten, a terminating one left as it is.
   */
  method ReconcileBaseline(cfg: Config, rd: Reader, store: Store, tracker: PolicyTracker, ns: string)
    returns (ok: bool, restored: bool, ghost round: Round)
    requires !rd.failed && !store.failed
    modifies rd, tracker, store`policies, store`writes, store`failed, store`failures
    ensures OnePolicyOutcome(OfBaseline(ns), ObjectKey(ns, BASELINE_NAME), WantedBaseline(cfg, rd.c, ns),
                             ok && ns in rd.c.namespaces, round, restored, old(tracker.keys), tracker.keys,
                             old(store.policies), store.policies)
    ensures ns !in rd.c.namespaces || Terminating(rd.c, ns) ==> store.policies == old(store.policies)
    ensures Terminating(rd.c, ns) ==> round.Skipped?
    ensures ok <==> !rd.failed && !store.failed
    ensures ok && round.Skipped? ==> Terminating(rd.c, ns)
  {
    var o, key := OfBaseline(ns), ObjectKey(ns, BASELINE_NAME);
    UntouchedReconciles(o, WantedBaseline(cfg, rd.c, ns), store.policies);
    restored, round := false, Skipped;
    var read := rd.Read(Lookup(rd.c.namespaces, ns));
    if read.Err? { return false, false, Skipped; }
    if read.value.None? {
      round := Round(InNamespace(ns), {}, {}, {});
      ForgottenRound(tracker.keys, ns);
      tracker.ForgetNamespace(ns, {});
      return true, false, round;
    }
    if read.value.value.terminating { return true, false, Skipped; }
    if ns in cfg.excluded || read.value.value.disabled {
      ok, round := DropAll(rd, store, tracker, o, ns);
      return;
    }
    ok, restored, round := ApplyPolicy(store, tracker, o, key, DesiredBaseline());
  }

  /**
   * What a clean baseline reconcile leaves in a namespace, on its fields: the policy that denies all ingress to every
   * pod, and no other of that role; or none at all where the namespace is excluded or disabled.
   */
  lemma BaselineLeft(cfg: Config, c: Cluster, ns: string, before: map<ObjectKey, Policy>,
                     after: map<ObjectKey, Policy>, k: ObjectKey)
    requires ns in c.namespaces
    requires Reconciles(map[OfBaseline(ns) := WantedBaseline(cfg, c, ns)], OfBaseline(ns), true, before, after)
    ensures k in after && k.ns == ns && IsBaseline(after[k]) ==>
              k.name == BASELINE_NAME && ns !in cfg.excluded && !c.namespaces[ns].disabled
    ensures ns !in cfg.excluded && !c.namespaces[ns].disabled ==>
              ObjectKey(ns, BASELINE_NAME) in after && IsBaseline(after[ObjectKey(ns, BASELINE_NAME)]) &&
              after[ObjectKey(ns, BASELINE_NAME)].ingress == [] &&
              forall labels :: Selects(after[ObjectKey(ns, BASELINE_NAME)].podSelector, labels)
  {
    hide Selects, Reconciles, OwnerConverged, Sweeps, DesiredBaseline, IsBaseline;
    var o, key := OfBaseline(ns), ObjectKey(ns, BASELINE_NAME);
    CleanReconcileConverges(map[o := WantedBaseline(cfg, c, ns)], o, before, after);
    ConvergedAt(o, WantedBaseline(cfg, c, ns), after, key);
    ConvergedAt(o, WantedBaseline(cfg, c, ns), after, k);
    BaselineDeniesAll();
    if k in after { BaselineIsSwept(ns, k, after[k]); }
  }

  predicate IsBaseline(p: Policy) {
    Lookup(p.labels, ManagedBy) == Some("kube-vnet") && Lookup(p.labels, Role) == Some("baseline")
  }

  lemma BaselineDeniesAll()
    ensures IsBaseline(DesiredBaseline()) && DesiredBaseline().ingress == []
    ensures forall labels :: Selects(DesiredBaseline().podSelector, labels)
  {
  }

  lemma BaselineIsSwept(ns: string, k: ObjectKey, p: Policy)
    ensures k.ns == ns && IsBaseline(p) ==> Sweeps(OfBaseline(ns), k, p)
  {
  }

  // ---- the two Service reconciles ----

  /** Which Service-owned policy: external-allow, or apiserver-reachable on the ports the apiserver refers to. */
  datatype ServicePolicy = External | Reachable(ports: seq<int>, cidr: string) {
    function Kind(): (kind: string)
      ensures ServiceKind(kind) && |kind| <= 9
    {
      if External? then SVC else APISERVER
    }

    /** The policy of a Service, its key, its owner and its source label. */
    function Key(cfg: Config, ns: string, name: string): ObjectKey {
      ObjectKey(ns, ServicePolicyName(cfg.hash, Kind(), ns, name))
    }

    function OwnerIn(ns: string, name: string, uid: string): Owner {
      if External? then OfService(ns, name, uid) else OfApiserver(ns, name, uid)
    }

    /** Only a Service with a cluster IP and a selector that something refers to needs the apiserver to reach it. */
    predicate Reached(svc: Service) {
      Reachable? && !svc.headless && !svc.kind.ExternalName? && |svc.selector| > 0 && ports != []
    }

    ghost function DesiredFor(svc: Service, source: string, pods: set<Backend>): Result<Option<Policy>> {
      if External? then ExternalAllow(svc, source, pods)
      else if !Reached(svc) then Ok(None)
      else match ApiserverReachable(svc, source, ports, cidr, pods)
           case Err => Err
           case Ok(p) => Ok(Some(p))
    }
  }

  /** The policy the Service should have now; a Service waiting for a named port is undecided. */
  ghost function WantedPolicy(cfg: Config, c: Cluster, what: ServicePolicy, ns: string, name: string, svc: Service,
                              optedOut: bool, pods: set<Backend>): Result<Option<Policy>>
  {
    if !Managed(cfg, c, ns) || optedOut then Ok(None)
    else match what.DesiredFor(svc, SourceValue(cfg.hash, what.Kind(), ns, name), pods)
         case Err => Err
         case Ok(None) => Ok(None)
         case Ok(Some(p)) => Ok(Some(ControlledBy(p, name, svc.uid)))
  }

  ghost function WantedMap(key: ObjectKey, wanted: Result<Option<Policy>>): map<ObjectKey, Policy> {
    if wanted.Ok? && wanted.value.Some? then map[key := wanted.value.value] else map[]
  }

  /**
   * Which Services have a policy, on the fields. Nothing is wanted for one that has opted out, or whose namespace is
   * gone, excluded or disabled; or that has no pods of its own to reach; or, for the apiserver, that has no cluster IP
   * or that nothing refers to. What is wanted is controlled by the Service.
   */
  lemma ServiceWants(cfg: Config, c: Cluster, what: ServicePolicy, ns: string, name: string, svc: Service,
                     optedOut: bool, pods: set<Backend>)
    ensures var wanted := WantedPolicy(cfg, c, what, ns, name, svc, optedOut, pods);
      && (wanted == Ok(None) <==>
            || optedOut || ns !in c.namespaces || ns in cfg.excluded || c.namespaces[ns].disabled
            || svc.selector == map[] || svc.headless || svc.kind.ExternalName?
            || (what.External? && svc.kind.ClusterIP? && svc.externalIPs == [])
            || (what.Reachable? && what.ports == []))
      && (wanted.Ok? && wanted.value.Some? ==> wanted.value.value.owners == [OwnerRef("Service", name, svc.uid, true)])
  {
    hide SourceValue, ServicePolicy.DesiredFor;
    UndesiredIff(what, svc, SourceValue(cfg.hash, what.Kind(), ns, name), pods);
  }

  lemma UndesiredIff(what: ServicePolicy, svc: Service, source: string, pods: set<Backend>)
    ensures what.DesiredFor(svc, source, pods) == Ok(None) <==>
            || svc.selector == map[] || svc.headless || svc.kind.ExternalName?
            || (what.External? && svc.kind.ClusterIP? && svc.externalIPs == [])
            || (what.Reachable? && what.ports == [])
  {
    hide ApiserverReachable;
    assert svc.selector == map[] <==> |svc.selector| == 0;
  }

  lemma UnservedWantsNothing(cfg: Config, c: Cluster, what: ServicePolicy, ns: string, name: string, svc: Service,
                             optedOut: bool, pods: set<Backend>)
    requires !Managed(cfg, c, ns) || optedOut
    ensures WantedPolicy(cfg, c, what, ns, name, svc, optedOut, pods) == Ok(None)
    ensures WantedMap(what.Key(cfg, ns, name), WantedPolicy(cfg, c, what, ns, name, svc, optedOut, pods)) == map[]
  {
  }

  lemma DesiredIsEmitted(hash: HashFn, what: ServicePolicy, svc: Service, name: string, pods: set<Backend>,
                         k: ObjectKey)
    ensures var desired := what.DesiredFor(svc, SourceValue(hash, what.Kind(), k.ns, name), pods);
      desired.Ok? && desired.value.Some? ==>
        Emits(hash, what.OwnerIn(k.ns, name, svc.uid), k, ControlledBy(desired.value.value, name, svc.uid))
  {
    hide Emits, ExternalAllow, ApiserverReachable, SourceValue, ControlledBy;
    match what
    case External => ExposedEmits(hash, svc, k.ns, name, pods, k);
    case Reachable(ports, cidr) => DialedEmits(hash, svc, k.ns, name, pods, ports, cidr, k);
  }

  /** The policy of a Service is one its owner emits, under a key it uses. */
  lemma WantedIsEmitted(cfg: Config, c: Cluster, what: ServicePolicy, ns: string, name: string, svc: Service,
                        optedOut: bool, pods: set<Backend>, k: ObjectKey)
    requires k in WantedMap(what.Key(cfg, ns, name), WantedPolicy(cfg, c, what, ns, name, svc, optedOut, pods))
    ensures Emits(cfg.hash, what.OwnerIn(ns, name, svc.uid), k,
                  WantedMap(what.Key(cfg, ns, name), WantedPolicy(cfg, c, what, ns, name, svc, optedOut, pods))[k])
    ensures UsesKey(cfg, what.OwnerIn(ns, name, svc.uid), k)
  {
    hide Emits, SourceValue, ServicePolicyName, ControlledBy, Managed, ServicePolicy.DesiredFor;
    DesiredIsEmitted(cfg.hash, what, svc, name, pods, k);
  }

  /** Collects what the builders need, each read of which can fail, and builds. */
  method BuildDesired(rd: Reader, what: ServicePolicy, svc: Service, source: string, pods: seq<Backend>)
    returns (read: bool, r: Result<Option<Policy>>)
    modifies rd
    ensures read ==> r == what.DesiredFor(svc, source, Elements(pods)) && rd.failed == old(rd.failed)
    ensures !read ==> rd.failed
  {
    r := Ok(None);
    match what
    case External =>
      var list := rd.Read(());
      if list.Err? { return false, r; }
      r := BuildExternalAllowPolicy(svc, source, pods);
      read := true;
    case Reachable(_, cidr) =>
      if svc.headless || svc.kind.ExternalName? || |svc.selector| == 0 { return true, r; }
      var ports := rd.Read(what.ports);
      if ports.Err? { return false, r; }
      if ports.value == [] { return true, r; }
      var list := rd.Read(());
      if list.Err? { return false, r; }
      var built := BuildApiserverReachablePolicy(svc, source, pods, ports.value, cidr);
      r := if built.Ok? then Ok(Some(built.value)) else Err;
      read := true;
  }

  /** A Service in a managed namespace that has not opted out. */
  method ServeService(cfg: Config, rd: Reader, store: Store, tracker: PolicyTracker, what: ServicePolicy, ns: string,
                      name: string, svc: Service, pods: seq<Backend>)
    returns (ok: bool, restored: bool, ghost round: Round)
    requires !rd.failed && !store.failed && Managed(cfg, rd.c, ns)
    modifies rd, tracker, store`policies, store`writes, store`failed, store`failures
    ensures var wanted := WantedPolicy(cfg, rd.c, what, ns, name, svc, false, Elements(pods));
      && OnePolicyOutcome(what.OwnerIn(ns, name, svc.uid), what.Key(cfg, ns, name),
                          WantedMap(what.Key(cfg, ns, name), wanted), ok, round, restored,
                          old(tracker.keys), tracker.keys, old(store.policies), store.policies)
      && (ok && round.Skipped? ==> wanted.Err?)
      && (wanted.Err? ==> round.Skipped? && store.policies == old(store.policies))
    ensures ok <==> !rd.failed && !store.failed
  {
    hide OnePolicyOutcome, Managed, SourceValue, ControlledBy, ServicePolicy.DesiredFor, ServicePolicyName;
    var o, key := what.OwnerIn(ns, name, svc.uid), what.Key(cfg, ns, name);
    ghost var wanted := WantedPolicy(cfg, rd.c, what, ns, name, svc, false, Elements(pods));
    UntouchedOutcome(o, key, WantedMap(key, wanted), false, tracker.keys, store.policies);
    UntouchedOutcome(o, key, WantedMap(key, wanted), true, tracker.keys, store.policies);
    restored, round := false, Skipped;
    var read, desired := BuildDesired(rd, what, svc, SourceValue(cfg.hash, what.Kind(), ns, name), pods);
    if !read { return false, false, Skipped; }
    if desired.Err? { return true, false, Skipped; }
    if desired.value.None? {
      ok, round := DropPolicy(store, tracker, o, key);
      return;
    }
    ok, restored, round := ApplyPolicy(store, tracker, o, key, ControlledBy(desired.value.value, name, svc.uid));
  }

  /** A Service in a namespace that is not terminating. */
  method ServeOrDrop(cfg: Config, rd: Reader, store: Store, tracker: PolicyTracker, what: ServicePolicy, ns: string,
                     name: string, svc: Service, live: Namespace, optedOut: bool, pods: seq<Backend>)
    returns (ok: bool, restored: bool, ghost round: Round)
    requires !rd.failed && !store.failed && Lookup(rd.c.namespaces, ns) == Some(live)
    modifies rd, tracker, store`policies, store`writes, store`failed, store`failures
    ensures var wanted := WantedPolicy(cfg, rd.c, what, ns, name, svc, optedOut, Elements(pods));
      && OnePolicyOutcome(what.OwnerIn(ns, name, svc.uid), what.Key(cfg, ns, name),
                          WantedMap(what.Key(cfg, ns, name), wanted), ok, round, restored,
                          old(tracker.keys), tracker.keys, old(store.policies), store.policies)
      && (ok && round.Skipped? ==> wanted.Err?)
      && (wanted.Err? ==> round.Skipped? && store.policies == old(store.policies))
    ensures ok <==> !rd.failed && !store.failed
  {
    hide OnePolicyOutcome, WantedPolicy, WantedMap, ServicePolicy.Key, ServicePolicy.OwnerIn;
    if ns in cfg.excluded || live.disabled || optedOut {
      UnservedWantsNothing(cfg, rd.c, what, ns, name, svc, optedOut, Elements(pods));
      restored := false;
      ok, round := DropPolicy(store, tracker, what.OwnerIn(ns, name, svc.uid), what.Key(cfg, ns, name));
    } else {
      ok, restored, round := ServeService(cfg, rd, store, tracker, what, ns, name, svc, pods);
    }
  }

  /**
   * The reconcile of a Service for one of its policies. While a named port has no backing pod, or the namespace
   * is terminating, nothing changes and nothing is forgotten.
   */
  method ReconcileService(cfg: Config, rd: Reader, store: Store, tracker: PolicyTracker, what: ServicePolicy,
                          ns: string, name: string, svc: Service, optedOut: bool, pods: seq<Backend>)
    returns (ok: bool, restored: bool, ghost round: Round)
    requires !rd.failed && !store.failed && ns in rd.c.namespaces
    modifies rd, tracker, store`policies, store`writes, store`failed, store`failures
    ensures var wanted := WantedPolicy(cfg, rd.c, what, ns, name, svc, optedOut, Elements(pods));
      && OnePolicyOutcome(what.OwnerIn(ns, name, svc.uid), what.Key(cfg, ns, name),
                          WantedMap(what.Key(cfg, ns, name), wanted), ok, round, restored,
                          old(tracker.keys), tracker.keys, old(store.policies), store.policies)
      && (ok && round.Skipped? ==> Terminating(rd.c, ns) || wanted.Err?)
      && (Terminating(rd.c, ns) || wanted.Err? ==> round.Skipped? && store.policies == old(store.policies))
    ensures ok <==> !rd.failed && !store.failed
  {
    hide OnePolicyOutcome, WantedPolicy, WantedMap, ServicePolicy.Key, ServicePolicy.OwnerIn;
    var o, key := what.OwnerIn(ns, name, svc.uid), what.Key(cfg, ns, name);
    ghost var wanted := WantedMap(key, WantedPolicy(cfg, rd.c, what, ns, name, svc, optedOut, Elements(pods)));
    UntouchedOutcome(o, key, wanted, false, tracker.keys, store.policies);
    UntouchedOutcome(o, key, wanted, true, tracker.keys, store.policies);
    restored, round := false, Skipped;
    var read := rd.Read(Lookup(rd.c.namespaces, ns));
    if read.Err? { return false, false, Skipped; }
    if read.value.value.terminating { return true, false, Skipped; }
    ok, restored, round :=
      ServeOrDrop(cfg, rd, store, tracker, what, ns, name, svc, read.value.value, optedOut, pods);
  }

  /**
   * The reconcile of a Service, or a namespace, that is gone: its policy is forgotten, and swept by its source label.
   * It is the turn of a gone Service, a clean one unless something failed.
   */
  method ForgetService(cfg: Config, store: Store, tracker: PolicyTracker, what: ServicePolicy, ns: string, name: string,
                       serviceGone: bool)
    returns (ok: bool)
    requires !store.failed
    modifies tracker, store`policies, store`writes, store`failed, store`failures
    ensures tracker.keys == NextKeys(old(tracker.keys), Round(Only(what.Key(cfg, ns, name)), {}, {}, {}))
    ensures ok <==> !store.failed
    ensures serviceGone ==> Forgotten(cfg.hash, what.Kind(), ns, name, ok, old(store.policies), store.policies)
    ensures !serviceGone ==> store.policies == old(store.policies)
  {
    hide SweepsByKey, SourceValue, ServicePolicyName;
    tracker.Forget(what.Key(cfg, ns, name));
    ok := true;
    if serviceGone {
      var selects := (k: ObjectKey, p: Policy) => SweepsByKey(cfg.hash, what.Kind(), ns, name, k, p);
      ghost var left;
      ok, left := store.Sweep(selects, {});
    }
  }
}
