/** The vnet reconcile: apply what is desired, sweep what is stale, under any pattern of failing calls. */
module VnetReconcile {
  import opened Prelude
  import opened Names
  import opened Directions
  import opened Cluster
  import opened Members
  import opened Generator

  // ---- the effect on the policies of the cluster ----

  /** The labels a vnet's policies are listed by: managed, and of this network. */
  predicate OwnedBy(p: Policy, v: ObjectKey) {
    Lookup(p.labels, ManagedBy) == Some(MANAGED_BY_VALUE) && Lookup(p.labels, Network) == Some(NetworkId(v))
  }

  predicate Terminating(c: Cluster, ns: string) {
    ns in c.namespaces && c.namespaces[ns].terminating
  }

  /** Which calls of a reconcile failed: all of it before the first write, or these applies and these deletes. */
  datatype Failures = Aborted | Attempted(applies: set<ObjectKey>, deletes: set<ObjectKey>)

  const NO_FAILURES := Attempted({}, {})

  /** The desired policies that are applied: not in a terminating namespace, and not failing. */
  ghost function Applying(c: Cluster, desired: map<ObjectKey, Policy>, failed: set<ObjectKey>): set<ObjectKey> {
    set k | k in desired && k !in failed && !Terminating(c, k.ns)
  }

  ghost function FailedNamespaces(desired: map<ObjectKey, Policy>, failed: set<ObjectKey>): set<string> {
    set k | k in desired && k in failed :: k.ns
  }

  ghost function Applied(policies: map<ObjectKey, Policy>, desired: map<ObjectKey, Policy>, keys: set<ObjectKey>)
    : map<ObjectKey, Policy>
  {
    map k | k in policies.Keys + keys * desired.Keys :: if k in keys && k in desired then desired[k] else policies[k]
  }

  /** The policies of v that are not desired, outside the spared namespaces. */
  ghost function Stale(policies: map<ObjectKey, Policy>, v: ObjectKey, keep: set<ObjectKey>, spare: set<string>)
    : set<ObjectKey>
  {
    set k | k in policies && OwnedBy(policies[k], v) && k !in keep && k.ns !in spare
  }

  /** The policies after a reconcile of v with these failures. */
  ghost function PoliciesAfter(
    c: Cluster, policies: map<ObjectKey, Policy>, v: ObjectKey, desired: map<ObjectKey, Policy>, f: Failures)
    : map<ObjectKey, Policy>
  {
    match f
    case Aborted => policies
    case Attempted(applies, deletes) =>
      var applied := Applied(policies, desired, Applying(c, desired, applies));
      applied - (Stale(applied, v, desired.Keys, FailedNamespaces(desired, applies)) - deletes)
  }

  // ---- what the reconcile promises ----

  /** Every key under a reconcile with failures, in one case distinction. */
  lemma PolicyAfter(c: Cluster, policies: map<ObjectKey, Policy>, v: ObjectKey, desired: map<ObjectKey, Policy>,
                    f: Failures, k: ObjectKey)
    requires f.Attempted?
    ensures var after := Lookup(PoliciesAfter(c, policies, v, desired, f), k);
      if k in desired then
        after == if k !in f.applies && !Terminating(c, k.ns) then Some(desired[k]) else Lookup(policies, k)
      else if k in policies && OwnedBy(policies[k], v) && k.ns !in FailedNamespaces(desired, f.applies) &&
              k !in f.deletes then
        after.None?
      else after == Lookup(policies, k)
  {
  }

  /**
   * A failing reconcile fails safe. Applied policies match their desired form. If every delete succeeds, no stale
   * policy of v is left outside the namespaces with a failed apply. Nothing in those namespaces and nothing under
   * a desired key is deleted, no policy of another owner is touched unless it sits under a desired key, and nothing is
   * written into a namespace that is terminating.
   */
  lemma PartialFailure(c: Cluster, policies: map<ObjectKey, Policy>, v: ObjectKey, desired: map<ObjectKey, Policy>,
                       f: Failures)
    requires f.Attempted?
    ensures var after := PoliciesAfter(c, policies, v, desired, f);
      && (forall k | k in Applying(c, desired, f.applies) :: Lookup(after, k) == Some(desired[k]))
      && (forall k | k in after && OwnedBy(after[k], v) && f.deletes == {} ::
            k in desired || k.ns in FailedNamespaces(desired, f.applies))
      && (forall k | k in policies && k !in after ::
            OwnedBy(policies[k], v) && k !in desired && k.ns !in FailedNamespaces(desired, f.applies))
      && (forall k | k in policies && !OwnedBy(policies[k], v) && k !in desired ::
            Lookup(after, k) == Some(policies[k]))
      && (forall k, j | k in policies && j in desired && j in f.applies && j.ns == k.ns :: k in after)
      && (forall k | k in after && k.ns in c.namespaces && c.namespaces[k.ns].terminating ::
            Lookup(policies, k) == Some(after[k]))
  {
  }

  // ---- the status ----

  ghost function MemberNames(cfg: Config, c: Cluster, v: ObjectKey, ns: string): set<string> {
    set k | k in c.pods && k.ns == ns && MemberDirection(cfg, c, v, k).Some? :: k.name
  }

  ghost function NamespacesOfMembers(cfg: Config, c: Cluster, v: ObjectKey): set<string> {
    set k | k in c.pods && MemberDirection(cfg, c, v, k).Some? :: k.ns
  }

  function ReadyOf(policies: nat, namespaces: nat, failed: nat, errors: string): Ready {
    if failed > 0 then ApplyFailed(failed, policies, errors)
    else if policies == 0 then NoMembers
    else PoliciesGenerated(policies, namespaces)
  }

  /** firstFew: a message names three joiners and counts them all. */
  function DegradedOf(invalid: seq<(ObjectKey, JoinerReason)>): Degraded {
    if invalid == [] then NoIssues else InvalidJoiners(|invalid|, if |invalid| > 3 then invalid[..3] else invalid)
  }

  const UNSERVED_STATUS := VnetStatus(map[], {}, Some(Conditions(HomeExcluded, DegradedHome)))

  /**
   * The status a reconcile writes when these applies have failed with these errors. The cluster determines all of it
   * but the order of the joiners in the message, which is that of the pod list.
   */
  ghost function StatusOf(cfg: Config, c: Cluster, v: ObjectKey, failed: set<ObjectKey>, pods: seq<ObjectKey>,
                          errors: string): VnetStatus
    requires v in c.vnets
  {
    if Served(cfg, c, v) then ServedStatus(cfg, c, v, failed, DegradedOf(InvalidIn(cfg, c, v, pods)), errors)
    else UNSERVED_STATUS
  }

  ghost function ServedStatus(cfg: Config, c: Cluster, v: ObjectKey, failed: set<ObjectKey>, degraded: Degraded,
                              errors: string): VnetStatus
  {
    var desired := DesiredPolicies(cfg, c, v);
    VnetStatus(
      map ns | ns in NamespacesOfMembers(cfg, c, v) :: MemberNames(cfg, c, v, ns),
      Applying(c, desired, failed),
      Some(Conditions(ReadyOf(|desired|, |NamespacesOfMembers(cfg, c, v)|, |failed|, errors), degraded)))
  }

  /** Whether a reconcile writes the status, and what goes into it that the cluster does not determine. */
  datatype StatusWrite = Unwritten | Written(pods: seq<ObjectKey>, errors: string)

  function Bucket(byDir: map<Base, seq<string>>, b: Base): set<string> {
    if b in byDir then set name | name in byDir[b] else {}
  }

  /** uniquePods: the names of all buckets. */
  function NamesIn(byDir: map<Base, seq<string>>): set<string> {
    Bucket(byDir, Both) + Bucket(byDir, Ingress) + Bucket(byDir, Egress) + Bucket(byDir, NoDir)
  }

  function StatusFrom(m: MembersByNS, applied: set<ObjectKey>, ready: Ready, degraded: Degraded): VnetStatus {
    VnetStatus(map ns | ns in m :: NamesIn(m[ns]), applied, Some(Conditions(ready, degraded)))
  }

  lemma NamesInBuckets(byDir: map<Base, seq<string>>)
    ensures forall name :: name in NamesIn(byDir) <==> exists b :: name in Bucket(byDir, b)
    ensures HasMember(byDir) ==> NamesIn(byDir) != {}
  {
    forall b, name | name in Bucket(byDir, b) ensures name in NamesIn(byDir) {
      match b { case Both => case Ingress => case Egress => case NoDir => }
    }
    if b :| b in byDir && byDir[b] != [] {
      assert byDir[b][0] in Bucket(byDir, b);
      assert byDir[b][0] in NamesIn(byDir);
    }
  }

  lemma NamespacesHaveNames(cfg: Config, c: Cluster, v: ObjectKey, ns: string)
    ensures ns in NamespacesOfMembers(cfg, c, v) <==> MemberNames(cfg, c, v, ns) != {}
  {
    if k :| k in c.pods && k.ns == ns && MemberDirection(cfg, c, v, k).Some? {
      assert k.name in MemberNames(cfg, c, v, ns);
    }
  }

  lemma MemberNamesAt(cfg: Config, c: Cluster, v: ObjectKey, ns: string)
    ensures forall name :: name in MemberNames(cfg, c, v, ns) <==> MemberDirection(cfg, c, v, ObjectKey(ns, name)).Some?
    ensures ns in NamespacesOfMembers(cfg, c, v) <==> MemberNames(cfg, c, v, ns) != {}
  {
    forall name | MemberDirection(cfg, c, v, ObjectKey(ns, name)).Some? ensures name in MemberNames(cfg, c, v, ns) {
      assert ObjectKey(ns, name) in c.pods;
    }
    NamespacesHaveNames(cfg, c, v, ns);
  }

  lemma ListedName(cfg: Config, c: Cluster, v: ObjectKey, m: MembersByNS, ns: string, name: string)
    requires ListsMembers(cfg, c, v, m, {})
    ensures (exists b :: ns in m && name in Bucket(m[ns], b)) <==>
            MemberDirection(cfg, c, v, ObjectKey(ns, name)).Some?
  {
    assert forall b :: (ns in m && name in Bucket(m[ns], b)) <==> Listed(m, ns, b, name);
    if MemberDirection(cfg, c, v, ObjectKey(ns, name)).Some? {
      assert Listed(m, ns, MemberDirection(cfg, c, v, ObjectKey(ns, name)).value, name);
    }
  }

  lemma ListedNames(cfg: Config, c: Cluster, v: ObjectKey, m: MembersByNS, ns: string)
    requires ListsMembers(cfg, c, v, m, {}) && NoEmptyNamespace(m)
    ensures ns in m <==> ns in NamespacesOfMembers(cfg, c, v)
    ensures ns in m ==> NamesIn(m[ns]) == MemberNames(cfg, c, v, ns)
  {
    hide ListsMembers, MemberNames, NamesIn, NamespacesOfMembers, MemberDirection, Bucket;
    MemberNamesAt(cfg, c, v, ns);
    if ns in m { NamesInBuckets(m[ns]); }
    forall name ensures (ns in m && name in NamesIn(m[ns])) <==> name in MemberNames(cfg, c, v, ns) {
      ListedName(cfg, c, v, m, ns, name);
    }
  }

  lemma ListedMembers(cfg: Config, c: Cluster, v: ObjectKey, m: MembersByNS)
    requires ListsMembers(cfg, c, v, m, {}) && NoEmptyNamespace(m)
    ensures (map ns | ns in m :: NamesIn(m[ns])) ==
            (map ns | ns in NamespacesOfMembers(cfg, c, v) :: MemberNames(cfg, c, v, ns))
    ensures m.Keys == NamespacesOfMembers(cfg, c, v)
  {
    hide ListsMembers, NoEmptyNamespace, MemberNames, NamesIn, NamespacesOfMembers;
    forall ns
      ensures ns in m <==> ns in NamespacesOfMembers(cfg, c, v)
      ensures ns in m ==> NamesIn(m[ns]) == MemberNames(cfg, c, v, ns)
    {
      ListedNames(cfg, c, v, m, ns);
    }
  }

  lemma ListedStatus(cfg: Config, c: Cluster, v: ObjectKey, m: MembersByNS, policies: nat, failed: set<ObjectKey>,
                     pods: seq<ObjectKey>, errors: string)
    requires Served(cfg, c, v) && ListsMembers(cfg, c, v, m, {}) && NoEmptyNamespace(m)
    requires policies == |DesiredPolicies(cfg, c, v)|
    ensures StatusFrom(m, Applying(c, DesiredPolicies(cfg, c, v), failed), ReadyOf(policies, |m|, |failed|, errors),
                       DegradedOf(InvalidIn(cfg, c, v, pods))) ==
            StatusOf(cfg, c, v, failed, pods, errors)
  {
    hide ListsMembers, NoEmptyNamespace, MemberNames, NamesIn, NamespacesOfMembers, DesiredPolicies, Applying, ReadyOf,
         InvalidIn, DegradedOf, Served;
    ListedMembers(cfg, c, v, m);
    assert |m| == |m.Keys|;
  }

  /**
   * What the status says, on the fields. An unserved vnet is reported as such and has nothing. A served one lists its
   * members and the policies applied for it; it is not ready because an apply failed, or else because no pod receives;
   * and it is degraded iff there is an invalid joiner, of which it counts all and names the first three.
   */
  lemma StatusSays(cfg: Config, c: Cluster, v: ObjectKey, failed: set<ObjectKey>, pods: seq<ObjectKey>, errors: string)
    requires v in c.vnets
    ensures var status, invalid := StatusOf(cfg, c, v, failed, pods, errors), InvalidIn(cfg, c, v, pods);
      if !c.vnets[v].system && (v.ns !in c.namespaces || v.ns in cfg.excluded || c.namespaces[v.ns].disabled) then
        status == VnetStatus(map[], {}, Some(Conditions(HomeExcluded, DegradedHome)))
      else
        && status.conditions.Some?
        && (forall ns, name :: (ns in status.members && name in status.members[ns]) <==>
              exists b :: MemberNow(cfg, c, v, ObjectKey(ns, name), b))
        && (forall k :: k in status.policies <==>
              k in DesiredPolicies(cfg, c, v) && k !in failed &&
              !(k.ns in c.namespaces && c.namespaces[k.ns].terminating))
        && var ready := status.conditions.value.ready;
        && (ready.ApplyFailed? <==> failed != {})
        && (ready.NoMembers? <==> failed == {} && forall k, b | b in {Both, Ingress} :: !MemberNow(cfg, c, v, k, b))
        && (ready.PoliciesGenerated? <==> failed == {} && !ready.NoMembers?)
        && status.conditions.value.degraded ==
           if invalid == [] then NoIssues
           else InvalidJoiners(|invalid|, invalid[..if |invalid| < 3 then |invalid| else 3])
  {
    hide InvalidIn, DesiredPolicies, MemberNow, MemberNames, NamespacesOfMembers, MemberDirection;
    if Served(cfg, c, v) {
      forall ns, name
        ensures (ns in NamespacesOfMembers(cfg, c, v) && name in MemberNames(cfg, c, v, ns)) <==>
                exists b :: MemberNow(cfg, c, v, ObjectKey(ns, name), b)
      {
        StatusNames(cfg, c, v, ns, name);
      }
      NothingReceives(cfg, c, v);
    }
  }

  lemma StatusNames(cfg: Config, c: Cluster, v: ObjectKey, ns: string, name: string)
    ensures (ns in NamespacesOfMembers(cfg, c, v) && name in MemberNames(cfg, c, v, ns)) <==>
            exists b :: MemberNow(cfg, c, v, ObjectKey(ns, name), b)
  {
    hide MemberNames, NamespacesOfMembers, MemberDirection, MemberNow;
    MemberNamesAt(cfg, c, v, ns);
    forall b ensures MemberDirection(cfg, c, v, ObjectKey(ns, name)) == Some(b) <==>
                     MemberNow(cfg, c, v, ObjectKey(ns, name), b)
    {
      MemberIff(cfg, c, v, ObjectKey(ns, name), b);
    }
    var d := MemberDirection(cfg, c, v, ObjectKey(ns, name));
    if d.Some? { assert MemberNow(cfg, c, v, ObjectKey(ns, name), d.value); }
  }

  lemma NothingReceives(cfg: Config, c: Cluster, v: ObjectKey)
    requires Served(cfg, c, v)
    ensures |DesiredPolicies(cfg, c, v)| == 0 <==> forall k, b | b in {Both, Ingress} :: !MemberNow(cfg, c, v, k, b)
  {
    hide DesiredPolicies, MemberNow, PolicyName;
    var desired := DesiredPolicies(cfg, c, v);
    forall k
      ensures k in desired ==> exists name, b | b in {Both, Ingress} :: MemberNow(cfg, c, v, ObjectKey(k.ns, name), b)
    {
      DesiredIff(cfg, c, v, k);
    }
    if k, b :| b in {Both, Ingress} && MemberNow(cfg, c, v, k, b) {
      DesiredIff(cfg, c, v, ObjectKey(k.ns, PolicyName(cfg.hash, v)));
      assert MemberNow(cfg, c, v, ObjectKey(k.ns, k.name), b);
      assert ObjectKey(k.ns, PolicyName(cfg.hash, v)) in desired;
    }
    assert |desired| == 0 <==> desired == map[];
  }

  // ---- the store, and the algorithm ----

  /**
   * The policies and vnet statuses of the API server; every call may fail, and a failed write changes nothing.
   * `failures` counts the applies that failed.
   */
  class Store {
    var policies: map<ObjectKey, Policy>
    var statuses: map<ObjectKey, VnetStatus>
    var writes: nat
    var failed: bool
    var failures: nat

    /** applyPolicy: writes unless the live policy already matches. `r.value` says whether it was absent. */
    method Apply(k: ObjectKey, desired: Policy) returns (r: Result<bool>)
      modifies this`policies, this`writes, this`failed, this`failures
      ensures r.Ok? ==> policies == old(policies)[k := desired] && (r.value <==> k !in old(policies))
      ensures r.Ok? ==> failed == old(failed)
      ensures r.Ok? ==> writes == old(writes) + if Lookup(old(policies), k) == Some(desired) then 0 else 1
      ensures r.Err? ==> policies == old(policies) && writes == old(writes) && failed
      ensures failures == old(failures) + if r.Ok? then 0 else 1
    {
      var readFails: bool, patchFails: bool := *, *;
      if readFails {
        failed, failures := true, failures + 1;
        return Err;
      }
      if k in policies && policies[k] == desired {
        assert policies[k := desired] == policies;
        return Ok(false);
      }
      if patchFails {
        failed, failures := true, failures + 1;
        return Err;
      }
      r := Ok(k !in policies);
      policies := policies[k := desired];
      writes := writes + 1;
    }

    method Delete(k: ObjectKey) returns (ok: bool)
      modifies this`policies, this`writes, this`failed, this`failures
      ensures ok ==> policies == old(policies) - {k} && failed == old(failed)
      ensures !ok ==> policies == old(policies) && failed
    {
      var fails: bool := *;
      if fails { failed := true; return false; }
      policies := policies - {k};
      writes := writes + 1;
      ok := true;
    }

    /** updateStatus: writes unless nothing changed. */
    method WriteStatus(v: ObjectKey, status: VnetStatus) returns (ok: bool)
      modifies this`statuses, this`writes, this`failed, this`failures
      ensures ok ==> statuses == old(statuses)[v := status] && failed == old(failed)
      ensures ok ==> writes == old(writes) + if Lookup(old(statuses), v) == Some(status) then 0 else 1
      ensures !ok ==> statuses == old(statuses) && writes == old(writes) && failed
    {
      if v in statuses && statuses[v] == status {
        assert statuses[v := status] == statuses;
        return true;
      }
      var fails: bool := *;
      if fails { failed := true; return false; }
      statuses := statuses[v := status];
      writes := writes + 1;
      ok := true;
    }

    /**
     * sweepStalePolicies: deletes the policies that `selects` picks and `keep` does not hold. It stops at the first
     * failing delete; `left` is what it did not get to.
     */
    method Sweep(selects: (ObjectKey, Policy) -> bool, keep: set<ObjectKey>)
      returns (ok: bool, ghost left: set<ObjectKey>)
      modifies this`policies, this`writes, this`failed, this`failures
      ensures policies == old(policies) - (Selected(old(policies), selects, keep) - left)
      ensures ok ==> left == {} && failed == old(failed)
      ensures !ok ==> failed
      ensures Selected(old(policies), selects, keep) == {} ==> writes == old(writes)
    {
      ghost var before := policies;
      left := Selected(before, selects, keep);
      var listFails: bool := *;
      if listFails {
        failed := true;
        assert Selected(before, selects, keep) - left == {};
        return false, left;
      }
      var todo := Selected(policies, selects, keep);
      while todo != {}
        invariant todo <= Selected(before, selects, keep) && left == todo
        invariant policies == before - (Selected(before, selects, keep) - todo)
        invariant failed == old(failed) && statuses == old(statuses)
        invariant Selected(before, selects, keep) == {} ==> writes == old(writes)
      {
        var k :| k in todo;
        var deleted := Delete(k);
        if !deleted { return false, left; }
        todo := todo - {k};
        left := todo;
      }
      ok := true;
    }
  }

  function Selected(policies: map<ObjectKey, Policy>, selects: (ObjectKey, Policy) -> bool, keep: set<ObjectKey>)
    : set<ObjectKey>
  {
    set k | k in policies && selects(k, policies[k]) && k !in keep
  }

  /** The store and the applied keys after the applies for the keys in `done`. */
  ghost predicate AppliedSoFar(c: Cluster, before: map<ObjectKey, Policy>, after: map<ObjectKey, Policy>,
                               desired: map<ObjectKey, Policy>, done: set<ObjectKey>, failed: set<ObjectKey>,
                               refs: set<ObjectKey>)
  {
    && failed <= done <= desired.Keys
    && refs == Applying(c, desired, failed) * done
    && after == Applied(before, desired, refs)
  }

  lemma ApplyStep(c: Cluster, before: map<ObjectKey, Policy>, after: map<ObjectKey, Policy>,
                  desired: map<ObjectKey, Policy>, done: set<ObjectKey>, failed: set<ObjectKey>, refs: set<ObjectKey>,
                  k: ObjectKey)
    requires AppliedSoFar(c, before, after, desired, done, failed, refs) && k in desired && k !in done
    ensures AppliedSoFar(c, before, after, desired, done + {k}, failed + {k}, refs)
    ensures Terminating(c, k.ns) ==> AppliedSoFar(c, before, after, desired, done + {k}, failed, refs)
    ensures !Terminating(c, k.ns) ==>
              AppliedSoFar(c, before, after[k := desired[k]], desired, done + {k}, failed, refs + {k})
    ensures Lookup(after, k) == Lookup(before, k) && k !in failed
  {
  }

  lemma AppliedAll(c: Cluster, before: map<ObjectKey, Policy>, after: map<ObjectKey, Policy>,
                   desired: map<ObjectKey, Policy>, failed: set<ObjectKey>, refs: set<ObjectKey>)
    ensures AppliedSoFar(c, before, before, desired, {}, {}, {})
    ensures AppliedSoFar(c, before, after, desired, desired.Keys, failed, refs) ==>
              refs == Applying(c, desired, failed) && after == Applied(before, desired, refs) && failed <= desired.Keys
  {
  }

  /** `done` are the keys of the first i policies. */
  ghost predicate DoneUpTo(policies: seq<(ObjectKey, Policy)>, i: nat, done: set<ObjectKey>) {
    i <= |policies| && done == set j | 0 <= j < i :: policies[j].0
  }

  lemma NothingDone(policies: seq<(ObjectKey, Policy)>)
    ensures DoneUpTo(policies, 0, {})
  {
  }

  lemma DoneSteps(policies: seq<(ObjectKey, Policy)>, desired: map<ObjectKey, Policy>, i: nat, done: set<ObjectKey>)
    requires ListsExactly(policies, desired) && DoneUpTo(policies, i, done)
    ensures i < |policies| ==>
              policies[i].0 !in done && Lookup(desired, policies[i].0) == Some(policies[i].1) &&
              DoneUpTo(policies, i + 1, done + {policies[i].0})
    ensures i == |policies| ==> done == desired.Keys
  {
    if i < |policies| { assert policies[i] in policies; }
    if i == |policies| {
      forall k | k in desired ensures k in done {
        var p :| p in policies && p.0 == k;
      }
      forall j | 0 <= j < i ensures policies[j].0 in desired { assert policies[j] in policies; }
    }
  }

  ghost function Size(keys: set<ObjectKey>): nat {
    |keys|
  }

  lemma SizeSteps(keys: set<ObjectKey>, k: ObjectKey)
    ensures Size({}) == 0 && Size(keys) == |keys|
    ensures k !in keys ==> Size(keys + {k}) == Size(keys) + 1
  {
  }

  /**
   * The apply loop: a failing apply does not stop it, so each of the failed ones has failed by a call of its own.
   * `refs` are the policies applied.
   */
  method ApplyAll(rd: Reader, store: Store, policies: seq<(ObjectKey, Policy)>, ghost desired: map<ObjectKey, Policy>)
    returns (failed: set<ObjectKey>, refs: set<ObjectKey>)
    requires ListsExactly(policies, desired)
    modifies rd, store`policies, store`writes, store`failed, store`failures
    ensures store.policies == Applied(old(store.policies), desired, Applying(rd.c, desired, failed))
    ensures failed <= desired.Keys && refs == Applying(rd.c, desired, failed)
    ensures failed == {} ==> rd.failed == old(rd.failed) && store.failed == old(store.failed)
    ensures failed != {} ==> rd.failed || store.failed
    ensures |failed| == rd.failures + store.failures - old(rd.failures) - old(store.failures)
    ensures (forall k | k in desired :: Lookup(old(store.policies), k) == Some(desired[k])) ==>
              store.writes == old(store.writes)
  {
    hide Terminating, Size, AppliedSoFar, Applied, Applying, DoneUpTo, ListsExactly;
    ghost var before := store.policies;
    ghost var settled := forall k | k in desired :: Lookup(before, k) == Some(desired[k]);
    failed, refs := {}, {};
    ghost var done: set<ObjectKey> := {};
    AppliedAll(rd.c, before, before, desired, failed, refs);
    NothingDone(policies);
    SizeSteps(failed, ObjectKey("", ""));
    for i := 0 to |policies|
      invariant DoneUpTo(policies, i, done)
      invariant AppliedSoFar(rd.c, before, store.policies, desired, done, failed, refs)
      invariant failed == {} ==> rd.failed == old(rd.failed) && store.failed == old(store.failed)
      invariant failed != {} ==> rd.failed || store.failed
      invariant Size(failed) == rd.failures + store.failures - old(rd.failures) - old(store.failures)
      invariant settled ==> store.writes == old(store.writes)
    {
      var (k, policy) := policies[i];
      DoneSteps(policies, desired, i, done);
      ApplyStep(rd.c, before, store.policies, desired, done, failed, refs, k);
      var fails, terminating := ApplyOne(rd, store, k, policy);
      if fails {
        SizeSteps(failed, k);
        failed := failed + {k};
      } else if !terminating {
        refs := refs + {k};
      }
      done := done + {k};
    }
    DoneSteps(policies, desired, |policies|, done);
    AppliedAll(rd.c, before, store.policies, desired, failed, refs);
    SizeSteps(failed, ObjectKey("", ""));
  }

  /** One policy: a terminating namespace is skipped, and a failed namespace read counts as a failed apply. */
  method ApplyOne(rd: Reader, store: Store, k: ObjectKey, policy: Policy) returns (fails: bool, terminating: bool)
    modifies rd, store`policies, store`writes, store`failed, store`failures
    ensures fails ==> (rd.failed || store.failed) && store.policies == old(store.policies)
    ensures fails ==> store.writes == old(store.writes)
    ensures !fails ==> rd.failed == old(rd.failed) && store.failed == old(store.failed)
    ensures !fails ==> terminating == Terminating(rd.c, k.ns)
    ensures !fails ==>
              store.policies == if terminating then old(store.policies) else old(store.policies)[k := policy]
    ensures Lookup(old(store.policies), k) == Some(policy) ==> store.writes == old(store.writes)
    ensures rd.failures + store.failures == old(rd.failures) + old(store.failures) + if fails then 1 else 0
  {
    fails, terminating := false, false;
    var ns := rd.Read(Lookup(rd.c.namespaces, k.ns));
    if ns.Err? { return true, false; }
    if ns.value.Some? && ns.value.value.terminating { return false, true; }
    var applied := store.Apply(k, policy);
    fails := applied.Err?;
  }

  /** What a reconcile of v wants in the store, and what it writes to the status. */
  ghost predicate Reconciled(cfg: Config, c: Cluster, v: ObjectKey, before: map<ObjectKey, Policy>,
                             after: map<ObjectKey, Policy>, f: Failures)
  {
    && after == PoliciesAfter(c, before, v, DesiredPolicies(cfg, c, v), f)
    && (f.Attempted? ==> f.applies <= DesiredPolicies(cfg, c, v).Keys)
  }

  /**
   * deleteMembershipPolicies: every policy of v, except those in keep and those in the spared namespaces; `left` is
   * what a failing sweep did not delete.
   */
  method DeleteMembershipPolicies(store: Store, v: ObjectKey, keep: set<ObjectKey>, spare: set<string>)
    returns (ok: bool, ghost left: set<ObjectKey>)
    modifies store`policies, store`writes, store`failed, store`failures
    ensures store.policies == old(store.policies) - (Stale(old(store.policies), v, keep, spare) - left)
    ensures ok ==> left == {} && store.failed == old(store.failed)
    ensures !ok ==> store.failed
    ensures Stale(old(store.policies), v, keep, spare) == {} ==> store.writes == old(store.writes)
  {
    var selects := (k: ObjectKey, p: Policy) => OwnedBy(p, v) && k.ns !in spare;
    assert Selected(store.policies, selects, keep) == Stale(store.policies, v, keep, spare);
    ok, left := store.Sweep(selects, keep);
  }

  lemma Removed(c: Cluster, before: map<ObjectKey, Policy>, v: ObjectKey, left: set<ObjectKey>)
    ensures PoliciesAfter(c, before, v, map[], Attempted({}, left)) == before - (Stale(before, v, {}, {}) - left)
  {
    var none: map<ObjectKey, Policy> := map[];
    assert Applied(before, none, Applying(c, none, {})) == before;
    assert FailedNamespaces(none, {}) == {};
    assert none.Keys == {};
  }

  /** The end of a vnet that is gone or not served: nothing is applied and every policy of it is swept. */
  method RemoveVnet(cfg: Config, rd: Reader, store: Store, v: ObjectKey) returns (ok: bool, ghost f: Failures)
    requires !Served(cfg, rd.c, v)
    modifies store`policies, store`writes, store`failed, store`failures
    ensures Reconciled(cfg, rd.c, v, old(store.policies), store.policies, f) && f.Attempted?
    ensures ok ==> f == NO_FAILURES && store.failed == old(store.failed)
    ensures !ok ==> store.failed
  {
    hide PoliciesAfter, Served, Stale;
    ghost var before := store.policies;
    ghost var left;
    ok, left := DeleteMembershipPolicies(store, v, {}, {});
    f := Attempted({}, left);
    Removed(rd.c, before, v, left);
  }

  /** Applies the listed policies and sweeps the rest, sparing the namespaces of failed applies. */
  method ApplyAndSweep(rd: Reader, store: Store, v: ObjectKey, policies: seq<(ObjectKey, Policy)>,
                       ghost desired: map<ObjectKey, Policy>)
    returns (applyOk: bool, sweepOk: bool, failed: set<ObjectKey>, refs: set<ObjectKey>, ghost f: Failures)
    requires ListsExactly(policies, desired)
    modifies rd, store`policies, store`writes, store`failed, store`failures
    ensures f.Attempted? && f.applies == failed <= desired.Keys
    ensures store.policies == PoliciesAfter(rd.c, old(store.policies), v, desired, f)
    ensures refs == Applying(rd.c, desired, f.applies)
    ensures applyOk && sweepOk ==> f == NO_FAILURES && rd.failed == old(rd.failed) && store.failed == old(store.failed)
    ensures !(applyOk && sweepOk) ==> rd.failed || store.failed
  {
    failed, refs := ApplyAll(rd, store, policies, desired);
    var keep := set p | p in policies :: p.0;
    KeysListed(policies, desired);
    var spare := set k | k in failed :: k.ns;
    assert spare == FailedNamespaces(desired, failed);
    ghost var left;
    sweepOk, left := DeleteMembershipPolicies(store, v, keep, spare);
    applyOk := failed == {};
    f := Attempted(failed, left);
  }

  lemma KeysListed(policies: seq<(ObjectKey, Policy)>, desired: map<ObjectKey, Policy>)
    requires ListsExactly(policies, desired)
    ensures (set p | p in policies :: p.0) == desired.Keys
  {
  }

  /** The members of a served vnet, and its desired policies. */
  method Compile(cfg: Config, rd: Reader, v: ObjectKey)
    returns (r: Result<MembersByNS>, policies: seq<(ObjectKey, Policy)>, invalid: seq<(ObjectKey, JoinerReason)>,
             ghost pods: seq<ObjectKey>)
    requires Served(cfg, rd.c, v) && !rd.failed
    modifies rd
    ensures r.Err? <==> rd.failed
    ensures r.Ok? ==> ListsMembers(cfg, rd.c, v, r.value, {}) && NoEmptyNamespace(r.value)
    ensures r.Ok? ==> ListsExactly(policies, DesiredPolicies(cfg, rd.c, v))
    ensures r.Ok? ==> ListOrder(rd.c, pods) && invalid == InvalidIn(cfg, rd.c, v, pods)
  {
    policies := [];
    r, invalid, pods := DiscoverMembers(cfg, rd, v);
    if r.Err? { return; }
    ListedNamespaces(cfg, rd.c, v, r.value);
    policies := Generate(cfg.hash, v, rd.c.vnets[v].uid, r.value);
  }

  lemma NothingListed(desired: map<ObjectKey, Policy>)
    requires ListsExactly([], desired)
    ensures desired == map[]
  {
  }

  lemma {:induction false} ListedSize(policies: seq<(ObjectKey, Policy)>, desired: map<ObjectKey, Policy>)
    requires ListsExactly(policies, desired)
    ensures |policies| == |desired|
    decreases |policies|
  {
    hide ListsExactly;
    if policies == [] {
      NothingListed(desired);
    } else {
      var n := |policies| - 1;
      FewerListed(policies, desired);
      ListedSize(policies[..n], desired - {policies[n].0});
      assert desired.Keys == (desired - {policies[n].0}).Keys + {policies[n].0};
    }
  }

  lemma FewerListed(policies: seq<(ObjectKey, Policy)>, desired: map<ObjectKey, Policy>)
    requires ListsExactly(policies, desired) && policies != []
    ensures ListsExactly(policies[..|policies| - 1], desired - {policies[|policies| - 1].0})
    ensures policies[|policies| - 1].0 in desired
  {
    var n := |policies| - 1;
    var k := policies[n].0;
    assert policies[n] in policies;
    forall p | p in policies[..n] ensures Lookup(desired - {k}, p.0) == Some(p.1) {
      assert p in policies;
    }
    forall j | j in desired - {k} ensures exists p | p in policies[..n] :: p.0 == j {
      var p :| p in policies && p.0 == j;
      assert policies == policies[..n] + [policies[n]];
    }
  }

  /** The reconcile of a served vnet. */
  method ServeVnet(cfg: Config, rd: Reader, store: Store, v: ObjectKey) returns (ok: bool, ghost f: Failures)
    requires Served(cfg, rd.c, v) && !rd.failed && !store.failed
    modifies rd, store
    ensures Reconciled(cfg, rd.c, v, old(store.policies), store.policies, f)
    ensures ok ==> f == NO_FAILURES
    ensures ok <==> !rd.failed && !store.failed
    ensures ok || store.statuses != old(store.statuses) ==>
              StatusWritten(cfg, rd.c, v, old(store.statuses), store.statuses, f)
  {
    hide PoliciesAfter, DesiredPolicies, Applying, InvalidIn, ReadyOf, DegradedOf, StatusOf, StatusFrom, StatusWritten,
         ListsMembers, NoEmptyNamespace, ListsExactly;
    f := Aborted;
    AbortedReconciles(cfg, rd.c, v, store.policies);
    var members, policies, invalid;
    ghost var pods;
    members, policies, invalid, pods := Compile(cfg, rd, v);
    if members.Err? { return false, f; }
    var applyOk, sweepOk, failed, refs;
    applyOk, sweepOk, failed, refs, f := ApplyAndSweep(rd, store, v, policies, DesiredPolicies(cfg, rd.c, v));
    if applyOk && !sweepOk { return false, f; }
    var errors: string := *;
    var ready, degraded := ReadyOf(|policies|, |members.value|, |failed|, errors), DegradedOf(invalid);
    ListedSize(policies, DesiredPolicies(cfg, rd.c, v));
    ListedStatus(cfg, rd.c, v, members.value, |policies|, failed, pods, errors);
    WrittenFrom(cfg, rd.c, v, store.statuses, f, pods, errors);
    var statusOk := store.WriteStatus(v, StatusFrom(members.value, refs, ready, degraded));
    ok := applyOk && sweepOk && statusOk;
  }

  /** The status written is that of some order of the pod list, and of some error messages if an apply failed. */
  ghost predicate StatusWritten(cfg: Config, c: Cluster, v: ObjectKey, before: map<ObjectKey, VnetStatus>,
                                after: map<ObjectKey, VnetStatus>, f: Failures)
  {
    f.Attempted? && v in c.vnets &&
    exists pods, errors | ListOrder(c, pods) :: after == before[v := StatusOf(cfg, c, v, f.applies, pods, errors)]
  }

  lemma WrittenFrom(cfg: Config, c: Cluster, v: ObjectKey, before: map<ObjectKey, VnetStatus>, f: Failures,
                    pods: seq<ObjectKey>, errors: string)
    requires f.Attempted? && v in c.vnets && ListOrder(c, pods)
    ensures StatusWritten(cfg, c, v, before, before[v := StatusOf(cfg, c, v, f.applies, pods, errors)], f)
  {
  }

  /** Whether the vnet exists, and whether it is served. */
  method CheckServed(cfg: Config, rd: Reader, v: ObjectKey) returns (r: Result<(bool, bool)>)
    modifies rd
    ensures Exact(r, (v in rd.c.vnets, Served(cfg, rd.c, v)), rd.failed, old(rd.failed))
  {
    var read := rd.Read(Lookup(rd.c.vnets, v));
    if read.Err? { return Err; }
    if read.value.None? { return Ok((false, false)); }
    var homeManaged := IsManaged(cfg, rd, v.ns);
    if homeManaged.Err? { return Err; }
    r := Ok((true, read.value.value.system || homeManaged.value));
  }

  lemma AbortedReconciles(cfg: Config, c: Cluster, v: ObjectKey, policies: map<ObjectKey, Policy>)
    ensures Reconciled(cfg, c, v, policies, policies, Aborted)
  {
  }

  lemma UnservedStatus(cfg: Config, c: Cluster, v: ObjectKey, before: map<ObjectKey, VnetStatus>, f: Failures)
    requires v in c.vnets && !Served(cfg, c, v) && f.Attempted?
    ensures StatusWritten(cfg, c, v, before, before[v := UNSERVED_STATUS], f)
  {
    var pods := SomeOrder(c);
    assert StatusOf(cfg, c, v, f.applies, pods, "") == UNSERVED_STATUS;
  }

  /**
   * The reconcile of one vnet. For a served vnet it returns an error iff some call failed; a read that fails before
   * the first write leaves everything as it was.
   */
  method ReconcileVnet(cfg: Config, rd: Reader, store: Store, v: ObjectKey) returns (ok: bool, ghost f: Failures)
    requires !rd.failed && !store.failed
    modifies rd, store
    ensures Reconciled(cfg, rd.c, v, old(store.policies), store.policies, f)
    ensures ok ==> f == NO_FAILURES
    ensures Served(cfg, rd.c, v) ==> (ok <==> !rd.failed && !store.failed)
    ensures !ok ==> rd.failed || store.failed
    ensures v in rd.c.vnets && ((!rd.failed && !store.failed) || store.statuses != old(store.statuses)) ==>
              StatusWritten(cfg, rd.c, v, old(store.statuses), store.statuses, f)
  {
    hide Reconciled, StatusWritten, Served, DesiredPolicies;
    f := Aborted;
    AbortedReconciles(cfg, rd.c, v, store.policies);
    var served := CheckServed(cfg, rd, v);
    if served.Err? { return false, f; }
    if served.value.1 {
      ok, f := ServeVnet(cfg, rd, store, v);
    } else {
      if served.value.0 {
        // A failing status write is not an error here; the sweep is what must be retried.
        var _ := store.WriteStatus(v, UNSERVED_STATUS);
      }
      ok, f := RemoveVnet(cfg, rd, store, v);
      if served.value.0 { UnservedStatus(cfg, rd.c, v, old(store.statuses), f); }
    }
  }
}
