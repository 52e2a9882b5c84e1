/**
 * One clean reconcile makes a vnet converge without disturbing others, and a reconcile of a converged vnet writes
 * nothing, unless it names invalid joiners in another order than the last one did.
 */
module Drain {
  import opened Prelude
  import opened Sorting
  import opened Names
  import opened Cluster
  import opened Members
  import opened Generator
  import opened VnetReconcile
  import opened Protocol
  import opened VnetFreshness

  // ---- a converged vnet is left alone, up to the order of the pod list ----

  /** The status is the one a clean reconcile writes that lists the pods in this order. */
  ghost predicate StatusIn(cfg: Config, c: Cluster, v: ObjectKey, pods: seq<ObjectKey>) {
    v in c.vnets ==> c.vnets[v].status == StatusOf(cfg, c, v, {}, pods, "")
  }

  /** The policies are the generated ones, and the status is right for some order of the pod list. */
  ghost predicate Converged(cfg: Config, c: Cluster, v: ObjectKey) {
    VnetFresh(cfg, c, v) && exists pods | ListOrder(c, pods) :: StatusIn(cfg, c, v, pods)
  }

  lemma FreshKeyUnwritten(c: Cluster, v: ObjectKey, desired: map<ObjectKey, Policy>, k: ObjectKey)
    requires FreshAt(c, v, Lookup(desired, k), k)
    ensures Lookup(PoliciesAfter(c, c.policies, v, desired, NO_FAILURES), k) == Lookup(c.policies, k)
  {
  }

  lemma ErrorsDoNotShow(cfg: Config, c: Cluster, v: ObjectKey, pods: seq<ObjectKey>, errors: string)
    requires v in c.vnets
    ensures StatusOf(cfg, c, v, {}, pods, errors) == StatusOf(cfg, c, v, {}, pods, "")
  {
    hide DesiredPolicies, Applying, InvalidIn, NamespacesOfMembers, MemberNames;
  }

  lemma FreshPoliciesUnwritten(cfg: Config, c: Cluster, v: ObjectKey)
    requires VnetFresh(cfg, c, v)
    ensures PoliciesAfter(c, c.policies, v, DesiredPolicies(cfg, c, v), NO_FAILURES) == c.policies
  {
    hide DesiredPolicies, PoliciesAfter;
    var desired := DesiredPolicies(cfg, c, v);
    var after := PoliciesAfter(c, c.policies, v, desired, NO_FAILURES);
    forall k ensures Lookup(after, k) == Lookup(c.policies, k) {
      assert FreshAt(c, v, Lookup(desired, k), k);
      FreshKeyUnwritten(c, v, desired, k);
    }
    SameMap(after, c.policies);
  }

  /** With fresh policies a clean reconcile writes nothing iff the status is right for the order it lists pods in. */
  lemma WritesNothingIff(cfg: Config, c: Cluster, v: ObjectKey, pods: seq<ObjectKey>, errors: string)
    requires VnetFresh(cfg, c, v)
    ensures AfterVnet(cfg, c, v, NO_FAILURES, Written(pods, errors)) == c <==> StatusIn(cfg, c, v, pods)
  {
    hide VnetFresh, DesiredPolicies, PoliciesAfter, StatusOf;
    FreshPoliciesUnwritten(cfg, c, v);
    if v in c.vnets {
      ErrorsDoNotShow(cfg, c, v, pods, errors);
      var status := StatusOf(cfg, c, v, {}, pods, "");
      assert c.vnets[v := c.vnets[v].(status := status)] == c.vnets <==> c.vnets[v].status == status;
    }
  }

  // ---- how much the order shows ----

  /** A vnet that is served has at most one invalid joiner. */
  ghost predicate AtMostOneInvalid(cfg: Config, c: Cluster, v: ObjectKey) {
    Served(cfg, c, v) ==>
      forall a, b :: InvalidReason(cfg, c, v, a).Some? && InvalidReason(cfg, c, v, b).Some? ==> a == b
  }

  lemma {:induction false} OneInvalidIn(cfg: Config, c: Cluster, v: ObjectKey, pods: seq<ObjectKey>, only: ObjectKey)
    requires v in c.vnets && Distinct(pods)
    requires forall k | k in pods && k != only :: InvalidReason(cfg, c, v, k).None?
    ensures InvalidIn(cfg, c, v, pods) == if only in pods then InvalidAt(cfg, c, v, only) else []
  {
    hide InvalidReason;
    if pods != [] {
      assert forall k | k in pods[1..] :: k in pods;
      assert pods[0] !in pods[1..];
      OneInvalidIn(cfg, c, v, pods[1..], only);
      assert pods == [pods[0]] + pods[1..];
    }
  }

  lemma ListsAll(c: Cluster, pods: seq<ObjectKey>)
    requires ListOrder(c, pods)
    ensures forall k :: k in pods <==> k in c.pods
  {
    forall k ensures k in pods <==> k in c.pods { assert k in Elements(pods) <==> k in c.pods; }
  }

  /** With at most one invalid joiner every order gives the same condition. */
  lemma OrderDoesNotShow(cfg: Config, c: Cluster, v: ObjectKey, pods: seq<ObjectKey>, others: seq<ObjectKey>)
    requires v in c.vnets && Served(cfg, c, v) && AtMostOneInvalid(cfg, c, v)
    requires ListOrder(c, pods) && ListOrder(c, others)
    ensures InvalidIn(cfg, c, v, pods) == InvalidIn(cfg, c, v, others)
  {
    hide InvalidReason, InvalidAt, Served;
    ListsAll(c, pods);
    ListsAll(c, others);
    var only := if k :| InvalidReason(cfg, c, v, k).Some? then k else ObjectKey("", "");
    OneInvalidIn(cfg, c, v, pods, only);
    OneInvalidIn(cfg, c, v, others, only);
  }

  lemma Foremost(c: Cluster, a: ObjectKey) returns (pods: seq<ObjectKey>)
    requires a in c.pods
    ensures ListOrder(c, pods) && pods != [] && pods[0] == a
  {
    var rest := OrderOf(c.pods.Keys - {a});
    pods := [a] + rest;
    assert forall i | 0 <= i < |rest| :: rest[i] in Elements(rest);
    assert Elements(pods) == {a} + Elements(rest);
  }

  lemma ForemostInvalid(cfg: Config, c: Cluster, v: ObjectKey, a: ObjectKey, pods: seq<ObjectKey>)
    requires v in c.vnets && Served(cfg, c, v) && InvalidReason(cfg, c, v, a).Some? && pods != [] && pods[0] == a
    ensures var conditions := StatusOf(cfg, c, v, {}, pods, "").conditions;
      conditions.Some? && conditions.value.degraded.InvalidJoiners? && conditions.value.degraded.first != [] &&
      conditions.value.degraded.first[0].0 == a
  {
    hide InvalidReason, DesiredPolicies, Applying, NamespacesOfMembers, MemberNames, Served;
    assert InvalidIn(cfg, c, v, pods)[0].0 == a;
  }

  /** With two, whatever status there is, some order asks for another. */
  lemma TwoInvalidDisagree(cfg: Config, c: Cluster, v: ObjectKey) returns (pods: seq<ObjectKey>)
    requires !AtMostOneInvalid(cfg, c, v)
    ensures ListOrder(c, pods) && !StatusIn(cfg, c, v, pods)
  {
    hide InvalidReason, StatusOf, ListOrder;
    var a, b :| InvalidReason(cfg, c, v, a).Some? && InvalidReason(cfg, c, v, b).Some? && a != b;
    InvalidIsPod(cfg, c, v, a);
    InvalidIsPod(cfg, c, v, b);
    pods := Foremost(c, a);
    ForemostInvalid(cfg, c, v, a, pods);
    if StatusIn(cfg, c, v, pods) {
      pods := Foremost(c, b);
      ForemostInvalid(cfg, c, v, b, pods);
    }
  }

  lemma InvalidIsPod(cfg: Config, c: Cluster, v: ObjectKey, k: ObjectKey)
    requires v in c.vnets && InvalidReason(cfg, c, v, k).Some?
    ensures k in c.pods
  {
  }

  lemma OneStatus(cfg: Config, c: Cluster, v: ObjectKey, pods: seq<ObjectKey>, others: seq<ObjectKey>)
    requires AtMostOneInvalid(cfg, c, v) && ListOrder(c, pods) && ListOrder(c, others) && StatusIn(cfg, c, v, pods)
    ensures StatusIn(cfg, c, v, others)
  {
    hide AtMostOneInvalid, ListOrder, InvalidIn, Served, DesiredPolicies, Applying, NamespacesOfMembers, MemberNames;
    if Served(cfg, c, v) {
      ServedExists(cfg, c, v);
      OrderDoesNotShow(cfg, c, v, pods, others);
    }
  }

  lemma ServedExists(cfg: Config, c: Cluster, v: ObjectKey)
    requires Served(cfg, c, v)
    ensures v in c.vnets
  {
  }

  /**
   * A reconcile of a converged vnet writes nothing, in whatever order it lists the pods, iff the vnet has at most one
   * invalid joiner.
   */
  lemma ConvergedWritesNothingIff(cfg: Config, c: Cluster, v: ObjectKey)
    requires Converged(cfg, c, v)
    ensures (forall pods, errors | ListOrder(c, pods) ::
              AfterVnet(cfg, c, v, NO_FAILURES, Written(pods, errors)) == c) <==>
            AtMostOneInvalid(cfg, c, v)
  {
    hide VnetFresh, StatusIn, AtMostOneInvalid, AfterVnet, ListOrder;
    var seen :| ListOrder(c, seen) && StatusIn(cfg, c, v, seen);
    if !AtMostOneInvalid(cfg, c, v) {
      var pods := TwoInvalidDisagree(cfg, c, v);
      WritesNothingIff(cfg, c, v, pods, "");
    } else {
      forall pods, errors | ListOrder(c, pods)
        ensures AfterVnet(cfg, c, v, NO_FAILURES, Written(pods, errors)) == c
      {
        if v in c.vnets { OneStatus(cfg, c, v, seen, pods); } else { GoneHasNoStatus(cfg, c, v, pods); }
        WritesNothingIff(cfg, c, v, pods, errors);
      }
    }
  }

  lemma GoneHasNoStatus(cfg: Config, c: Cluster, v: ObjectKey, pods: seq<ObjectKey>)
    requires v !in c.vnets
    ensures StatusIn(cfg, c, v, pods)
  {
  }

  lemma SameNames(cfg: Config, c: Cluster, d: Cluster, v: ObjectKey, ns: string)
    requires c.pods == d.pods && SameMembers(cfg, c, d, v)
    ensures MemberNames(cfg, c, v, ns) == MemberNames(cfg, d, v, ns)
  {
  }

  lemma SameMemberStatus(cfg: Config, c: Cluster, d: Cluster, v: ObjectKey)
    requires c.pods == d.pods && SameMembers(cfg, c, d, v)
    ensures NamespacesOfMembers(cfg, c, v) == NamespacesOfMembers(cfg, d, v)
    ensures forall ns :: MemberNames(cfg, c, v, ns) == MemberNames(cfg, d, v, ns)
  {
    forall ns ensures MemberNames(cfg, c, v, ns) == MemberNames(cfg, d, v, ns) { SameNames(cfg, c, d, v, ns); }
    forall ns ensures ns in NamespacesOfMembers(cfg, c, v) <==> ns in NamespacesOfMembers(cfg, d, v) {
      NamespacesHaveNames(cfg, c, v, ns);
      NamespacesHaveNames(cfg, d, v, ns);
    }
  }

  lemma {:induction false} SameInvalid(cfg: Config, c: Cluster, d: Cluster, v: ObjectKey, pods: seq<ObjectKey>)
    requires v in c.vnets && v in d.vnets && forall k :: InvalidReason(cfg, c, v, k) == InvalidReason(cfg, d, v, k)
    ensures InvalidIn(cfg, c, v, pods) == InvalidIn(cfg, d, v, pods)
  {
    hide InvalidReason;
    if pods != [] { SameInvalid(cfg, c, d, v, pods[1..]); }
  }

  lemma SameReason(cfg: Config, c: Cluster, d: Cluster, v: ObjectKey, k: ObjectKey)
    requires d.namespaces == c.namespaces && d.pods == c.pods && v in c.vnets && v in d.vnets
    requires c.vnets[v].allowed == d.vnets[v].allowed
    ensures InvalidReason(cfg, c, v, k) == InvalidReason(cfg, d, v, k)
  {
    hide Admits, Managed;
    SameHousing(cfg, c, d, v, k.ns);
    assert k in c.pods ==> UserValues(c, v, k) == UserValues(d, v, k);
  }

  lemma SameHousing(cfg: Config, c: Cluster, d: Cluster, v: ObjectKey, ns: string)
    requires d.namespaces == c.namespaces && v in c.vnets && v in d.vnets && c.vnets[v].allowed == d.vnets[v].allowed
    ensures Admits(c, v.ns, c.vnets[v].allowed, ns) <==> Admits(d, v.ns, d.vnets[v].allowed, ns)
    ensures Managed(cfg, c, ns) <==> Managed(cfg, d, ns)
  {
  }

  lemma SameServedStatus(cfg: Config, c: Cluster, d: Cluster, v: ObjectKey, degraded: Degraded)
    requires c.namespaces == d.namespaces && c.pods == d.pods && SameMembers(cfg, c, d, v)
    requires DesiredPolicies(cfg, c, v) == DesiredPolicies(cfg, d, v)
    ensures ServedStatus(cfg, c, v, {}, degraded, "") == ServedStatus(cfg, d, v, {}, degraded, "")
  {
    hide DesiredPolicies, SameMembers, NamespacesOfMembers, MemberNames, ReadyOf, Applying;
    SameMemberStatus(cfg, c, d, v);
    SameApplying(c, d, DesiredPolicies(cfg, c, v));
  }

  lemma SameApplying(c: Cluster, d: Cluster, desired: map<ObjectKey, Policy>)
    requires c.namespaces == d.namespaces
    ensures Applying(c, desired, {}) == Applying(d, desired, {})
  {
  }

  /** Writes to policies and statuses do not change what the status should be. */
  lemma SameStatus(cfg: Config, c: Cluster, d: Cluster, v: ObjectKey, pods: seq<ObjectKey>)
    requires d == c.(policies := d.policies, vnets := d.vnets)
    requires SameVnetButStatus(Lookup(c.vnets, v), Lookup(d.vnets, v))
    requires v in c.vnets && v in d.vnets
    ensures StatusOf(cfg, c, v, {}, pods, "") == StatusOf(cfg, d, v, {}, pods, "")
  {
    hide DesiredPolicies, SameMembers, NamespacesOfMembers, MemberNames, InvalidReason, ServedStatus, DegradedOf;
    SameCoreSameMembers(cfg, c, d, v);
    SameDesiredPolicies(cfg, c, d, v);
    forall k ensures InvalidReason(cfg, c, v, k) == InvalidReason(cfg, d, v, k) { SameReason(cfg, c, d, v, k); }
    SameInvalid(cfg, c, d, v, pods);
    SameServedStatus(cfg, c, d, v, DegradedOf(InvalidIn(cfg, c, v, pods)));
  }

  lemma StatusStays(cfg: Config, c: Cluster, d: Cluster, v: ObjectKey, pods: seq<ObjectKey>)
    requires d == c.(policies := d.policies, vnets := d.vnets)
    requires SameVnetButStatus(Lookup(c.vnets, v), Lookup(d.vnets, v))
    requires v in d.vnets ==> v in c.vnets && d.vnets[v].status == StatusOf(cfg, c, v, {}, pods, "")
    ensures StatusIn(cfg, d, v, pods)
  {
    hide StatusOf;
    if v in d.vnets { SameStatus(cfg, c, d, v, pods); }
  }

  /** One clean reconcile makes the vnet converge, in the order in which it lists the pods. */
  lemma CleanRunConverges(cfg: Config, c: Cluster, v: ObjectKey, pods: seq<ObjectKey>, errors: string)
    requires ListOrder(c, pods)
    ensures Converged(cfg, AfterVnet(cfg, c, v, NO_FAILURES, Written(pods, errors)), v)
  {
    hide VnetFresh, StatusIn, DesiredPolicies, AfterVnet, PoliciesAfter, ListOrder, StatusOf;
    var d := AfterVnet(cfg, c, v, NO_FAILURES, Written(pods, errors));
    VnetRunLeaves(cfg, c, v, NO_FAILURES, Written(pods, errors), v);
    CleanRun(cfg, c, d, v);
    StatusAfterRun(cfg, c, v, pods, errors);
    StatusStays(cfg, c, d, v, pods);
    SameOrders(c, d, pods);
  }

  lemma SameOrders(c: Cluster, d: Cluster, pods: seq<ObjectKey>)
    requires c.pods.Keys == d.pods.Keys
    ensures ListOrder(c, pods) <==> ListOrder(d, pods)
  {
  }

  lemma StatusAfterRun(cfg: Config, c: Cluster, v: ObjectKey, pods: seq<ObjectKey>, errors: string)
    ensures var d := AfterVnet(cfg, c, v, NO_FAILURES, Written(pods, errors));
      v in d.vnets ==> v in c.vnets && d.vnets[v].status == StatusOf(cfg, c, v, {}, pods, "")
  {
    hide StatusOf, PoliciesAfter, DesiredPolicies;
    if v in c.vnets { ErrorsDoNotShow(cfg, c, v, pods, errors); }
  }

  // ---- and does not disturb the others ----

  lemma DesiredName(cfg: Config, c: Cluster, v: ObjectKey, k: ObjectKey)
    requires k in DesiredPolicies(cfg, c, v)
    ensures v in c.vnets && k.name == PolicyName(cfg.hash, v)
    ensures exists j | j in c.pods :: Stamp(CanonicalKey(v)) in c.pods[j].labels
  {
  }

  lemma StampedIsShort(cfg: Config, c: Cluster, v: ObjectKey)
    requires WellFormed(cfg, c) && v in c.vnets && exists j | j in c.pods :: Stamp(CanonicalKey(v)) in c.pods[j].labels
    ensures VnetName(v) && ShortName(v)
  {
    assert |CanonicalKey(v)| <= MAX_NET_KEY;
    assert ClusterVnetIsSingleton(cfg, c, v);
  }

  /** A vnet with a policy has a stamped pod, so its name is short enough not to be cut. */
  lemma DesiredIsShort(cfg: Config, c: Cluster, v: ObjectKey, k: ObjectKey)
    requires WellFormed(cfg, c) && k in DesiredPolicies(cfg, c, v)
    ensures VnetName(v) && ShortName(v)
  {
    hide DesiredPolicies, WellFormed, CanonicalKey, ShortName;
    DesiredName(cfg, c, v, k);
    StampedIsShort(cfg, c, v);
  }

  /** No two vnets want a policy under the same key, whatever the hash. */
  lemma DesiredKeysApart(cfg: Config, c: Cluster, v: ObjectKey, w: ObjectKey, k: ObjectKey)
    requires WellFormed(cfg, c) && v != w && k in DesiredPolicies(cfg, c, v)
    ensures k !in DesiredPolicies(cfg, c, w)
  {
    if k in DesiredPolicies(cfg, c, w) {
      DesiredIsShort(cfg, c, v, k);
      DesiredIsShort(cfg, c, w, k);
      SharedName(cfg, c, v, w, k);
    }
  }

  lemma SharedName(cfg: Config, c: Cluster, v: ObjectKey, w: ObjectKey, k: ObjectKey)
    requires WellFormed(cfg, c) && VnetName(v) && VnetName(w) && ShortName(v) && ShortName(w)
    requires k in DesiredPolicies(cfg, c, v) && k in DesiredPolicies(cfg, c, w)
    ensures v == w
  {
    DesiredName(cfg, c, v, k);
    DesiredName(cfg, c, w, k);
    PolicyNameInjective(cfg.hash, v, w);
    CanonicalKeyInjective(v, w);
    assert ClusterVnetIsSingleton(cfg, c, v) && ClusterVnetIsSingleton(cfg, c, w);
  }

  lemma OtherKeyFresh(c: Cluster, d: Cluster, v: ObjectKey, desired: map<ObjectKey, Policy>, u: ObjectKey,
                      want: Option<Policy>, k: ObjectKey)
    requires Addressable(u) && Addressable(v) && u != v && (k in desired ==> OwnedBy(desired[k], v) && want.None?)
    requires d.namespaces == c.namespaces && d.policies == PoliciesAfter(c, c.policies, v, desired, NO_FAILURES)
    requires FreshAt(c, u, want, k)
    ensures FreshAt(d, u, want, k)
  {
    PolicyAfter(c, c.policies, v, desired, NO_FAILURES, k);
    NetworkIdInjective(u, v);
    assert k in c.policies <==> Lookup(c.policies, k).Some?;
    assert k in d.policies <==> Lookup(d.policies, k).Some?;
  }

  lemma OtherStaysFresh(cfg: Config, c: Cluster, d: Cluster, v: ObjectKey, u: ObjectKey)
    requires WellFormed(cfg, c) && Addressable(u) && Addressable(v) && u != v && VnetFresh(cfg, c, u)
    requires d == c.(policies := d.policies, vnets := d.vnets)
    requires SameVnetButStatus(Lookup(c.vnets, u), Lookup(d.vnets, u))
    requires d.policies == PoliciesAfter(c, c.policies, v, DesiredPolicies(cfg, c, v), NO_FAILURES)
    ensures VnetFresh(cfg, d, u)
  {
    hide WellFormed, DesiredPolicies, Addressable;
    SameCoreSameMembers(cfg, c, d, u);
    SameDesiredPolicies(cfg, c, d, u);
    var desired, wanted := DesiredPolicies(cfg, c, v), DesiredPolicies(cfg, c, u);
    forall k ensures FreshAt(d, u, Lookup(wanted, k), k) {
      if k in desired {
        DesiredIsOwned(cfg, c, v, k);
        DesiredKeysApart(cfg, c, v, u, k);
      }
      OtherKeyFresh(c, d, v, desired, u, Lookup(wanted, k), k);
    }
  }

  lemma OtherStatusStays(cfg: Config, c: Cluster, v: ObjectKey, write: StatusWrite, u: ObjectKey)
    requires u != v
    ensures Lookup(AfterVnet(cfg, c, v, NO_FAILURES, write).vnets, u) == Lookup(c.vnets, u)
  {
    hide StatusOf, PoliciesAfter, DesiredPolicies;
  }

  /** And leaves the other vnets converged. */
  lemma OtherStaysConverged(cfg: Config, c: Cluster, v: ObjectKey, write: StatusWrite, u: ObjectKey)
    requires WellFormed(cfg, c) && Addressable(u) && Addressable(v) && u != v && Converged(cfg, c, u)
    ensures Converged(cfg, AfterVnet(cfg, c, v, NO_FAILURES, write), u)
  {
    hide WellFormed, VnetFresh, DesiredPolicies, PoliciesAfter, AfterVnet, ListOrder, StatusOf;
    var d := AfterVnet(cfg, c, v, NO_FAILURES, write);
    var pods :| ListOrder(c, pods) && StatusIn(cfg, c, u, pods);
    VnetRunLeaves(cfg, c, v, NO_FAILURES, write, u);
    OtherStaysFresh(cfg, c, d, v, u);
    OtherStatusStays(cfg, c, v, write, u);
    StatusStays(cfg, c, d, u, pods);
    SameOrders(c, d, pods);
  }

}
