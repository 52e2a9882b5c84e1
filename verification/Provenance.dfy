/**
 * Where stamps come from: over any history of user writes, reconciles and cluster changes, every stamp on a pod is
 * what resolution gave that pod when the stamp was last written.
 */
module Provenance {
  import opened Prelude
  import opened Names
  import opened Cluster
  import opened Resolver
  import opened Stamps
  import opened Admission

  /** `mutatorRan` is false when the API server went on without the mutator, which fails open. */
  datatype Write =
    | UserWrite(key: ObjectKey, pod: Pod, mutatorRan: bool)
    | UserDelete(key: ObjectKey)
    | Reconcile(key: ObjectKey)
    | Elsewhere

  /** What the API server stores after a user's create or update, if the validator admits it. */
  ghost function Sent(cfg: Config, c: Cluster, key: ObjectKey, pod: Pod, mutatorRan: bool): Request {
    var req := Request(key.ns, Lookup(c.pods, key), pod, false);
    if mutatorRan then AfterMutator(cfg, c, req) else req
  }

  ghost predicate Writes(cfg: Config, c: Cluster, d: Cluster, w: Write) {
    match w
    case UserWrite(k, pod, mutatorRan) =>
      var req := Sent(cfg, c, k, pod, mutatorRan);
      Judge(cfg, c, req) == Admitted && d == c.(pods := c.pods[k := req.pod])
    case UserDelete(k) => d == c.(pods := c.pods - {k})
    case Reconcile(k) => k in c.pods && d == c.(pods := c.pods[k := ResolvedPod(cfg, c, k.ns, c.pods[k])])
    case Elsewhere => d.pods == c.pods
  }

  ghost predicate History(cfg: Config, states: seq<Cluster>, writes: seq<Write>) {
    && |states| == |writes| + 1 && states[0].pods == map[]
    && forall i | 0 <= i < |writes| :: Writes(cfg, states[i], states[i + 1], writes[i])
  }

  function StampAt(c: Cluster, k: ObjectKey, stamp: LabelKey): Option<string> {
    if k in c.pods then Lookup(c.pods[k].labels, stamp) else None
  }

  /** Resolution gives pod k this stamp in c: as the pod was, or as the write leaves it. */
  ghost predicate AsResolved(cfg: Config, c: Cluster, d: Cluster, k: ObjectKey, stamp: LabelKey, value: string) {
    Managed(cfg, c, k.ns) && k in d.pods && (
      || Lookup(Desired(c, k.ns, d.pods[k]), stamp) == Some(value)
      || (k in c.pods && Lookup(Desired(c, k.ns, c.pods[k]), stamp) == Some(value)))
  }

  lemma SentKeepsKey(cfg: Config, c: Cluster, key: ObjectKey, pod: Pod, mutatorRan: bool)
    ensures var req := Sent(cfg, c, key, pod, mutatorRan);
      !req.byOperator && req.ns == key.ns && req.before == Lookup(c.pods, key)
  {
  }

  lemma AdmittedStamp(cfg: Config, c: Cluster, req: Request, stamp: LabelKey)
    requires !req.byOperator && Judge(cfg, c, req) == Admitted && ResolutionManaged(stamp)
    requires stamp in req.pod.labels && Lookup(req.pod.labels, stamp) != Lookup(OldLabels(req), stamp)
    ensures Managed(cfg, c, req.ns) && Lookup(Desired(c, req.ns, req.pod), stamp) == Lookup(req.pod.labels, stamp)
  {
    JudgeIsExact(cfg, c, req);
    assert Lookup(req.pod.labels, stamp) == Lookup(Wanted(cfg, c, req.ns, req.pod), stamp);
  }

  lemma ReconciledStamp(cfg: Config, c: Cluster, ns: string, pod: Pod, stamp: LabelKey)
    requires ResolutionManaged(stamp)
    ensures var after := Lookup(ResolvedPod(cfg, c, ns, pod).labels, stamp);
      after == Lookup(pod.labels, stamp) || after.None? ||
      (Managed(cfg, c, ns) && after == Lookup(Desired(c, ns, pod), stamp))
  {
    hide Desired, Managed, Synced, Resolved, Marked;
    SyncedLookup(pod.labels, Desired(c, ns, pod), OwnsAll, stamp);
    SyncedLookup(pod.labels, map[], OwnsAll, stamp);
  }

  /** Whoever writes a stamp, it is written as resolved. */
  lemma WrittenAsResolved(cfg: Config, c: Cluster, d: Cluster, w: Write, k: ObjectKey, stamp: LabelKey)
    requires Writes(cfg, c, d, w) && ResolutionManaged(stamp)
    requires StampAt(d, k, stamp).Some? && StampAt(d, k, stamp) != StampAt(c, k, stamp)
    ensures AsResolved(cfg, c, d, k, stamp, StampAt(d, k, stamp).value)
  {
    hide Desired, Managed, Judge, ResolvedPod, AfterMutator;
    match w
    case UserWrite(key, pod, mutatorRan) =>
      SentKeepsKey(cfg, c, key, pod, mutatorRan);
      AdmittedStamp(cfg, c, Sent(cfg, c, key, pod, mutatorRan), stamp);
    case Reconcile(key) => ReconciledStamp(cfg, c, key.ns, c.pods[key], stamp);
    case _ =>
  }

  /** Write j put this value on the stamp, as resolved then, and nothing has changed it up to state n. */
  ghost predicate WrittenAt(
    cfg: Config, states: seq<Cluster>, n: nat, k: ObjectKey, stamp: LabelKey, value: string, j: nat)
    requires n < |states|
  {
    && j < n && AsResolved(cfg, states[j], states[j + 1], k, stamp, value)
    && StampAt(states[j], k, stamp) != Some(value)
    && forall i | j < i <= n :: StampAt(states[i], k, stamp) == Some(value)
  }

  /** Every stamp in every state has such a last write. */
  lemma {:induction false} EveryStampWasResolved(
    cfg: Config, states: seq<Cluster>, writes: seq<Write>, n: nat, k: ObjectKey, stamp: LabelKey, value: string)
    returns (j: nat)
    requires History(cfg, states, writes) && n < |states| && ResolutionManaged(stamp)
    requires StampAt(states[n], k, stamp) == Some(value)
    ensures WrittenAt(cfg, states, n, k, stamp, value, j)
  {
    hide Writes, AsResolved;
    assert n != 0;
    if StampAt(states[n - 1], k, stamp) == Some(value) {
      j := EveryStampWasResolved(cfg, states, writes, n - 1, k, stamp, value);
    } else {
      j := n - 1;
      WrittenAsResolved(cfg, states[n - 1], states[n], writes[n - 1], k, stamp);
    }
  }

  /** So a pod carries a vnet's stamp only if that vnet existed and admitted the pod's namespace when it was written. */
  lemma StampsWereAdmitted(
    cfg: Config, states: seq<Cluster>, writes: seq<Write>, n: nat, k: ObjectKey, v: ObjectKey) returns (j: nat)
    requires History(cfg, states, writes) && n < |states| && VnetName(v) && v.name != CLUSTER
    requires StampAt(states[n], k, Stamp(CanonicalKey(v))).Some?
    ensures j < n && v in states[j].vnets && Admits(states[j], v.ns, states[j].vnets[v].allowed, k.ns)
    ensures k.ns in states[j].namespaces && k.ns !in cfg.excluded && !states[j].namespaces[k.ns].disabled
  {
    var stamp := Stamp(CanonicalKey(v));
    j := EveryStampWasResolved(cfg, states, writes, n, k, stamp, StampAt(states[n], k, stamp).value);
    var c, d := states[j], states[j + 1];
    StampAdmitted(c, k.ns, d.pods[k], v);
    if k in c.pods { StampAdmitted(c, k.ns, c.pods[k], v); }
  }

  lemma StampAdmitted(c: Cluster, ns: string, pod: Pod, v: ObjectKey)
    requires VnetName(v) && v.name != CLUSTER
    ensures Stamp(CanonicalKey(v)) in Desired(c, ns, pod) ==> v in c.vnets && Admits(c, v.ns, c.vnets[v].allowed, ns)
  {
    if Stamp(CanonicalKey(v)) in Desired(c, ns, pod) { StampsNameAdmittingVnets(c, ns, pod, v); }
  }
}
