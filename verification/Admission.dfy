/** Resolution at admission: the mutating and the validating webhook (internal/webhook/podresolution). */
module Admission {
  import opened Prelude
  import opened Names
  import opened Cluster
  import opened Resolver
  import opened Stamps
  import opened Settling

  /** A create (no old pod) or update of a pod. */
  datatype Request = Request(ns: string, before: Option<Pod>, pod: Pod, byOperator: bool)

  /** What both handlers read off a request: its own stamps, and the stamps there were before it. */
  datatype PodRequest = PodRequest(pod: Pod, stamps: map<LabelKey, string>, oldStamps: map<LabelKey, string>) {
    /** Whether the request left k exactly as it was. */
    predicate Untouched(k: LabelKey) {
      (k in stamps <==> k in oldStamps) && Value(stamps, k) == Value(oldStamps, k)
    }
  }

  /** A Go map read: the empty string for an absent key. */
  function Value(m: map<LabelKey, string>, k: LabelKey): string {
    if k in m then m[k] else ""
  }

  function Decode(req: Request): PodRequest {
    PodRequest(req.pod, StampsOf(req.pod.labels), if req.before.Some? then StampsOf(req.before.value.labels) else map[])
  }

  function OldLabels(req: Request): map<LabelKey, string> {
    if req.before.Some? then req.before.value.labels else map[]
  }

  lemma UntouchedMeansEqual(req: Request, k: LabelKey)
    requires ResolutionManaged(k)
    ensures Decode(req).Untouched(k) <==> Lookup(req.pod.labels, k) == Lookup(OldLabels(req), k)
    ensures Lookup(Decode(req).stamps, k) == Lookup(req.pod.labels, k)
    ensures Lookup(Decode(req).oldStamps, k) == Lookup(OldLabels(req), k)
  {
  }

  // ---- what the handlers decide ----

  predicate ManagedNamespace(cfg: Config, c: Cluster, ns: string) {
    ns != "" && Managed(cfg, c, ns)
  }

  /** The stamps a pod in ns should carry. */
  ghost function Wanted(cfg: Config, c: Cluster, ns: string, pod: Pod): map<LabelKey, string> {
    if ManagedNamespace(cfg, c, ns) then Desired(c, ns, pod) else map[]
  }

  /** The pod the mutator hands on. */
  ghost function MutatedPod(cfg: Config, c: Cluster, req: Request): Pod {
    if req.byOperator || !ManagedNamespace(cfg, c, req.ns) then req.pod
    else req.pod.(labels := Synced(req.pod.labels, Desired(c, req.ns, req.pod), k => Decode(req).Untouched(k)),
                  annotations := Marked(req.pod.annotations, req.pod.generation, "admission"))
  }

  /** The stamps the request touched that are not what resolution wants. */
  ghost function BadStamps(cfg: Config, c: Cluster, req: Request): set<LabelKey> {
    set k | k in req.pod.labels.Keys + OldLabels(req).Keys && ResolutionManaged(k) &&
            Lookup(req.pod.labels, k) != Lookup(OldLabels(req), k) &&
            Lookup(req.pod.labels, k) != Lookup(Wanted(cfg, c, req.ns, req.pod), k)
  }

  datatype Verdict = Admitted | Denied(bad: set<LabelKey>) | Errored

  /** The validator's verdict when no read fails. */
  ghost function Judge(cfg: Config, c: Cluster, req: Request): Verdict {
    if req.byOperator || BadStamps(cfg, c, req) == {} then Admitted else Denied(BadStamps(cfg, c, req))
  }

  // ---- the handlers ----

  method IsManagedNamespace(cfg: Config, rd: Reader, ns: string) returns (r: Result<bool>)
    modifies rd
    ensures Exact(r, ManagedNamespace(cfg, rd.c, ns), rd.failed, old(rd.failed))
    ensures ns == "" ==> r == Ok(false)
  {
    if ns == "" { return Ok(false); }
    r := IsManaged(cfg, rd, ns);
  }

  /** On an error the API server ignores the mutator and goes on with the pod as submitted. */
  method Mutate(cfg: Config, rd: Reader, req: Request) returns (r: Result<Pod>)
    modifies rd
    ensures Exact(r, MutatedPod(cfg, rd.c, req), rd.failed, old(rd.failed))
    ensures req.byOperator ==> r == Ok(req.pod)
  {
    if req.byOperator { return Ok(req.pod); }
    var decoded := Decode(req);
    var managed := IsManagedNamespace(cfg, rd, req.ns);
    if managed.Err? { return Err; }
    if !managed.value { return Ok(req.pod); }
    var desired := DesiredLabels(rd, req.ns, req.pod);
    if desired.Err? { return Err; }
    var out := StampAtAdmission(req.pod, desired.value, decoded);
    SyncedByUntouched(req, desired.value, decoded);
    r := Ok(out);
  }

  method StampAtAdmission(pod: Pod, desired: map<LabelKey, string>, decoded: PodRequest) returns (out: Pod)
    ensures out == pod.(labels := Synced(pod.labels, desired, k => decoded.Untouched(k)),
                        annotations := Marked(pod.annotations, pod.generation, "admission"))
  {
    var copy := new PodObject(pod);
    var owns := k => decoded.Untouched(k);
    var _ := copy.SyncStamps(desired, owns);
    copy.MarkResolved("admission");
    out := copy.Value();
    SyncedSameOwner(pod.labels, desired, owns, k => decoded.Untouched(k));
  }

  lemma SyncedSameOwner(labels: map<LabelKey, string>, desired: map<LabelKey, string>,
                        a: LabelKey -> bool, b: LabelKey -> bool)
    requires forall k :: a(k) == b(k)
    ensures Synced(labels, desired, a) == Synced(labels, desired, b)
  {
  }

  lemma SyncedByUntouched(req: Request, desired: map<LabelKey, string>, decoded: PodRequest)
    requires decoded == Decode(req)
    ensures Synced(req.pod.labels, desired, k => decoded.Untouched(k)) ==
            Synced(req.pod.labels, desired, k => Decode(req).Untouched(k))
  {
  }

  function TouchedStamps(r: PodRequest): set<LabelKey> {
    (set k | k in r.stamps && !r.Untouched(k)) + (set k | k in r.oldStamps && k !in r.stamps)
  }

  lemma TouchedMeansChanged(req: Request)
    ensures TouchedStamps(Decode(req)) ==
            set k | k in req.pod.labels.Keys + OldLabels(req).Keys && ResolutionManaged(k) &&
                    Lookup(req.pod.labels, k) != Lookup(OldLabels(req), k)
  {
  }

  /** Judges the touched stamps one by one. */
  method CheckStamps(touched: set<LabelKey>, stamps: map<LabelKey, string>, desired: map<LabelKey, string>)
    returns (bad: set<LabelKey>)
    ensures bad == set k | k in touched && Lookup(stamps, k) != Lookup(desired, k)
  {
    bad := {};
    var todo := touched;
    while todo != {}
      invariant todo <= touched
      invariant bad == set k | k in touched && k !in todo && Lookup(stamps, k) != Lookup(desired, k)
    {
      var k :| k in todo;
      var present, resolved := k in stamps, k in desired;
      if present && !resolved {
        bad := bad + {k};
      } else if present && stamps[k] != desired[k] {
        bad := bad + {k};
      } else if !present && resolved {
        bad := bad + {k};
      }
      todo := todo - {k};
    }
  }

  /** Failing closed: on an error the request is rejected, and otherwise the verdict is exact. */
  method Validate(cfg: Config, rd: Reader, req: Request) returns (v: Verdict)
    modifies rd
    ensures v.Errored? ==> rd.failed
    ensures !v.Errored? ==> v == Judge(cfg, rd.c, req) && rd.failed == old(rd.failed)
    ensures req.byOperator ==> v == Admitted && rd.failed == old(rd.failed)
    ensures (forall k | ResolutionManaged(k) :: Lookup(req.pod.labels, k) == Lookup(OldLabels(req), k)) ==>
              v == Admitted && rd.failed == old(rd.failed)
  {
    hide Desired, Managed;
    if req.byOperator { return Admitted; }
    var r := Decode(req);
    var touched := TouchedStamps(r);
    TouchedMeansChanged(req);
    if touched == {} {
      assert BadStamps(cfg, rd.c, req) <= TouchedStamps(Decode(req));
      return Admitted;
    }
    var desired := map[];
    var managed := IsManagedNamespace(cfg, rd, req.ns);
    if managed.Err? { return Errored; }
    if managed.value {
      var labels := DesiredLabels(rd, req.ns, req.pod);
      if labels.Err? { return Errored; }
      desired := labels.value;
    }
    var bad := CheckStamps(touched, r.stamps, desired);
    BadIsTouchedAndWrong(cfg, rd.c, req, desired);
    v := if bad != {} then Denied(bad) else Admitted;
  }

  lemma BadIsTouchedAndWrong(cfg: Config, c: Cluster, req: Request, desired: map<LabelKey, string>)
    requires desired == Wanted(cfg, c, req.ns, req.pod)
    ensures BadStamps(cfg, c, req) ==
            set k | k in TouchedStamps(Decode(req)) && Lookup(Decode(req).stamps, k) != Lookup(desired, k)
  {
    TouchedMeansChanged(req);
    forall k | ResolutionManaged(k) ensures Lookup(Decode(req).stamps, k) == Lookup(req.pod.labels, k) {
      UntouchedMeansEqual(req, k);
    }
  }

  // ---- the two together ----

  /** Every stamp the request touched is what resolution gives the pod, or is absent where it gives none. */
  ghost predicate TouchesOnlyAsResolved(cfg: Config, c: Cluster, req: Request) {
    forall k | ResolutionManaged(k) && Lookup(req.pod.labels, k) != Lookup(OldLabels(req), k) ::
      Lookup(req.pod.labels, k) == Lookup(Wanted(cfg, c, req.ns, req.pod), k)
  }

  /** The validator alone admits exactly the requests that touch stamps only as resolved. */
  lemma JudgeIsExact(cfg: Config, c: Cluster, req: Request)
    requires !req.byOperator
    ensures Judge(cfg, c, req) == Admitted <==> TouchesOnlyAsResolved(cfg, c, req)
  {
    forall k | ResolutionManaged(k) && Lookup(req.pod.labels, k) != Lookup(OldLabels(req), k) &&
               Lookup(req.pod.labels, k) != Lookup(Wanted(cfg, c, req.ns, req.pod), k)
      ensures k in BadStamps(cfg, c, req)
    {
    }
  }

  ghost function AfterMutator(cfg: Config, c: Cluster, req: Request): Request {
    req.(pod := MutatedPod(cfg, c, req))
  }

  lemma MutatedLabel(cfg: Config, c: Cluster, req: Request, k: LabelKey)
    requires !req.byOperator && ManagedNamespace(cfg, c, req.ns)
    ensures Lookup(MutatedPod(cfg, c, req).labels, k) ==
            if ResolutionManaged(k) && Lookup(req.pod.labels, k) == Lookup(OldLabels(req), k)
            then Lookup(Desired(c, req.ns, req.pod), k) else Lookup(req.pod.labels, k)
  {
    hide Synced, Desired, Managed, StampsOf;
    SyncedLookup(req.pod.labels, Desired(c, req.ns, req.pod), k => Decode(req).Untouched(k), k);
    DesiredIsManaged(c, req.ns, req.pod);
    if ResolutionManaged(k) { UntouchedMeansEqual(req, k); }
  }

  /** Unless a binding tells the mutated pod from the submitted one, both resolve alike. */
  lemma MutationKeepsDesired(cfg: Config, c: Cluster, req: Request)
    requires !req.byOperator && ManagedNamespace(cfg, c, req.ns)
    requires SelectsAlike(c, req.ns, MutatedPod(cfg, c, req).labels, req.pod.labels)
    ensures Desired(c, req.ns, MutatedPod(cfg, c, req)) == Desired(c, req.ns, req.pod)
  {
    var out := MutatedPod(cfg, c, req);
    forall k | !ResolutionManaged(k) ensures Lookup(out.labels, k) == Lookup(req.pod.labels, k) {
      MutatedLabel(cfg, c, req, k);
    }
    SameLabelsSameDesired(c, req.ns, out, req.pod);
  }

  ghost function AfterMutation(cfg: Config, c: Cluster, req: Request): map<LabelKey, string> {
    Desired(c, req.ns, MutatedPod(cfg, c, req))
  }

  /**
   * The validator resolves the pod the mutator handed on: a stamp passes if the request set it as that pod resolves,
   * or if the request left it alone and the mutator put it back or set it as that pod resolves.
   */
  ghost predicate Passes(cfg: Config, c: Cluster, req: Request, k: LabelKey) {
    var submitted, before := Lookup(req.pod.labels, k), Lookup(OldLabels(req), k);
    var first, second := Lookup(Desired(c, req.ns, req.pod), k), Lookup(AfterMutation(cfg, c, req), k);
    if submitted != before then submitted == second else first == before || first == second
  }

  lemma JudgedAfterMutation(cfg: Config, c: Cluster, req: Request, k: LabelKey)
    requires !req.byOperator && ManagedNamespace(cfg, c, req.ns) && ResolutionManaged(k)
    ensures var sent := Lookup(MutatedPod(cfg, c, req).labels, k);
      (sent != Lookup(OldLabels(req), k) ==> sent == Lookup(AfterMutation(cfg, c, req), k)) <==>
      Passes(cfg, c, req, k)
  {
    hide MutatedPod, ManagedNamespace, Desired;
    MutatedLabel(cfg, c, req, k);
  }

  /** Mutator then validator, whatever the bindings look at: a request is admitted iff every stamp passes. */
  lemma MutatorThenValidator(cfg: Config, c: Cluster, req: Request)
    requires !req.byOperator && ManagedNamespace(cfg, c, req.ns)
    ensures Judge(cfg, c, AfterMutator(cfg, c, req)) == Admitted <==>
            forall k | ResolutionManaged(k) :: Passes(cfg, c, req, k)
  {
    hide MutatedPod, ManagedNamespace, Desired, Judge, Passes;
    JudgeIsExact(cfg, c, AfterMutator(cfg, c, req));
    forall k | ResolutionManaged(k)
      ensures var sent := Lookup(MutatedPod(cfg, c, req).labels, k);
        (sent != Lookup(OldLabels(req), k) ==> sent == Lookup(AfterMutation(cfg, c, req), k)) <==>
        Passes(cfg, c, req, k)
    {
      JudgedAfterMutation(cfg, c, req, k);
    }
  }

  /** So where the mutation does not change what the pod resolves to, only the stamps the request touched count. */
  lemma UntouchedStampsPass(cfg: Config, c: Cluster, req: Request)
    requires !req.byOperator && ManagedNamespace(cfg, c, req.ns)
    requires AfterMutation(cfg, c, req) == Desired(c, req.ns, req.pod)
    ensures Judge(cfg, c, AfterMutator(cfg, c, req)) == Admitted <==> TouchesOnlyAsResolved(cfg, c, req)
  {
    hide MutatedPod, Desired, Judge;
    MutatorThenValidator(cfg, c, req);
    forall k | ResolutionManaged(k)
      ensures Passes(cfg, c, req, k) <==>
        (Lookup(req.pod.labels, k) != Lookup(OldLabels(req), k) ==>
         Lookup(req.pod.labels, k) == Lookup(Wanted(cfg, c, req.ns, req.pod), k))
    {
    }
  }

  /**
   * The plain case: where the bindings of the namespace select on no stamp, a request is admitted iff every stamp it
   * touched itself is as resolved, and then the pod is its own resolved form.
   */
  lemma AvoidingStampsAdmits(cfg: Config, c: Cluster, req: Request)
    requires !req.byOperator && ManagedNamespace(cfg, c, req.ns)
    requires forall k | k in c.bindings && k.ns == req.ns :: AvoidsStamps(c.bindings[k].podSelector)
    ensures var admitted, out := Judge(cfg, c, AfterMutator(cfg, c, req)) == Admitted, MutatedPod(cfg, c, req);
      (admitted <==> TouchesOnlyAsResolved(cfg, c, req)) && (admitted ==> ResolvedPod(cfg, c, req.ns, out) == out)
  {
    hide Judge, Desired, MutatedPod, ManagedNamespace, TouchesOnlyAsResolved, AvoidsStamps, SelectsAlike, ResolvedPod;
    var out := MutatedPod(cfg, c, req);
    MutationKeepsUserLabels(cfg, c, req);
    AvoidingStampsSelectsAlike(c, req.ns, out.labels, req.pod.labels);
    MutationKeepsDesired(cfg, c, req);
    UntouchedStampsPass(cfg, c, req);
    if Judge(cfg, c, AfterMutator(cfg, c, req)) == Admitted { AdmittedIsSynced(cfg, c, req); }
  }

  lemma MutationKeepsUserLabels(cfg: Config, c: Cluster, req: Request)
    requires !req.byOperator && ManagedNamespace(cfg, c, req.ns)
    ensures SameUserLabels(MutatedPod(cfg, c, req).labels, req.pod.labels)
  {
    hide MutatedPod, Desired, ManagedNamespace;
    forall k | !ResolutionManaged(k) ensures Lookup(MutatedPod(cfg, c, req).labels, k) == Lookup(req.pod.labels, k) {
      MutatedLabel(cfg, c, req, k);
    }
  }

  /**
   * A pod admitted behind the mutator carries exactly its resolved stamps, and its next reconcile writes nothing, iff
   * the mutated pod still resolves to the stamps the mutator set.
   */
  lemma AdmittedIsSynced(cfg: Config, c: Cluster, req: Request)
    requires !req.byOperator && ManagedNamespace(cfg, c, req.ns)
    requires Judge(cfg, c, AfterMutator(cfg, c, req)) == Admitted
    ensures var out := MutatedPod(cfg, c, req);
      ResolvedPod(cfg, c, req.ns, out) == out <==>
      forall k | ResolutionManaged(k) && Lookup(req.pod.labels, k) == Lookup(OldLabels(req), k) ::
        Lookup(AfterMutation(cfg, c, req), k) == Lookup(Desired(c, req.ns, req.pod), k)
  {
    hide Judge, Desired, MutatedPod, Synced;
    var out := MutatedPod(cfg, c, req);
    MutatorThenValidator(cfg, c, req);
    MutatedIsResolved(cfg, c, req);
    ManagedResolution(cfg, c, req.ns, out);
    SyncedMeansStamped(c, req.ns, out);
    forall k | ResolutionManaged(k)
      ensures Lookup(out.labels, k) == Lookup(AfterMutation(cfg, c, req), k) <==>
        (Lookup(req.pod.labels, k) == Lookup(OldLabels(req), k) ==>
         Lookup(AfterMutation(cfg, c, req), k) == Lookup(Desired(c, req.ns, req.pod), k))
    {
      assert Passes(cfg, c, req, k);
      MutatedLabel(cfg, c, req, k);
    }
  }

  lemma MutatedIsResolved(cfg: Config, c: Cluster, req: Request)
    requires !req.byOperator && ManagedNamespace(cfg, c, req.ns)
    ensures Resolved(MutatedPod(cfg, c, req))
  {
  }

  lemma SyncedMeansStamped(c: Cluster, ns: string, pod: Pod)
    ensures Synced(pod.labels, Desired(c, ns, pod), OwnsAll) == pod.labels <==>
            forall k | ResolutionManaged(k) :: Lookup(pod.labels, k) == Lookup(Desired(c, ns, pod), k)
  {
    hide Synced, Desired;
    var desired := Desired(c, ns, pod);
    var synced := Synced(pod.labels, desired, OwnsAll);
    DesiredIsManaged(c, ns, pod);
    forall k ensures Lookup(synced, k) == Lookup(if ResolutionManaged(k) then desired else pod.labels, k) {
      SyncedLookup(pod.labels, desired, OwnsAll, k);
    }
    if forall k | ResolutionManaged(k) :: Lookup(pod.labels, k) == Lookup(desired, k) {
      SameMap(synced, pod.labels);
    }
  }

  /** The update by which the resolution reconcile writes a pod. */
  ghost function ResolutionWrite(cfg: Config, c: Cluster, ns: string, pod: Pod, byOperator: bool): Request {
    Request(ns, Some(pod), ResolvedPod(cfg, c, ns, pod), byOperator)
  }

  /**
   * What the operator writes is admitted as it is sent. It has to be exempt: the same write by anyone else is admitted
   * in a managed namespace iff the stamps it changes are those the written pod resolves to in its turn.
   */
  lemma OperatorWritesPass(cfg: Config, c: Cluster, ns: string, pod: Pod)
    ensures Judge(cfg, c, ResolutionWrite(cfg, c, ns, pod, true)) == Admitted
    ensures MutatedPod(cfg, c, ResolutionWrite(cfg, c, ns, pod, true)) == ResolvedPod(cfg, c, ns, pod)
    ensures ManagedNamespace(cfg, c, ns) ==>
              (Judge(cfg, c, ResolutionWrite(cfg, c, ns, pod, false)) == Admitted <==>
               forall k | ResolutionManaged(k) && Lookup(pod.labels, k) != Lookup(Desired(c, ns, pod), k) ::
                 Lookup(Desired(c, ns, ResolvedPod(cfg, c, ns, pod)), k) == Lookup(Desired(c, ns, pod), k))
  {
    hide Desired, Synced, ManagedNamespace, BadStamps, ResolvedPod;
    JudgeIsExact(cfg, c, ResolutionWrite(cfg, c, ns, pod, false));
    if ManagedNamespace(cfg, c, ns) {
      forall k | ResolutionManaged(k)
        ensures Lookup(ResolvedPod(cfg, c, ns, pod).labels, k) == Lookup(Desired(c, ns, pod), k)
      {
        WrittenStamp(cfg, c, ns, pod, k);
      }
    }
  }

  lemma WrittenStamp(cfg: Config, c: Cluster, ns: string, pod: Pod, k: LabelKey)
    requires ManagedNamespace(cfg, c, ns) && ResolutionManaged(k)
    ensures Lookup(ResolvedPod(cfg, c, ns, pod).labels, k) == Lookup(Desired(c, ns, pod), k)
  {
    hide Desired, ResolvedPod;
    ResolvedLabel(cfg, c, ns, pod, k);
  }

  /** In a namespace that is not managed, a request may only remove stamps, or leave them. */
  lemma UnmanagedAdmitsRemovalOnly(cfg: Config, c: Cluster, req: Request)
    requires !req.byOperator && !ManagedNamespace(cfg, c, req.ns)
    ensures MutatedPod(cfg, c, req) == req.pod
    ensures Judge(cfg, c, req) == Admitted <==>
      forall k | ResolutionManaged(k) && k in req.pod.labels :: Lookup(OldLabels(req), k) == Some(req.pod.labels[k])
  {
    JudgeIsExact(cfg, c, req);
  }

  // ---- a binding that defeats itself ----

  /** A create that leaves the stamps to the operator. */
  predicate HonestCreate(req: Request) {
    !req.byOperator && req.before.None? && forall k | k in req.pod.labels :: k.Other?
  }

  lemma HonestMutation(cfg: Config, c: Cluster, req: Request, b: Binding)
    requires HonestCreate(req) && req.ns != "" && OnlySource(cfg, c, req.ns, b)
    ensures MutatedPod(cfg, c, req).labels == NextForm(c, b, req.ns, req.pod, req.pod.labels)
    ensures NoJoinLabels(MutatedPod(cfg, c, req).labels) && MutatedPod(cfg, c, req).hostPorts == req.pod.hostPorts
  {
    hide OnlySource, TakesIn, Desired, Synced, Decode, ManagedNamespace;
    var labels := MutatedPod(cfg, c, req).labels;
    var form := NextForm(c, b, req.ns, req.pod, req.pod.labels);
    forall k ensures Lookup(labels, k) == Lookup(form, k) && (k.Join? ==> k !in labels) {
      HonestLabel(cfg, c, req, b, k);
    }
    SameMap(labels, form);
  }

  lemma HonestLabel(cfg: Config, c: Cluster, req: Request, b: Binding, k: LabelKey)
    requires HonestCreate(req) && req.ns != "" && OnlySource(cfg, c, req.ns, b)
    ensures Lookup(MutatedPod(cfg, c, req).labels, k) == Lookup(NextForm(c, b, req.ns, req.pod, req.pod.labels), k)
    ensures k.Join? ==> k !in MutatedPod(cfg, c, req).labels
  {
    hide OnlySource, TakesIn, Desired, MutatedPod, NextForm, StampsHere, Managed, BoundKey;
    SourceIsManaged(cfg, c, req.ns, b);
    BoundDesired(cfg, c, req.ns, b, req.pod);
    MutatedLabel(cfg, c, req, k);
    FormLabel(c, b, req.ns, req.pod, k);
    assert Lookup(req.pod.labels, k).Some? ==> k.Other?;
  }

  lemma FormLabel(c: Cluster, b: Binding, ns: string, pod: Pod, k: LabelKey)
    ensures Lookup(NextForm(c, b, ns, pod, pod.labels), k) ==
            Lookup(if ResolutionManaged(k) then StampsHere(c, b, ns, pod) else pod.labels, k)
  {
    hide TakesIn, Synced;
    SyncedLookup(pod.labels, StampsHere(c, b, ns, pod), OwnsAll, k);
  }

  lemma BoundStampAt(b: Binding, ns: string, hostPorts: set<string>, k: LabelKey)
    ensures k == Stamp(BoundKey(b, ns)) ==> k in BoundStamps(b, ns, hostPorts) && k !in HostStamps(hostPorts)
    ensures k != Stamp(BoundKey(b, ns)) ==> Lookup(BoundStamps(b, ns, hostPorts), k) == Lookup(HostStamps(hostPorts), k)
  {
  }

  lemma HonestStampPasses(cfg: Config, c: Cluster, req: Request, b: Binding, k: LabelKey)
    requires HonestCreate(req) && req.ns != "" && OnlySource(cfg, c, req.ns, b) && ResolutionManaged(k)
    ensures Passes(cfg, c, req, k) <==>
            (k == Stamp(BoundKey(b, req.ns)) ==>
             (TakesIn(c, req.ns, b, req.pod.labels) ==> TakesIn(c, req.ns, b, Inside(b, req.ns, req.pod))))
  {
    hide OnlySource, TakesIn, Desired, MutatedPod, BoundStamps, HostStamps, Inside, Outside;
    HonestMutation(cfg, c, req, b);
    BoundDesired(cfg, c, req.ns, b, req.pod);
    BoundDesired(cfg, c, req.ns, b, MutatedPod(cfg, c, req));
    BoundStampAt(b, req.ns, req.pod.hostPorts, k);
    assert Lookup(req.pod.labels, k).None?;
  }

  /**
   * With one binding, whatever its selector, its vnet and its direction: an honest create is admitted behind the
   * mutator iff the binding does not take the submitted pod in while refusing it as a member.
   */
  lemma OneBindingAdmitsIff(cfg: Config, c: Cluster, req: Request, b: Binding)
    requires HonestCreate(req) && req.ns != "" && OnlySource(cfg, c, req.ns, b)
    ensures Judge(cfg, c, AfterMutator(cfg, c, req)) == Admitted <==>
            (TakesIn(c, req.ns, b, req.pod.labels) ==> TakesIn(c, req.ns, b, Inside(b, req.ns, req.pod)))
  {
    hide OnlySource, TakesIn, Desired, Passes, Judge, MutatedPod;
    SourceIsManaged(cfg, c, req.ns, b);
    MutatorThenValidator(cfg, c, req);
    forall k | ResolutionManaged(k)
      ensures Passes(cfg, c, req, k) <==>
        (k == Stamp(BoundKey(b, req.ns)) ==>
         (TakesIn(c, req.ns, b, req.pod.labels) ==> TakesIn(c, req.ns, b, Inside(b, req.ns, req.pod))))
    {
      HonestStampPasses(cfg, c, req, b, k);
    }
    assert ResolutionManaged(Stamp(BoundKey(b, req.ns)));
  }

  /** A binding for the pods without its own stamp turns away every honest create, which touched none, iff it counts. */
  lemma OwnAbsenceRejects(cfg: Config, c: Cluster, req: Request, b: Binding)
    requires HonestCreate(req) && req.ns != "" && OnlySource(cfg, c, req.ns, b)
    requires b.podSelector == Selector(map[], [Requirement(Stamp(BoundKey(b, req.ns)), DoesNotExist, [])])
    ensures TouchesOnlyAsResolved(cfg, c, req)
    ensures Judge(cfg, c, AfterMutator(cfg, c, req)) == Admitted <==> !Counts(c, req.ns, b)
  {
    hide OnlySource, Judge, Desired, MutatedPod, Inside, Outside, Selects, Counts;
    OneBindingAdmitsIff(cfg, c, req, b);
    BindingOnItsOwnAbsence(c, b, req.ns, req.pod);
    OwnAbsenceSelects(b, req.ns, req.pod);
    forall k | ResolutionManaged(k) ensures Lookup(req.pod.labels, k) == Lookup(OldLabels(req), k) {
      assert k in req.pod.labels ==> k.Other?;
    }
  }

  lemma OwnAbsenceSelects(b: Binding, ns: string, pod: Pod)
    requires b.podSelector == Selector(map[], [Requirement(Stamp(BoundKey(b, ns)), DoesNotExist, [])])
    requires forall k | k in pod.labels :: k.Other?
    ensures Selects(b.podSelector, pod.labels)
  {
  }
}
