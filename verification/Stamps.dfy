/** Writing resolution onto a pod: stamps.go, syncManagedLabels in sweep.go, and the resolution reconcile. */
module Stamps {
  import opened Prelude
  import opened Names
  import opened Cluster
  import opened Resolver

  /** The label families resolution owns on pods. */
  predicate ResolutionManaged(k: LabelKey) {
    k.Stamp? || k.HostPort?
  }

  predicate OwnsAll(k: LabelKey) {
    true
  }

  /** ResolutionStamps. */
  function StampsOf(labels: map<LabelKey, string>): map<LabelKey, string> {
    map k | k in labels && ResolutionManaged(k) :: labels[k]
  }

  /** What the owned stamps of a pod become; every other label stays. */
  function SyncedLabel(labels: map<LabelKey, string>, desired: map<LabelKey, string>, owns: LabelKey -> bool,
                       k: LabelKey): Option<string>
  {
    if owns(k) && k in desired then Some(desired[k])
    else if owns(k) && ResolutionManaged(k) then None
    else Lookup(labels, k)
  }

  function Synced(labels: map<LabelKey, string>, desired: map<LabelKey, string>, owns: LabelKey -> bool)
    : map<LabelKey, string>
  {
    map k | k in labels.Keys + desired.Keys && SyncedLabel(labels, desired, owns, k).Some? ::
      SyncedLabel(labels, desired, owns, k).value
  }

  lemma SyncedLookup(labels: map<LabelKey, string>, desired: map<LabelKey, string>, owns: LabelKey -> bool, k: LabelKey)
    ensures Lookup(Synced(labels, desired, owns), k) == SyncedLabel(labels, desired, owns, k)
  {
  }

  function Decimal(n: nat): (s: string)
    ensures s != ""
  {
    if n < 10 then ["0123456789"[n]] else Decimal(n / 10) + ["0123456789"[n % 10]]
  }

  /** Membership generation counts a pod only once it carries this marker. */
  predicate Resolved(pod: Pod) {
    ResolvedGeneration in pod.annotations && pod.annotations[ResolvedGeneration] != ""
  }

  function Marked(annotations: map<Annotation, string>, generation: nat, path: string): map<Annotation, string> {
    annotations[ResolvedGeneration := Decimal(generation)][ResolvedBy := path]
  }

  /** What a successful resolution reconcile leaves of a pod; no write happens when this is the pod itself. */
  ghost function ResolvedPod(cfg: Config, c: Cluster, ns: string, pod: Pod): Pod {
    if ns !in c.namespaces then pod
    else if !Managed(cfg, c, ns) then
      pod.(labels := Synced(pod.labels, map[], OwnsAll),
           annotations := pod.annotations - {ResolvedGeneration, ResolvedBy})
    else
      var labels := Synced(pod.labels, Desired(c, ns, pod), OwnsAll);
      if labels == pod.labels && Resolved(pod) then pod
      else pod.(labels := labels, annotations := Marked(pod.annotations, pod.generation, "controller"))
  }

  lemma SameSize<T>(part: set<T>, whole: set<T>)
    requires part <= whole
    ensures |part| == |whole| <==> part == whole
  {
    assert whole == part + (whole - part);
  }

  /** A pod in memory. */
  class PodObject {
    var labels: map<LabelKey, string>
    var annotations: map<Annotation, string>
    const generation: nat
    const hostPorts: set<string>

    constructor (pod: Pod)
      ensures Value() == pod
    {
      labels, annotations := pod.labels, pod.annotations;
      generation, hostPorts := pod.generation, pod.hostPorts;
    }

    function Value(): Pod
      reads this
    {
      Pod(labels, annotations, generation, hostPorts)
    }

    /** Makes the labels for which isManaged holds equal `desired`, leaving the others alone. */
    method SyncManagedLabels(isManaged: LabelKey -> bool, desired: map<LabelKey, string>) returns (changed: bool)
      modifies this`labels
      ensures forall k :: Lookup(labels, k) ==
                          if k in desired then Some(desired[k])
                          else if isManaged(k) then None
                          else Lookup(old(labels), k)
      ensures changed <==> labels != old(labels)
    {
      ghost var before := labels;
      var n := |labels|;
      labels := map k | k in labels && !(isManaged(k) && k !in desired) :: labels[k];
      SameSize(labels.Keys, before.Keys);
      changed := |labels| != n;
      var todo := desired.Keys;
      while todo != {}
        invariant todo <= desired.Keys
        invariant forall k | k in desired && k !in todo :: Lookup(labels, k) == Some(desired[k])
        invariant forall k | k in todo :: Lookup(labels, k) == Lookup(before, k)
        invariant forall k | k !in desired :: Lookup(labels, k) == if isManaged(k) then None else Lookup(before, k)
        invariant changed <==> exists k :: k !in todo && Lookup(labels, k) != Lookup(before, k)
      {
        var k :| k in todo;
        assert Lookup(labels, k) == Lookup(before, k);
        if k !in labels || labels[k] != desired[k] {
          labels := labels[k := desired[k]];
          changed := true;
          assert Lookup(labels, k) != Lookup(before, k);
        }
        todo := todo - {k};
      }
      if !changed {
        forall k ensures Lookup(labels, k) == Lookup(before, k) {}
        SameMap(labels, before);
      }
    }

    /** Writes `desired` onto the stamps the caller owns and removes the owned stamps resolution no longer produces. */
    method SyncStamps(desired: map<LabelKey, string>, owns: LabelKey -> bool) returns (changed: bool)
      modifies this`labels
      ensures labels == Synced(old(labels), desired, owns)
      ensures changed <==> labels != old(labels)
    {
      var owned := map k | k in desired && owns(k) :: desired[k];
      changed := SyncManagedLabels(k => ResolutionManaged(k) && owns(k), owned);
      forall k ensures Lookup(labels, k) == Lookup(Synced(old(labels), desired, owns), k) {
        SyncedLookup(old(labels), desired, owns, k);
      }
      SameMap(labels, Synced(old(labels), desired, owns));
    }

    method MarkResolved(path: string)
      modifies this`annotations
      ensures annotations == Marked(old(annotations), generation, path)
      ensures Resolved(Value())
    {
      annotations := annotations[ResolvedGeneration := Decimal(generation)];
      annotations := annotations[ResolvedBy := path];
    }

    method ClearResolved() returns (had: bool)
      modifies this`annotations
      ensures annotations == old(annotations) - {ResolvedGeneration, ResolvedBy}
      ensures had <==> annotations != old(annotations)
    {
      var hadGen, hadBy := ResolvedGeneration in annotations, ResolvedBy in annotations;
      annotations := annotations - {ResolvedGeneration};
      annotations := annotations - {ResolvedBy};
      had := hadGen || hadBy;
      assert annotations == old(annotations) - {ResolvedGeneration, ResolvedBy};
    }
  }

  /** A pod of an unmanaged namespace: its stamps and markers go. */
  method StripStampedLabels(pod: Pod) returns (patch: Option<Pod>)
    ensures var stripped := pod.(labels := Synced(pod.labels, map[], OwnsAll),
                                 annotations := pod.annotations - {ResolvedGeneration, ResolvedBy});
      if stripped == pod then patch.None? else patch == Some(stripped)
  {
    var patched := new PodObject(pod);
    var labelsChanged := patched.SyncStamps(map[], OwnsAll);
    var markersChanged := patched.ClearResolved();
    patch := if labelsChanged || markersChanged then Some(patched.Value()) else None;
  }

  /** A resolution that writes always changes the labels or annotations of the pod. */
  lemma WritesChange(pod: Pod, labels: map<LabelKey, string>)
    requires labels != pod.labels || !Resolved(pod)
    ensures pod.(labels := labels, annotations := Marked(pod.annotations, pod.generation, "controller")) != pod
  {
  }

  /** A pod of a managed namespace: it gets the desired stamps, and the marker if anything is written. */
  method ApplyResolution(pod: Pod, desired: map<LabelKey, string>) returns (patch: Option<Pod>)
    ensures var labels := Synced(pod.labels, desired, OwnsAll);
      if labels == pod.labels && Resolved(pod) then patch.None?
      else patch == Some(pod.(labels := labels, annotations := Marked(pod.annotations, pod.generation, "controller")))
    ensures patch != Some(pod)
  {
    var patched := new PodObject(pod);
    var changed := patched.SyncStamps(desired, OwnsAll);
    if !changed && ResolvedGeneration in pod.annotations && pod.annotations[ResolvedGeneration] != "" {
      return None;
    }
    patched.MarkResolved("controller");
    WritesChange(pod, patched.labels);
    patch := Some(patched.Value());
  }

  /**
   * The resolution reconcile of one pod; `patch` is the pod to write, None when nothing needs writing. On a failed
   * read nothing is written at all.
   */
  method ReconcilePod(cfg: Config, rd: Reader, ns: string, pod: Pod) returns (r: Result<Option<Pod>>)
    modifies rd
    ensures r.Ok? ==> rd.failed == old(rd.failed)
    ensures r.Ok? && r.value.None? ==> ResolvedPod(cfg, rd.c, ns, pod) == pod
    ensures r.Ok? && r.value.Some? ==> ResolvedPod(cfg, rd.c, ns, pod) == r.value.value != pod
    ensures r.Err? ==> rd.failed
  {
    var read := rd.Read(Lookup(rd.c.namespaces, ns));
    if read.Err? { return Err; }
    if read.value.None? { return Ok(None); }
    var patch;
    if ns in cfg.excluded || read.value.value.disabled {
      patch := StripStampedLabels(pod);
    } else {
      var desired := DesiredLabels(rd, ns, pod);
      if desired.Err? { return Err; }
      patch := ApplyResolution(pod, desired.value);
    }
    r := Ok(patch);
  }

  // ---- what a resolution leaves ----

  lemma {:induction false} DecimalInjective(m: nat, n: nat)
    ensures Decimal(m) == Decimal(n) <==> m == n
    decreases m + n
  {
    if m >= 10 && n >= 10 {
      DecimalInjective(m / 10, n / 10);
      assert Decimal(m)[..|Decimal(m)| - 1] == Decimal(m / 10) && Decimal(n)[..|Decimal(n)| - 1] == Decimal(n / 10);
      assert Decimal(m)[|Decimal(m)| - 1] == "0123456789"[m % 10];
      assert Decimal(n)[|Decimal(n)| - 1] == "0123456789"[n % 10];
      DigitsDiffer(m % 10, n % 10);
    } else if m < 10 && n < 10 {
      DigitsDiffer(m, n);
    } else {
      assert |Decimal(m)| != |Decimal(n)|;
    }
  }

  lemma DigitsDiffer(m: nat, n: nat)
    requires m < 10 && n < 10
    ensures "0123456789"[m] == "0123456789"[n] <==> m == n
  {
  }

  /** The marker tells the generations of a pod apart. */
  lemma MarkerRecordsGeneration(a: map<Annotation, string>, m: nat, n: nat, path: string, other: string)
    ensures Marked(a, m, path)[ResolvedGeneration] == Marked(a, n, other)[ResolvedGeneration] <==> m == n
  {
    DecimalInjective(m, n);
  }

  /**
   * What a resolution leaves of a pod, label by label and on the fields of its namespace: no label of a user changes;
   * the operator's labels are the desired ones, but go in a namespace that is excluded or disabled.
   */
  lemma ResolvedLabel(cfg: Config, c: Cluster, ns: string, pod: Pod, k: LabelKey)
    ensures Lookup(ResolvedPod(cfg, c, ns, pod).labels, k) ==
      if ns !in c.namespaces || k.Join? || k.Other? then Lookup(pod.labels, k)
      else if ns in cfg.excluded || c.namespaces[ns].disabled then None
      else Lookup(Desired(c, ns, pod), k)
  {
    hide Desired, Synced, ResolvedPod, ResolutionManaged;
    ResolvedLabels(cfg, c, ns, pod);
    if !k.Stamp? { DesiredLookup(c, ns, pod, k); }
    SyncedWith(pod.labels, map[], k);
    SyncedWith(pod.labels, Desired(c, ns, pod), k);
  }

  lemma ResolvedLabels(cfg: Config, c: Cluster, ns: string, pod: Pod)
    ensures ResolvedPod(cfg, c, ns, pod).labels ==
      if ns !in c.namespaces then pod.labels
      else if ns in cfg.excluded || c.namespaces[ns].disabled then Synced(pod.labels, map[], OwnsAll)
      else Synced(pod.labels, Desired(c, ns, pod), OwnsAll)
  {
    hide Desired, Synced, Resolved, Marked;
  }

  lemma SyncedWith(labels: map<LabelKey, string>, desired: map<LabelKey, string>, k: LabelKey)
    requires k.Join? || k.Other? ==> k !in desired
    ensures Lookup(Synced(labels, desired, OwnsAll), k) ==
            if k.Join? || k.Other? then Lookup(labels, k) else Lookup(desired, k)
  {
    hide Synced;
    SyncedLookup(labels, desired, OwnsAll, k);
  }

  /** And nothing else but the markers: they go with the labels, and stay or are set anew where those are desired. */
  lemma ResolvedMarkers(cfg: Config, c: Cluster, ns: string, pod: Pod)
    ensures var next := ResolvedPod(cfg, c, ns, pod);
      && next == pod.(labels := next.labels, annotations := next.annotations)
      && if ns !in c.namespaces then next == pod
         else if ns in cfg.excluded || c.namespaces[ns].disabled then
           next.annotations == pod.annotations - {ResolvedGeneration, ResolvedBy}
         else
           Lookup(next.annotations, ResolvedGeneration) !in {None, Some("")} &&
           (next == pod || next.annotations ==
              pod.annotations[ResolvedGeneration := Decimal(pod.generation)][ResolvedBy := "controller"])
  {
    hide Desired, Synced;
  }
}
