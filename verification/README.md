# The membership pipeline of kube-vnet

kube-vnet turns what users ask for (baselines, bindings and join labels) into isolation between pods. For every pod
it resolves, per virtual network (vnet), the direction in which the pod is a member, and stamps the result onto the
pod as labels. From the stamped pods of a vnet it compiles Kubernetes NetworkPolicies. Two event-driven controllers
and two admission webhooks keep stamps and policies up to date while everyone else keeps changing the cluster.

This project models that pipeline and proves what it is for.

**The main results**

- `Capstone.QuiescentIsExact`: in every run of environment changes, pod resolutions and vnet reconciles, with any
  pattern of failing calls, whenever both work queues are empty a pod receives from exactly the pods that the current
  baselines, bindings, labels and allowedNamespaces connect it to. What they ask for is read off their fields, by a
  definition (`Intent`) that knows of no keys, rules or layers. With nothing queued but pods, none of which still
  carries a stamp it may no longer have, the same holds between the pods that are not queued
  (`Capstone.UnqueuedPodsAreExact`).
- `Intent.StampIsDecided` and `Intent.EffectiveIsDecided`: through keys, permissions, rules, layers and the cascade the
  resolver comes to what the objects say, for every vnet and pod: a bare membership in the cluster baseline decides,
  else one in the baseline of the namespace, else the bindings and join labels, else the defaults.
- `Invariant.RunKeepsInv`: what is out of date is still queued. A pod is queued or synced. A vnet is queued, or its
  stored policies are the generated ones, or a pod that still carries its stamp from a namespace it may no longer join
  is itself queued.
- `Termination.EveryScheduleDrains` and `Endless.EveryScheduleDrainsIff`: after a start into a silent environment every
  order of reconciles, with the pods listed in any order, empties both queues exactly when every pod, resolved again
  and again on its own, comes to rest and no vnet has two invalid joiners. Some order does exactly when every pod
  comes to rest (`Termination.SettlesIffPodsDo`), in a state the capstone speaks of (`Termination.PathContinuesRun`).
- `Traffic.CompilerPreservesMeaning`: under the additive ingress semantics of `networking.k8s.io/v1`, the generated
  policies and the deny-all baseline admit exactly the initiator-receiver pairs of a common vnet.
- `Resolution.Resolve` and `Resolution.ResolvesByTier`: the nested loops of the resolver compute a short declarative
  rule, report exactly the conflicts and rejected overrides, and do not depend on the order of their input.
- `Admission.MutatorThenValidator` and `Admission.AdmittedIsSynced`: exactly which requests the two webhooks admit, and
  when what they admit needs no further write.
- `Provenance.EveryStampWasResolved`: no stamp is ever anything but what resolution gave that pod when the stamp was
  last written, however users, the webhooks and the controllers interleave.
- `Families.ConvergenceComposes` and `Families.ConvergenceLastsIff`: the five writers of policies do not undo each
  other's work, in any interleaving, and the reconciles of deleted Services do so exactly when a source label is shared.

**Where a promise needs a condition**

- Resolution reads the stamps it writes if a binding selects on them. One resolution is enough exactly when its stamps
  do not change what the pod resolves to (`Settling.ResolutionIsIdempotent`); bindings that select on no stamp never do
  (`Settling.AvoidingStampsSelectsAlike`), so under them every pod comes to rest whose stamps fit
  (`Termination.AvoidingStampsSettles`), and what the webhooks admit needs no further write
  (`Admission.AvoidingStampsAdmits`). With a single binding whose stamp fits, whatever it selects on, a pod oscillates
  for ever exactly when the binding takes it in outside the vnet and refuses it inside (`Settling.OneBindingSettlesIff`):
  always if it asks for the absence of its own stamp, never if it asks for its presence. The validator turns away what
  the mutator made of an honest create exactly when the binding takes the submitted pod in and refuses it as a member
  (`Admission.OneBindingAdmitsIff`). The invariant, the capstone and provenance hold whatever bindings select on.
- The Degraded condition of a vnet names its first invalid joiners in the order in which the API lists the pods, and a
  write of the status queues the vnet again. A reconcile of a converged vnet writes nothing under every order exactly
  when the vnet has at most one invalid joiner (`Drain.ConvergedWritesNothingIff`). With two, a silent operator can go
  on writing for ever (`Endless.TwoInvalidNeverDrain`), for instance where two pods ask for a vnet from a disabled
  namespace (`Endless.TwoJoinersNeverRest`). Policies, and with them the capstone, do not depend on it.
- The sweep of a deleted Service goes by a label value that is cut to 63 characters, and a cut value is always equal to
  the value of another name (`Families.CutSourceCollides`). Of all that anyone wants, the sweep takes exactly the
  policies of the same kind of Services with an equal value (`Families.SweepByKeyIsByLabel`); one such reconcile leaves
  a converged owner converged exactly when it wants no policy of that label
  (`Families.GoneServiceKeepsConvergedIff`, `Families.SparesIff`).
- A further rule narrows memberships at a baseline tier, whatever the other tiers hold, exactly when the tier had a pin
  already, or the rule is itself a default, or the pin it makes grants nothing; a first rule only if it is `none`
  (`Resolution.ClusterRuleNarrowsIff`, `Resolution.NamespaceRuleNarrowsIff`). At the pod tier it always does, unless it
  is the first (`Resolution.PodRuleNarrowsIff`).
- Policies are stored under names that end in eight hexadecimal digits of a hash. Nothing is assumed about collisions.
  Two vnets never want a policy under one key (`Drain.DesiredKeysApart`), because a vnet with a member has a stamp, and
  a stamp key fits the label limits only if the name is far from being cut. The names of the Service-owned policies
  differ unless a name is cut (`Families.OwnersUseDistinctKeys`, `Families.NamedWantsAreSound`).
- The API server takes the resolved form of a pod exactly when every stamp the pod should carry has a key that fits
  (`Settling.WritableIff`): the key of the cluster vnet, or of a vnet with at most 58 characters in its namespace and
  name together (`Settling.KeyFitsIff`). The resolution of any other pod keeps failing, and in the runs such a pod
  stays queued (`Protocol.Writable`).

**How it is built.** Reads go through `Cluster.Reader`, and writes through `VnetReconcile.Store`; both may fail at any
call. Code that updates state step by step is a method over these, proved against a function of the cluster; the
transition system in `Protocol` uses the same functions, so its steps are the steps of the proved methods. What each of
these functions means is stated once more on the fields of the objects, where a reader can check it without following
definitions: `Intent` for resolution, `Members.MemberIff`, `Generator.DesiredIff`, `Cluster.PermitsIff`,
`VnetReconcile.StatusSays`, `Stamps.ResolvedLabel`, `Ports.ExternalAllowMeans` and `Tracker.ServiceWants`, among others.
SHA-256 is an arbitrary function onto eight hexadecimal digits. Label selectors keep their Kubernetes meaning. The runs
start from any cluster with everything queued, as when the operator starts, and the environment may do anything the API
admits: namespaced objects live in existing namespaces, names of namespaces and vnets hold no dot, namespace names have
at most 63 characters and so has the name part of a label key, the vnet named `cluster` is the singleton of the operator
namespace and admits every namespace, a pod's spec changes only with its generation, a namespace is deleted only once it
is empty, and nobody takes the managed-by label off a policy (the policy watch would not see that,
internal/controller/virtualnetwork_controller.go:602-606).

To verify: `dafny verify dfyconfig.toml`.

| file | content |
|---|---|
| Prelude, Sorting | lookups and updates of maps; sort-and-compact |
| Directions, Names, Resolution | the direction algebra, the spellings of a vnet's identity, the resolver |
| Cluster, Resolver, Stamps | API objects and failing reads, desired labels, writing stamps |
| Intent | what users ask for, on the fields of their objects, and that the resolver computes it |
| Members, Generator, Traffic | who is a member, the policies, and what traffic they admit |
| VnetReconcile | the vnet reconcile under failures |
| Fanout, Protocol, PodFreshness, VnetFreshness, Invariant | watches, the transition system, the freshness invariant |
| Capstone | exact reachability when quiescent |
| Settling, Drain, Termination, Endless | when a pod comes to rest, when a vnet does, and exactly when runs become quiescent |
| Admission, Provenance | the webhooks, and where stamps come from |
| Ports, Families, Tracker | Service ports, the five policy families, PolicyRestored |

## Model

| member | source | states |
|---|---|---|
| `Resolution.Resolve` | internal/controller/resolution.go:203-304 | an effective direction for exactly the vnets the declarative rule resolves, on the layers in scope order: the first bare layer value, else the last value, `none` dropped; one exact report per layer |
| `Resolution.FoldLayers` | internal/controller/resolution.go:218-279 | after all layers the running values are those of the cascade, and each layer has reported exactly its conflicts and rejected overrides |
| `Resolution.FoldLayer` | internal/controller/resolution.go:219-278 | one layer moves the running value of every vnet by one step of the cascade and reports on exactly the vnets it should |
| `Resolution.FoldGroup` | internal/controller/resolution.go:225-277 | one vnet of one layer: a pin stays and rejects what differs from it, anything else yields; the other vnets are untouched |
| `Resolution.MeetGroup` | internal/controller/resolution.go:229-250 | the running intersection is the meet of all directions of the group, and the disagreement found against the running value is that some two bare directions differ |
| `Resolution.GroupByVnet` | internal/controller/resolution.go:219-223 | each vnet gets exactly its own rules, in order |
| `Resolution.CascadeDecides` | internal/controller/resolution.go:264-277 | the running value after n layers is the value of the layer that decides the vnet among them, with its scope |
| `Resolution.CascadeResolves` | internal/controller/resolution.go:281-289 | stripping the last running value and dropping `none` is the declarative rule |
| `Resolution.OverridesIffBlocked` | internal/controller/resolution.go:261-276 | a layer is rejected iff its value differs from the earliest pin above it, and the report names that pin |
| `Resolution.FoldedIsExact` | internal/controller/resolution.go:218-279 | the reports of a layer are a conflict per disagreeing vnet and a rejection per override attempt, no more and no less |
| `Resolution.ResolvesByTier` | internal/controller/resolution.go:187-202 | with one layer per scope the result depends only on the three sets of directions the vnet has: not on rule order, layer order or other vnets |
| `Directions.IntersectIsMeet` | internal/controller/resolution.go:154-185 | one step of the intersection grants an ability iff every direction so far grants it; the result is override-able iff all are |
| `Directions.ParseInvertsRender` | internal/controller/policy_generator.go:105-144 | parsing accepts exactly the eight rendered directions, and the pod tier exactly the four bare ones |
| `Resolution.ClusterRuleNarrowsIff` | internal/controller/resolution.go:154-185 | a further rule at the cluster tier grants no ability anew, whatever the tiers below hold, iff the tier had a pin, or the rule is a default too, or the new pin grants nothing; a first rule only if it grants nothing |
| `Resolution.NamespaceRuleNarrowsIff` | internal/controller/resolution.go:245-250 | the same at the namespace tier, whatever the tiers around it hold |
| `Resolution.PodRuleNarrowsIff` | internal/controller/resolution.go:252-277 | at the pod tier it narrows iff it is not the first there, or grants nothing |
| `Names.NamingPathsAgree` | internal/controller/resolver.go:283-309 | label suffix, reference, binding target, stamp, split key and policy label of a vnet all name that vnet again |
| `Names.ClusterNamingAgrees` | internal/controller/resolution_controller.go:247-267 | however the cluster vnet is named, it has one key and one target; `<ns>.cluster` is not a join label |
| `Names.CanonicalKeyOfUserVnet` | internal/controller/permits.go:111-129 | the key of a user vnet splits at its first dot into its home and name, and is already in stamped form |
| `Names.CanonicalKeyInjective` | internal/controller/policy_generator.go:165-177 | two vnets share a stamp key iff they are equal or both named `cluster` |
| `Names.NetworkIdInjective` | internal/controller/virtualnetwork_controller.go:668-676 | the network label of a policy determines its vnet |
| `Names.PolicyName` | internal/controller/policy_generator.go:179-216 | a membership policy name never exceeds 253 characters |
| `Names.PolicyNameInjective` | internal/controller/policy_generator.go:179-216 | names that are not cut are equal iff the stamp keys are, for every hash |
| `Names.LabelRoundTrip` | internal/controller/resolver.go:311-317 | every label string parses into its family and renders back to itself |
| `Names.CutJoin` | internal/controller/permits.go:124-128 | cutting a joined key at the first dot gives the two parts back |
| `Cluster.IsManaged` | internal/controller/namespace.go:57-71 | exactly the namespace filter, or an error: a missing namespace is not managed |
| `Cluster.PermitsForVnet` | internal/controller/permits.go:70-109 | home, `all`, names, then selector, exactly; a malformed selector or a missing namespace admits nothing; only a failed read is an error |
| `Cluster.IsPermitted` | internal/controller/permits.go:17-42 | whether the key permits the namespace, or an error only if a read failed; bare `cluster` is permitted without a read |
| `Cluster.NamespacesAdmittedBy` | internal/controller/permits.go:44-68 | exactly the namespaces the vnet admits, or an error |
| `Cluster.PermitsCanonical` | internal/controller/permits.go:17-42 | the key of a user vnet permits a namespace iff the vnet exists and admits it |
| `Cluster.PermitsIff` | internal/controller/permits.go:17-42 | every key: bare `cluster` permits every namespace whatever vnets there are; any other key exactly where it spells home and name of an existing vnet that admits the namespace |
| `Cluster.AllowedIsUnion` | internal/controller/permits.go:70-109 | allowedNamespaces is the union of `all`, names and selector, each alone, on top of the home namespace; a selector sees existing namespaces under their own name label |
| `Resolver.DesiredLabels` | internal/controller/resolver.go:31-51 | for any pattern of failing reads: an error, or exactly the labels of the failure-free case; an error only if a read failed |
| `Resolver.BuildLayers` | internal/controller/resolver.go:53-84 | one layer per tier that has permitted rules, holding exactly what that tier grants |
| `Resolver.FilterPermittedRules` | internal/controller/resolver.go:106-136 | in place: the first n slots grant exactly the permitted grants, under the identity they are stamped with |
| `Resolver.BindingRules` | internal/controller/resolver.go:183-222 | exactly what the matching bindings of the namespace grant; an empty direction is `both` |
| `Resolver.BaselineRules` | internal/controller/resolver.go:165-181 | exactly what the memberships with a valid direction grant |
| `Resolver.PodLabelRules` | internal/controller/resolver.go:224-273 | exactly what the join labels with a bare direction grant, except `<X>.cluster` |
| `Resolver.DesiredLookup` | internal/controller/resolver.go:31-51 | a pod should carry a stamp iff the three tiers decide on a direction other than `none`, with that value; a host-port stamp iff it has that host port |
| `Resolver.StampsNameAdmittingVnets` | internal/controller/resolver.go:75-78 | every desired stamp other than the cluster one names an existing vnet that admits the namespace |
| `Intent.StampIsDecided` | internal/controller/resolver.go:53-84 | on the fields of the baselines, bindings and labels: a bare membership in the cluster baseline decides on the stamp, else one in the baseline of the namespace, else bindings and join labels together, else the defaults, the namespace's first; the stamp is what all of the deciding directions grant, and no stamp if that is nothing |
| `Intent.EffectiveIsDecided` | internal/controller/resolver.go:31-51 | what the resolver computes through keys, permissions, layers and the cascade is that decision, for every vnet and pod |
| `Intent.TiersSay` | internal/controller/resolver.go:53-62 | each tier says of a vnet exactly what its own object says: the cluster baseline, the baseline of the namespace, its bindings and the labels of the pod |
| `Intent.RefersByKey` | internal/controller/resolver.go:283-309 | the key of a reference grants a vnet iff the reference, read in the namespace, is one to that vnet, which exists and admits the namespace; the cluster vnet needs no namespace |
| `Intent.JoinsByKey` | internal/controller/resolver.go:224-281 | a join label grants a vnet iff it is the qualified label, or the short one in the home namespace, of an existing vnet that admits the namespace; the cluster vnet has the bare label only |
| `Intent.OnlyStampsAndHostPorts` | internal/controller/resolver.go:42-50 | besides stamps the desired labels are `true` for each declared host port, and never a label of a user |
| `Intent.ClusterLabelJoins` | internal/controller/permits.go:28-30 | where nothing else is said, the bare cluster join label is stamped with its own direction, in every namespace and whatever vnets there are |
| `Stamps.PodObject.SyncManagedLabels` | internal/controller/sweep.go:116-138 | managed labels equal the desired ones, all others are left alone, and `changed` tells whether any label differs |
| `Stamps.PodObject.SyncStamps` | internal/controller/stamps.go:25-46 | the owned stamps become exactly the desired ones; `changed` is exact |
| `Stamps.PodObject.MarkResolved` | internal/controller/stamps.go:48-57 | the pod counts as resolved afterwards |
| `Stamps.PodObject.ClearResolved` | internal/controller/stamps.go:59-67 | both markers go; reports whether either was there |
| `Stamps.StripStampedLabels` | internal/controller/resolution_controller.go:295-305 | a pod of an unmanaged namespace loses every stamp and marker, and is written only if that changes it |
| `Stamps.ApplyResolution` | internal/controller/resolution_controller.go:269-281 | the pod gets the desired stamps and the marker; nothing is written if both are in place |
| `Stamps.ReconcilePod` | internal/controller/resolution_controller.go:79-133 | writes exactly the resolved pod, nothing when it is already in that form, and nothing at all on a failed read |
| `Stamps.ResolvedLabel` | internal/controller/resolution_controller.go:91-133 | label by label: no label of a user changes; the operator's labels become the desired ones, go where the namespace is excluded or disabled, and stay where it is gone |
| `Stamps.ResolvedMarkers` | internal/controller/resolution_controller.go:91-133 | and the markers alone: they go in an excluded or disabled namespace, and elsewhere every resolved pod has one, that of its generation if anything was written |
| `Stamps.MarkerRecordsGeneration` | internal/controller/stamps.go:48-57 | the marker tells the generations of a pod apart |
| `Members.DiscoverMembers` | internal/controller/virtualnetwork_controller.go:309-424 | lists exactly the pods that carry the resolved marker and a stamp other than `none`, in a namespace that exists, is neither excluded nor disabled and that the vnet admits, all of it now; join labels play no part; the invalid joiners come in the order of the pod list; any failed read fails the listing |
| `Members.Scan.IsEligible` | internal/controller/virtualnetwork_controller.go:337-357 | the memoised answer is the current one: the namespace exists, is neither excluded nor disabled, and the vnet admits it |
| `Members.Scan.AdmitsNamespace` | internal/controller/virtualnetwork_controller.go:327-336 | the memoised answer is the current one |
| `Members.Scan.Member` | internal/controller/virtualnetwork_controller.go:402-414 | a pod is a member iff stamped and in an eligible namespace, with the direction of its stamp |
| `Members.Scan.Diagnose` | internal/controller/virtualnetwork_controller.go:362-400 | a pod is an invalid joiner iff it names the vnet from an admitted namespace, with a bad direction or from an unmanaged namespace, and the reason is the first of these |
| `Members.MemberIff` | internal/controller/virtualnetwork_controller.go:402-414 | membership on the fields: marker, stamp and direction of the pod, state of its namespace, allowedNamespaces of the vnet |
| `Members.InvalidJoinerIff` | internal/controller/virtualnetwork_controller.go:362-400 | the diagnostics go by exactly the join labels that wake the vnet: a value that is no bare direction, or else a namespace that is gone, excluded or disabled |
| `Generator.Generate` | internal/controller/policy_generator.go:269-373 | the listed policies are exactly one per namespace with a receiver, each admitting exactly the sorted namespaces with an initiator |
| `Generator.MemberNamespaces` | internal/controller/policy_generator.go:282-294 | the sorted, duplicate-free namespaces with a member |
| `Generator.PeerRules` | internal/controller/policy_generator.go:296-320 | one peer per initiator namespace, sorted; receiver-only namespaces give none |
| `Generator.ReceiverPolicies` | internal/controller/policy_generator.go:322-373 | one policy per receiver namespace, and none for the others |
| `Generator.ListedNamespaces` | internal/controller/virtualnetwork_controller.go:155-163 | generating from the discovered members gives the desired policies |
| `Generator.DesiredIff` | internal/controller/virtualnetwork_controller.go:133-163 | on the fields: a policy in exactly the namespaces with a receiving member, as long as the vnet is the system's, wherever it lives, or its home exists and is neither excluded nor disabled; else none |
| `Generator.OwnedAtHomeOnly` | internal/controller/policy_generator.go:359-368 | only the policy in the home namespace has an owner, and that is the vnet that lives there, with its uid |
| `Traffic.StampSelectorSelects` | internal/controller/policy_generator.go:94-103 | a receiver selector picks exactly the pods whose stamp receives, an initiator selector those whose stamp initiates |
| `Traffic.PeersAdmit` | internal/controller/policy_generator.go:296-320 | the peers admit exactly the stamped initiators of the listed namespaces |
| `Traffic.MembershipPolicyAdmits` | internal/controller/policy_generator.go:322-373 | a membership policy admits exactly stamped initiators of the listed namespaces to stamped receivers of its own |
| `Traffic.CompilerPreservesMeaning` | internal/controller/policy_generator.go:254-373 | the union of all policies over the deny-all baseline admits exactly the pairs with an initiator and a receiver of a common served vnet, for any two pods whose stamps are their memberships; egress-only members get no policy and stay peers |
| `Traffic.AllowedMeansStamped` | internal/controller/policy_generator.go:346-351 | whatever the stamps say, allowed traffic runs between namespaces eligible for a common served vnet |
| `Traffic.ConnectedIsAllowed` | internal/controller/policy_generator.go:254-373 | every initiator-receiver pair of a served vnet is let through |
| `Traffic.BaselineSelectsAll` | internal/controller/baseline.go:14-40 | the baseline isolates every pod of its namespace |
| `VnetReconcile.PartialFailure` | internal/controller/virtualnetwork_controller.go:165-229 | under any failing applies: applied policies match their desired form, no stale one is left outside the failed namespaces, nothing is deleted in those or under a desired key, other owners are untouched |
| `VnetReconcile.PolicyAfter` | internal/controller/virtualnetwork_controller.go:183-229 | what a reconcile with failures leaves under each key |
| `VnetReconcile.ReconcileVnet` | internal/controller/virtualnetwork_controller.go:97-277 | the policies afterwards are those of `PoliciesAfter` for the calls that failed; for a served vnet an error is returned iff some call failed; if none did, or any status is written at all, the status of the vnet is the one `StatusOf` gives for some order of the pod list |
| `VnetReconcile.ServeVnet` | internal/controller/virtualnetwork_controller.go:155-277 | the same for a served vnet; a failed listing writes nothing |
| `VnetReconcile.RemoveVnet` | internal/controller/virtualnetwork_controller.go:102-113 | a vnet that is gone or not served loses all its policies |
| `VnetReconcile.CheckServed` | internal/controller/virtualnetwork_controller.go:133-153 | served iff it exists and is a system vnet or its home is managed |
| `VnetReconcile.ApplyAll` | internal/controller/virtualnetwork_controller.go:183-220 | a failing apply does not stop the loop: each policy not applied has failed by a call of its own, and a settled store is not written |
| `VnetReconcile.ApplyOne` | internal/controller/virtualnetwork_controller.go:186-210 | a terminating namespace is skipped without error, and a failed namespace read counts as a failed apply |
| `VnetReconcile.DeleteMembershipPolicies` | internal/controller/virtualnetwork_controller.go:426-437 | deletes exactly the policies of the vnet that are neither kept nor in a spared namespace |
| `VnetReconcile.Store.Apply` | internal/controller/sweep.go:14-60 | the policy becomes the desired one, written only if it differed; says whether it was absent |
| `VnetReconcile.Store.Sweep` | internal/controller/sweep.go:68-98 | deletes exactly what is selected and not kept, up to the first failing delete |
| `VnetReconcile.Store.WriteStatus` | internal/controller/virtualnetwork_controller.go:464-474 | no write when the status, conditions included, is unchanged |
| `VnetReconcile.ListedStatus` | internal/controller/virtualnetwork_controller.go:231-274 | what the reconcile assembles from its listings is the status of that order: the names of the members, the applied policies, the counts and the first three invalid joiners |
| `VnetReconcile.StatusSays` | internal/controller/virtualnetwork_controller.go:137-274 | on the fields: an unserved vnet is reported so and has nothing; a served one lists its members and applied policies, is not ready for a failed apply, says it has no members iff no pod receives, and is degraded iff there is an invalid joiner, counting all and naming three |
| `Fanout.PodsIn` | internal/controller/resolution_controller.go:353-378 | each pod of the namespaces once, and of all namespaces for the empty name; a failed list leaves a subset |
| `Fanout.ClusterBaselineToPods` | internal/controller/resolution_controller.go:385-390 | every pod of the cluster |
| `Fanout.VnetToAffectedPods` | internal/controller/resolution_controller.go:398-413 | exactly the pods of the namespaces the vnet admits |
| `Fanout.NsToVnets` | internal/controller/virtualnetwork_controller.go:619-640 | exactly the vnets that admit the namespace as it is now; a failed check leaves a subset |
| `Fanout.PodToVnets` | internal/controller/virtualnetwork_controller.go:642-666 | exactly the vnets the join labels and stamps of the pod name |
| `PodFreshness.UnwokenSameView` | internal/controller/resolution_controller.go:307-413 | after any single change, a pod that is not enqueued sees the same inputs to resolution as before |
| `PodFreshness.UnwokenByVnet` | internal/controller/resolution_controller.go:398-413 | a vnet change leaves the pods outside both admitted sets alone |
| `PodFreshness.SameResolution` | internal/controller/resolver.go:31-51 | resolution depends on nothing but that view |
| `PodFreshness.ChangeCoversPods` | internal/controller/resolution_controller.go:307-413 | every pod stays queued or synced under any change |
| `PodFreshness.RunPodIsChange` | internal/controller/resolution_controller.go:269-281 | a resolution takes a synced pod off the queue, and otherwise is a change that enqueues the pod again |
| `VnetFreshness.UnwokenPodEvent` | internal/controller/virtualnetwork_controller.go:560-581 | a pod event that moves the stamp of a vnet, or the marker of a pod that has it, wakes that vnet |
| `VnetFreshness.UnwokenSameDiagnosis` | internal/controller/virtualnetwork_controller.go:560-581 | a pod event that could change what the diagnostics of a vnet say of any pod wakes that vnet: join labels count as well as stamps |
| `VnetFreshness.UnwokenPolicyEvent` | internal/controller/virtualnetwork_controller.go:668-676 | a policy event on a policy of a vnet, before or after, wakes that vnet |
| `VnetFreshness.UnwokenNamespace` | internal/controller/virtualnetwork_controller.go:619-640 | a namespace that does not wake a vnet is not eligible for it, nor its home |
| `VnetFreshness.ChangeKeepsFresh` | internal/controller/virtualnetwork_controller.go:590-676 | a change that does not wake a vnet leaves its policies fresh, or takes eligibility from a stamped pod and queues that pod |
| `VnetFreshness.ExcuseKept` | internal/controller/virtualnetwork_controller.go:590-676 | a change that does not wake a vnet keeps the pods that excuse it |
| `VnetFreshness.ResolutionStrips` | internal/controller/resolution_controller.go:91-133 | resolution leaves no stamp of a vnet on a pod that may not join it |
| `VnetFreshness.SyncedExcusesNobody` | internal/controller/resolution_controller.go:91-133 | so a synced pod excuses no vnet, and stripping a stamp wakes it |
| `VnetFreshness.CleanRun` | internal/controller/virtualnetwork_controller.go:97-277 | a reconcile without a failure leaves exactly the generated policies |
| `VnetFreshness.RunVnetCoversVnets` | internal/controller/virtualnetwork_controller.go:97-277 | a reconcile, failing or not, leaves every vnet queued, fresh or excused |
| `Invariant.StepKeepsInv` | internal/controller/resolution_controller.go:307-413 | the freshness invariant is inductive over every step |
| `Invariant.RunKeepsInv` | internal/controller/virtualnetwork_controller.go:590-676 | it holds in every state of every run |
| `Invariant.InitHasInv` | internal/controller/virtualnetwork_controller.go:594-617 | it holds when the operator starts |
| `Capstone.QuiescentIsExact` | internal/controller/virtualnetwork_controller.go:97-277 | in every run, with both queues empty, ingress is allowed iff for some vnet, of the system's or of a managed home, the baselines, bindings, labels and allowedNamespaces decide on a receiving direction for the destination and an initiating one for the source, all read off their fields |
| `Capstone.QuiescentByStamps` | internal/controller/policy_generator.go:105-144 | the same on the pods: ingress is allowed iff the destination carries `both` or `ingress` and the source `both` or `egress` for one vnet, of the system's or of a managed home |
| `Capstone.SystemVnetConnects` | internal/controller/virtualnetwork_controller.go:137-142 | a system vnet connects its members wherever it lives, in an excluded or disabled namespace too |
| `Capstone.UnqueuedPodsAreExact` | internal/controller/virtualnetwork_controller.go:97-277 | the same for any two pods that are not queued, as soon as the vnet queue is empty and no queued pod excuses a vnet |
| `Capstone.FreshAndSyncedIsExact` | internal/controller/policy_generator.go:254-373 | fresh policies give exact reachability between any two synced pods |
| `Capstone.SyncedIsIntended` | internal/controller/resolver.go:31-51 | a synced pod is a member of a vnet exactly as its users decided, and its stamp says so |
| `Capstone.FreshIsCompiled` | internal/controller/virtualnetwork_controller.go:165-229 | fresh vnets mean a store that holds the desired policies and no other |
| `Capstone.AllowedStaysEligible` | internal/controller/virtualnetwork_controller.go:406-414 | with pods still queued, allowed traffic runs between two namespaces that exist, are neither excluded nor disabled, and are admitted by a common vnet, of the system's or of a managed home, now |
| `Settling.WritableIff` | internal/controller/resolution_controller.go:269-281 | the API server takes the resolved form of a pod iff every stamp the pod should carry has a key of at most 59 characters after `net.` |
| `Settling.KeyFitsIff` | internal/controller/policy_generator.go:165-177 | the key of a vnet fits iff it is the cluster vnet, or its namespace and name have at most 58 characters together |
| `Settling.ResolutionIsIdempotent` | internal/controller/resolution_controller.go:269-281 | resolving a resolved pod changes nothing iff the pod is unmanaged or its new stamps do not change what it resolves to |
| `Settling.SyncedStaysIff` | internal/controller/sweep.go:116-138 | synced labels stay under another desired set iff it is the same set |
| `Settling.SyncIsIdempotent` | internal/controller/sweep.go:116-138 | syncing twice is syncing once, and user labels stay |
| `Settling.SameLabelsSameDesired` | internal/controller/resolver.go:183-273 | pods that differ in stamps alone resolve alike if no binding of the namespace tells them apart |
| `Settling.AvoidingStampsSelectsAlike` | internal/controller/resolver.go:199-204 | bindings that select on no stamp never tell a pod from its resolved form |
| `Settling.AlikeSettles` | internal/controller/resolution_controller.go:269-281 | so a pod comes to rest that no binding tells from its resolved form, if the labels of that form fit |
| `Settling.OneBindingSettlesIff` | internal/controller/resolver.go:199-204 | with one binding, for any vnet, selector and direction: a pod without join labels ever comes to rest iff the binding does not take it in outside the vnet while refusing it inside; where the stamp does not fit, iff it is taken in neither as it is nor outside |
| `Settling.BindingOnItsOwnAbsence` | internal/controller/resolver.go:199-204 | a binding for the pods without its own stamp does that to every pod, if its vnet admits the namespace and its direction is not `none`, and else to none |
| `Settling.BindingOnItsOwnPresence` | internal/controller/resolver.go:199-204 | one for the pods with its own stamp does it to none |
| `Drain.WritesNothingIff` | internal/controller/virtualnetwork_controller.go:464-474 | with fresh policies a clean reconcile writes nothing iff the status is the one for the order in which it lists the pods |
| `Drain.ConvergedWritesNothingIff` | internal/controller/virtualnetwork_controller.go:359-399 | a reconcile of a converged vnet writes nothing under every order of the pod list iff the vnet has at most one invalid joiner |
| `Drain.OrderDoesNotShow` | internal/controller/virtualnetwork_controller.go:231-239 | with at most one invalid joiner every order gives the same condition |
| `Drain.TwoInvalidDisagree` | internal/controller/virtualnetwork_controller.go:231-239 | with two, whatever the status, some order asks for another |
| `Drain.CleanRunConverges` | internal/controller/virtualnetwork_controller.go:464-474 | one clean reconcile makes a vnet converge, policies and status, for the order in which it lists the pods |
| `Drain.OtherStaysConverged` | internal/controller/virtualnetwork_controller.go:426-437 | and leaves the other vnets converged |
| `Drain.DesiredKeysApart` | internal/controller/policy_generator.go:179-216 | no two vnets ever want a policy under one key, for every hash: a vnet with a member has a stamp key that fits, so its name is not cut |
| `Termination.RunPodDrains` | internal/controller/resolution_controller.go:269-281 | a resolution brings its pod a write nearer to rest and no other further from it, or shrinks the queue |
| `Termination.RunVnetDrains` | internal/controller/virtualnetwork_controller.go:464-474 | a clean vnet reconcile shrinks the vnets to converge, or the queue if it lists the pods in an order the status shows |
| `Termination.SilentStepSameInvalids` | internal/controller/virtualnetwork_controller.go:359-399 | no silent step changes which joiners of which vnet are invalid |
| `Termination.SilentStepDrains` | internal/controller/resolution_controller.go:269-281 | with at most one invalid joiner a vnet, every silent step decreases the lexicographic measure: writes left on pods, vnets to converge, queue length |
| `Termination.DrainsFrom` | internal/controller/resolution_controller.go:269-281 | and every schedule of reconciles is finite |
| `Termination.AvoidingStampsSettles` | internal/controller/resolver.go:199-204 | under bindings that select on no stamp every pod comes to rest, if the resolved labels of all fit |
| `Termination.EveryScheduleDrains` | internal/controller/virtualnetwork_controller.go:464-474 | if every pod comes to rest on its own and no vnet has two invalid joiners, every schedule, with any pod lists, reaches empty queues, synced pods and fresh vnets |
| `Endless.TwoInvalidNeverDrain` | internal/controller/virtualnetwork_controller.go:590-596 | from every state that queues a vnet with two invalid joiners some schedule never takes it off the queue |
| `Endless.EveryScheduleDrainsIff` | internal/controller/virtualnetwork_controller.go:464-474 | from a state that queues such vnets, as a start does: every schedule comes to rest iff every pod does on its own and there is no such vnet |
| `Endless.TwoJoinersNeverRest` | internal/controller/virtualnetwork_controller.go:231-239 | a started operator, a vnet and two pods that ask for it from a disabled namespace: a schedule that never ends |
| `Termination.SettlesIffPodsDo` | internal/controller/resolution_controller.go:269-281 | from a state of a run, some sequence of silent steps ends settled iff every pod comes to rest on its own, whatever the invalid joiners |
| `Termination.PathContinuesRun` | internal/controller/resolution_controller.go:269-281 | every such sequence continues the run it starts from |
| `Admission.Mutate` | internal/webhook/podresolution/mutator.go:23-79 | exactly the stamped pod, or an error: only stamps the request left untouched are written or pruned; operator writes and unmanaged namespaces pass as they are |
| `Admission.Validate` | internal/webhook/podresolution/validator.go:35-95 | exactly the touched stamps that differ from resolution are denied, and a failed read rejects; the operator, and whoever touches no stamp, is admitted without a read |
| `Admission.CheckStamps` | internal/webhook/podresolution/validator.go:73-85 | bad are exactly the touched stamps that are present and unresolved, differ, or are removed and still resolved |
| `Admission.UntouchedMeansEqual` | internal/webhook/podresolution/handlers.go:81-88 | untouched means that the old and the new pod agree on the stamp |
| `Admission.JudgeIsExact` | internal/webhook/podresolution/validator.go:44-94 | a request is admitted iff every stamp it touched is as resolved, or absent and unresolved |
| `Admission.MutatedLabel` | internal/webhook/podresolution/mutator.go:51-56 | behind the mutator an untouched stamp is as resolved, and everything else as submitted |
| `Admission.MutatorThenValidator` | internal/webhook/podresolution/validator.go:12-29 | behind the mutator, whatever bindings look at, a request is admitted iff every stamp it touched is as the mutated pod resolves, and every other as the old pod had it or as the mutated pod resolves |
| `Admission.UntouchedStampsPass` | internal/webhook/podresolution/validator.go:23-26 | so iff every stamp it touched itself is as resolved, where the mutation does not change what the pod resolves to |
| `Admission.MutationKeepsDesired` | internal/controller/resolver.go:183-273 | which it does not unless a binding of the namespace tells the mutated pod from the submitted one |
| `Admission.AdmittedIsSynced` | internal/webhook/podresolution/mutator.go:46-57 | the next reconcile of an admitted pod writes nothing iff the mutated pod still resolves to the stamps the mutator set |
| `Admission.AvoidingStampsAdmits` | internal/webhook/podresolution/validator.go:23-26 | where the bindings of the namespace select on no stamp: admitted iff every stamp the request touched is as resolved, and then the pod is its own resolved form |
| `Admission.UnmanagedAdmitsRemovalOnly` | internal/webhook/podresolution/validator.go:55-66 | in an unmanaged namespace stamps may only be left or removed |
| `Admission.OperatorWritesPass` | internal/webhook/podresolution/validator.go:36-38 | the write of the resolution reconcile is admitted as sent; by anyone else it is in a managed namespace iff the stamps it changes are those the written pod resolves to again |
| `Admission.OneBindingAdmitsIff` | internal/webhook/podresolution/validator.go:59-63 | with one binding, for any vnet, selector and direction: an honest create is admitted iff the binding does not take the submitted pod in while refusing it as a member |
| `Admission.OwnAbsenceRejects` | internal/webhook/podresolution/validator.go:59-63 | a binding for the pods without its own stamp turns away every honest create, which touched no stamp, iff its vnet admits the namespace and its direction is not `none` |
| `Provenance.WrittenAsResolved` | internal/webhook/podresolution/validator.go:25-29 | whoever writes a stamp, mutator run or skipped, it is written as resolved |
| `Provenance.EveryStampWasResolved` | internal/webhook/podresolution/validator.go:44-85 | every stamp in every history holds the value resolution gave the pod when it was last written |
| `Provenance.StampsWereAdmitted` | internal/controller/resolver.go:75-78 | its vnet existed and admitted the managed namespace then |
| `Ports.ResolveTargetPorts` | internal/controller/external_allow_controller.go:355-386 | the sorted, duplicate-free set of ports over the selected pods, whatever the list order; an error iff no backing pod declares the name |
| `Ports.BuildExternalAllowPolicy` | internal/controller/external_allow_controller.go:273-298 | a function of the Service and the set of its pods; one unresolvable port fails it |
| `Ports.BuildApiserverReachablePolicy` | internal/controller/apiserver_reachable_controller.go:166-197 | likewise; an undeclared port is emitted as it is |
| `Ports.PolicyPortsExact` | internal/controller/external_allow_controller.go:283-296 | the policy opens exactly the pod-side ports the Service reaches, each once, and is missing iff some port cannot be resolved |
| `Ports.ApiserverPortsExact` | internal/controller/apiserver_reachable_controller.go:178-197 | the apiserver-reachable policy opens exactly the pod-side ports the apiserver arrives at, over TCP, each once, and is missing iff some dialed port cannot be resolved |
| `Ports.FirstDeclared` | internal/controller/apiserver_reachable_controller.go:199-207 | a dialed port is the first the Service declares under that number, if it declares one |
| `Ports.ExternalAllowMeans` | internal/controller/external_allow_controller.go:278-353 | from the Service and its backends alone: no policy iff it selects no pods or does not face outside; it waits iff some port arrives nowhere; it selects the pods by the labels of the Service, and admits every IPv4 address at exactly the ports where traffic arrives |
| `Ports.ApiserverReachableMeans` | internal/controller/apiserver_reachable_controller.go:166-197 | likewise, from the configured address range or from everywhere, at exactly the ports the apiserver arrives at |
| `Ports.TargetsExact` | internal/controller/external_allow_controller.go:355-386 | a target port is the number as it stands, the declared numbers of a name, or the port of the Service where there is neither |
| `Ports.BackendsAreSelected` | internal/controller/external_allow_controller.go:399-411 | the backends of a selector are the pods a policy with it would select if absent labels were empty ones |
| `Ports.AppendAllExact` | internal/controller/external_allow_controller.go:388-397 | appending never duplicates and never drops |
| `Ports.UnenqueuedSamePolicies` | internal/controller/external_allow_controller.go:481-517 | a pod create, delete or relabel that does not enqueue a Service leaves both of its policies equal |
| `Ports.UnflippedSamePorts` | internal/controller/external_allow_controller.go:399-411 | a pod that does not enter or leave the selector does not change the resolved ports |
| `Families.SweepsDoNotInterfere` | internal/controller/external_allow_controller.go:119-149 | no sweep picks a policy another owner emits: not another family, not another vnet, not another Service |
| `Families.OwnersSweepTheirOwn` | internal/controller/external_allow_controller.go:245-256 | every owner can sweep what it emits |
| `Families.UnmarkedSourceIsTheServices` | internal/controller/external_allow_controller.go:141-149 | a policy without a source kind that a Service controls is swept by the Service source of that Service alone |
| `Families.ForeignPoliciesStay` | internal/controller/sweep.go:68-98 | a policy not labelled as managed by kube-vnet, under a name nobody wants, comes through every interleaving unchanged |
| `Families.ServiceBuildersEmit` | internal/controller/external_allow_controller.go:151-156 | the two Service builders emit the shapes the sweeps go by |
| `Families.OwnersUseDistinctKeys` | internal/controller/external_allow_controller.go:419-430 | distinct owners store under distinct names, for every hash, unless a name is cut |
| `Families.NamedWantsAreSound` | internal/controller/external_allow_controller.go:419-430 | what the builders emit under the names they give it never collides, unless a name is cut or a Service has two uids |
| `Families.CleanReconcileConverges` | internal/controller/sweep.go:68-98 | a clean reconcile leaves exactly what its owner wants |
| `Families.OthersKeepConverged` | internal/controller/hostport_controller.go:72-116 | no reconcile of another owner that is there, failing or not, undoes that |
| `Families.GoneServiceKeepsConvergedIff` | internal/controller/external_allow_controller.go:258-271 | the reconcile of a gone Service keeps an owner converged if it sweeps no policy that owner wants, and a clean one only then |
| `Families.SparesIff` | internal/controller/external_allow_controller.go:258-271 | which is so iff the owner is no Service of that namespace and kind with an equal source label |
| `Families.ConvergenceComposes` | internal/controller/external_allow_controller.go:241-256 | in any interleaving, reconciles of gone Services included, whoever has had one clean turn has exactly what it wants from then on, as long as none of those sweeps a policy it wants |
| `Families.ConvergenceLastsIff` | internal/controller/external_allow_controller.go:258-271 | after the last turn of an owner, a clean one, it is converged iff every gone Service reconciled since, cleanly, spared it |
| `Families.VnetReconcileIsATurn` | internal/controller/virtualnetwork_controller.go:426-437 | the vnet reconcile is such a turn, whatever fails |
| `Families.SweepByKeyIsByLabel` | internal/controller/external_allow_controller.go:258-271 | of all that anyone emits, the sweep of a gone Service picks exactly the policies, of its own source kind, of Services with an equal source label: no other family |
| `Families.FittingSourcesAreDistinct` | internal/controller/policy_generator.go:229-233 | source labels that are not cut are distinct |
| `Families.CutSourceCollides` | internal/controller/policy_generator.go:234-240 | a cut source label equals that of another name, for every hash |
| `Tracker.RestoreIsExact` | internal/controller/signals.go:36-77 | a restore is reported iff the reconcile created a policy that was applied before and wanted ever since, over any history with failed applies |
| `Tracker.TrackedMeansApplied` | internal/controller/signals.go:36-77 | the tracked keys are those applied before and wanted ever since |
| `Tracker.PolicyTracker.Applied` | internal/controller/signals.go:45-56 | restored iff created and tracked; the key is tracked afterwards |
| `Tracker.PolicyTracker.Forget` | internal/controller/signals.go:58-66 | drops the key and no other |
| `Tracker.PolicyTracker.ForgetNamespace` | internal/controller/signals.go:68-77 | the loop drops exactly the keys of the namespace that are not kept |
| `Tracker.ReconcileHostPorts` | internal/controller/hostport_controller.go:57-116 | reports exactly the tracked policies it found missing, keeps tracking what failed to apply, and is a turn of its owner |
| `Tracker.ApplyHostPorts` | internal/controller/hostport_controller.go:89-111 | a failing apply does not stop the loop: each wanted policy not applied has failed by a call of its own; those applied are tracked, and those missing before reported |
| `Tracker.HostPortsLeft` | internal/controller/hostport_controller.go:72-116 | on the fields: a clean turn leaves the wanted policies and no other of that source; or none, where the namespace is excluded, disabled or opted out |
| `Tracker.ReconcileBaseline` | internal/controller/namespace_reconciler.go:36-83 | the baseline, and nothing else of its role, in a managed namespace, nothing in an unmanaged one; a turn of its owner, and exact about restores |
| `Tracker.BaselineLeft` | internal/controller/namespace_reconciler.go:55-82 | on the fields: a clean turn leaves a policy that selects every pod and admits nothing, and no other of its role; or none, where the namespace is excluded or disabled |
| `Tracker.ReconcileService` | internal/controller/external_allow_controller.go:188-243 | the same for the external-allow and the apiserver-reachable policy of a Service; while a named port is waited for, or the namespace terminates, nothing changes and nothing is forgotten |
| `Tracker.ServiceWants` | internal/controller/external_allow_controller.go:200-229 | on the fields: which Services have a policy at all, and that the Service controls it |
| `Tracker.ServeOrDrop` | internal/controller/external_allow_controller.go:200-203 | opted out or unmanaged means forgotten and swept |
| `Tracker.BuildDesired` | internal/controller/apiserver_reachable_controller.go:68-87 | the desired policy, or what read failed: no cluster IP, no selector or no reference means none |
| `Tracker.WantedIsEmitted` | internal/controller/external_allow_controller.go:151-156 | what a Service wants is what its owner emits, under a key its owner uses |
| `Tracker.ServeService` | internal/controller/external_allow_controller.go:205-242 | apply, track and sweep; no policy wanted means forgotten and swept; an unresolvable port leaves everything as it is |
| `Tracker.ForgetService` | internal/controller/external_allow_controller.go:171-195 | a Service that is gone is forgotten, and its reconcile is the turn of a gone Service |
| `Sorting.SortCompact` | internal/controller/external_allow_controller.go:384-385 | sorting and compacting lists each element once, in increasing order |
| `Sorting.IncreasingUnique` | internal/controller/external_allow_controller.go:384-385 | so the result depends on the elements alone |

## Left out

- The order of conflict and rejection reports, Events and metrics; the wording of condition messages, which are modelled as what they are made of. The errors of failed applies are any text.
- Annotations on policies: no builder sets any.
- VnetReconcile.Store.Apply: labels another field manager adds to a policy are overwritten here; in Kubernetes they survive an apply.
- The observed generation in a vnet's status, which follows the spec and does not depend on the order of lists; transition times, which move only with a condition's status. The ten-minute requeue.
- The DNS-1123 check on vnet names inside the vnet reconcile: the API server enforces it before, and the model takes it from there.
- Cache lag, leader election, and watches whose map function fails a read: runs see current state, and an event enqueues all it maps to. `Fanout` shows what a failing map still enqueues.
- Pods and vnets being deleted: an object is there or gone. Baselines under another name than `default`, which resolution never reads.
- Who writes the baseline during runs: the capstone asks that it is there, and that only kube-vnet writes policies in the namespace. The reconcilers of system vnets and of binding status are not modelled; the one of baselines is, but takes no step in the runs.
- How the ports the apiserver refers to are collected from webhook configurations, APIServices and CRDs: they are an input, read once.
- Deriving host ports from containers: a pod carries its set of `<port>.<protocol>` keys, and the host-port reconcile gets the policies built for them.
- PolicyRestored in the vnet reconcile, which goes by the status instead of the tracker; onceSet.
- The network wait, its init container and its beacon; JSON decoding and patches; the ValidatingAdmissionPolicies and pods/status; command line, TLS, RBAC, Helm.
- What CNIs enforce, policies users write, and traffic from ipBlock peers.
- The length of other label values: with an operator namespace of more than 55 characters the network label of the cluster vnet's policies would not fit, and here it does.
- Goroutines: a reconcile is one step of the runs, so a change in the middle of one is not modelled.
- Termination.EveryScheduleDrains: assumes that no call fails, except the write of a pod whose stamps do not fit.
- Admission.MutatorThenValidator: both handlers resolve against the same cluster.
- Settling.OneBindingSettlesIff: speaks of one binding as the only source of memberships; with several, Settling.SettlesByStep and Termination.SettlesIffPodsDo say the same of whatever the pod resolves to.
