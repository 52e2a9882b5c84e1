/**
 * The inheritance lattice (resolution.go): rules of one tier meet, an upstream bare value pins a vnet against the
 * tiers below it, an upstream default-* value does not.
 */
module Resolution {
  import opened Prelude
  import opened Names
  import opened Directions

  datatype Scope = ClusterBaseline | NamespaceBaseline | PodTier {
    function Rank(): nat { if ClusterBaseline? then 0 else if NamespaceBaseline? then 1 else 2 }
  }

  datatype Rule = Rule(vnet: VnetKey, dir: Direction, source: string)

  datatype Layer = Layer(scope: Scope, rules: seq<Rule>)

  datatype Conflict = Conflict(vnet: VnetKey, scope: Scope, participants: seq<Rule>, effective: Base)

  datatype Rejection = Rejection(
    vnet: VnetKey, attemptedScope: Scope, attempted: Direction, blockingScope: Scope, blocking: Base)

  /** The reports of one tier: at most one conflict and one rejection per vnet. */
  datatype LayerReport = LayerReport(conflicts: map<VnetKey, Conflict>, rejected: map<VnetKey, Rejection>)

  /** `reports` groups the conflicts and rejections by tier, upstream first. */
  datatype ResolutionResult = ResolutionResult(effective: map<VnetKey, Base>, reports: seq<LayerReport>)

  // ---- the declarative rule ----

  ghost function Dirs(rules: seq<Rule>, v: VnetKey): set<Direction> {
    set r | r in rules && r.vnet == v :: r.dir
  }

  ghost predicate Mentions(layer: Layer, v: VnetKey) {
    Dirs(layer.rules, v) != {}
  }

  /** What one tier says about a vnet it names: the meet of its rules, override-able iff all of them are. */
  ghost function Value(layer: Layer, v: VnetKey): Direction {
    Meet(Dirs(layer.rules, v))
  }

  /**
   * Layer i decides vnet v among layers listed upstream first: it is the first one with a bare value or, when every
   * value is a default, the last one to name v.
   */
  ghost predicate Decides(layers: seq<Layer>, i: nat, v: VnetKey) {
    && i < |layers| && Mentions(layers[i], v)
    && (forall j | 0 <= j < i && Mentions(layers[j], v) :: Value(layers[j], v).isDefault)
    && (Value(layers[i], v).isDefault ==> forall j | i < j < |layers| :: !Mentions(layers[j], v))
  }

  /** Layer i pins v: the first bare value, which nothing below it can change. */
  ghost predicate Pins(layers: seq<Layer>, i: nat, v: VnetKey) {
    Decides(layers, i, v) && !Value(layers[i], v).isDefault
  }

  /** The effective direction of v: `none` decisions leave the pod without a membership. */
  ghost predicate Resolves(layers: seq<Layer>, v: VnetKey, b: Base) {
    b != NoDir && exists i: nat :: Decides(layers, i, v) && Value(layers[i], v).base == b
  }

  /** The rules of layer i disagree about v: their bare directions are not all equal. */
  ghost predicate Disagrees(layer: Layer, v: VnetKey) {
    exists r, q | r in layer.rules && q in layer.rules ::
      r.vnet == v && q.vnet == v && r.dir.base != q.dir.base
  }

  /** Layer j tries to change a pinned v: some layer above it pins v, and j's own value for v differs from the pin. */
  ghost predicate Overrides(layers: seq<Layer>, j: nat, v: VnetKey) {
    j < |layers| && Mentions(layers[j], v) &&
    exists i: nat | i < j :: Pins(layers, i, v) && Value(layers[j], v).base != Value(layers[i], v).base
  }

  function RulesFor(rules: seq<Rule>, v: VnetKey): seq<Rule> {
    if rules == [] then []
    else (if rules[0].vnet == v then [rules[0]] else []) + RulesFor(rules[1..], v)
  }

  ghost predicate Ordered(layers: seq<Layer>) {
    forall i, j | 0 <= i < j < |layers| :: layers[i].scope.Rank() <= layers[j].scope.Rank()
  }

  ghost predicate DistinctScopes(layers: seq<Layer>) {
    forall i, j | 0 <= i < j < |layers| :: layers[i].scope != layers[j].scope
  }

  /** The report of a disagreement: every rule involved, and the direction that results. */
  ghost function ConflictOf(layer: Layer, v: VnetKey): Option<Conflict> {
    if Disagrees(layer, v) then Some(Conflict(v, layer.scope, RulesFor(layer.rules, v), Value(layer, v).base)) else None
  }

  /** r reports that layer j overrides a pinned v, and names the pin: the pinning layer's scope and value. */
  ghost predicate ReportsRejection(layers: seq<Layer>, j: nat, v: VnetKey, r: Rejection) {
    Overrides(layers, j, v) &&
    exists i: nat | i < j :: Pins(layers, i, v) &&
      r == Rejection(v, layers[j].scope, Value(layers[j], v), layers[i].scope, Value(layers[i], v).base)
  }

  // ---- the algorithm ----

  /** slices.SortStableFunc by scope. */
  function SortByScope(layers: seq<Layer>): (r: seq<Layer>)
    ensures Ordered(r) && multiset(r) == multiset(layers)
  {
    if layers == [] then []
    else
      assert layers == [layers[0]] + layers[1..];
      InsertByScope(layers[0], SortByScope(layers[1..]))
  }

  function InsertByScope(x: Layer, s: seq<Layer>): (r: seq<Layer>)
    requires Ordered(s)
    ensures Ordered(r) && multiset(r) == multiset([x]) + multiset(s)
  {
    if s == [] || x.scope.Rank() <= s[0].scope.Rank() then [x] + s
    else
      var rest := InsertByScope(x, s[1..]);
      ConsOrdered(x, s, rest);
      [s[0]] + rest
  }

  lemma ConsOrdered(x: Layer, s: seq<Layer>, rest: seq<Layer>)
    requires Ordered(s) && s != [] && s[0].scope.Rank() < x.scope.Rank()
    requires Ordered(rest) && multiset(rest) == multiset([x]) + multiset(s[1..])
    ensures Ordered([s[0]] + rest) && multiset([s[0]] + rest) == multiset([x]) + multiset(s)
  {
    assert s == [s[0]] + s[1..];
    forall y | y in rest ensures s[0].scope.Rank() <= y.scope.Rank() {
      assert y in multiset(rest);
      assert y == x || y in multiset(s[1..]);
    }
  }

  /** Groups a tier's rules by vnet. */
  method GroupByVnet(rules: seq<Rule>) returns (byVnet: map<VnetKey, seq<Rule>>)
    ensures forall v :: v in byVnet <==> RulesFor(rules, v) != []
    ensures forall v | v in byVnet :: byVnet[v] == RulesFor(rules, v)
  {
    byVnet := map[];
    for i := 0 to |rules|
      invariant forall v :: v in byVnet <==> RulesFor(rules[..i], v) != []
      invariant forall v | v in byVnet :: byVnet[v] == RulesFor(rules[..i], v)
    {
      var r := rules[i];
      forall v ensures RulesFor(rules[..i + 1], v) == RulesFor(rules[..i], v) + if r.vnet == v then [r] else [] {
        assert rules[..i + 1] == rules[..i] + [r];
        RulesForAppend(rules[..i], r, v);
      }
      byVnet := byVnet[r.vnet := (if r.vnet in byVnet then byVnet[r.vnet] else []) + [r]];
    }
    assert rules[..|rules|] == rules;
  }

  lemma {:induction false} RulesForAppend(rules: seq<Rule>, r: Rule, v: VnetKey)
    ensures RulesFor(rules + [r], v) == RulesFor(rules, v) + if r.vnet == v then [r] else []
  {
    if rules == [] {
      assert rules + [r] == [r];
    } else {
      var more, last := rules + [r], if r.vnet == v then [r] else [];
      var first := if rules[0].vnet == v then [rules[0]] else [];
      assert more[0] == rules[0] && more[1..] == rules[1..] + [r];
      RulesForAppend(rules[1..], r, v);
      assert RulesFor(more, v) == first + (RulesFor(rules[1..], v) + last);
    }
  }

  lemma {:induction false} RulesForElements(rules: seq<Rule>, v: VnetKey)
    ensures forall r :: r in RulesFor(rules, v) <==> r in rules && r.vnet == v
  {
    if rules != [] {
      assert rules == [rules[0]] + rules[1..];
      RulesForElements(rules[1..], v);
    }
  }

  ghost function DirsOf(rules: seq<Rule>): set<Direction> {
    set r | r in rules :: r.dir
  }

  /** The running intersection and flags of a group after its first rules. */
  ghost predicate MeetSoFar(rules: seq<Rule>, meet: Base, anyDefault: bool, anyBare: bool, disagree: bool) {
    && rules != [] && meet == Meet(DirsOf(rules)).base
    && (anyDefault <==> exists d | d in DirsOf(rules) :: d.isDefault)
    && (anyBare <==> exists d | d in DirsOf(rules) :: !d.isDefault)
    && (disagree <==> exists r | r in rules :: r.dir.base != rules[0].dir.base)
    && (!disagree ==> meet == rules[0].dir.base)
  }

  lemma MeetStep(rules: seq<Rule>, r: Rule, meet: Base, anyDefault: bool, anyBare: bool, disagree: bool)
    requires MeetSoFar(rules, meet, anyDefault, anyBare, disagree)
    ensures MeetSoFar(rules + [r], Intersect(Direction(meet, false), r.dir).base, anyDefault || r.dir.isDefault,
                      anyBare || !r.dir.isDefault, disagree || r.dir.base != meet)
  {
    var more := rules + [r];
    assert DirsOf(more) == DirsOf(rules) + {r.dir};
    IntersectIsMeet(DirsOf(rules), meet, r.dir);
    DisagreeStep(rules, r);
  }

  lemma MeetDone(rules: seq<Rule>, meet: Base, anyDefault: bool, anyBare: bool, disagree: bool)
    requires MeetSoFar(rules, meet, anyDefault, anyBare, disagree)
    ensures Direction(meet, anyDefault && !anyBare) == Meet(DirsOf(rules))
    ensures disagree <==> exists r, q | r in rules && q in rules :: r.dir.base != q.dir.base
  {
  }

  lemma MeetStart(r: Rule)
    ensures MeetSoFar([r], r.dir.base, r.dir.isDefault, !r.dir.isDefault, false)
  {
  }

  lemma DisagreeStep(rules: seq<Rule>, r: Rule)
    requires rules != []
    ensures (exists q | q in rules + [r] :: q.dir.base != rules[0].dir.base) <==>
      (exists q | q in rules :: q.dir.base != rules[0].dir.base) || r.dir.base != rules[0].dir.base
  {
  }

  /** Intersects the rules one tier has for one vnet. `disagree` is decided against the running intersection. */
  method MeetGroup(rules: seq<Rule>) returns (eff: Direction, disagree: bool)
    requires rules != []
    ensures eff == Meet(DirsOf(rules))
    ensures disagree <==> exists r, q | r in rules && q in rules :: r.dir.base != q.dir.base
  {
    hide MeetSoFar, Meet, DirsOf, Intersect;
    var meet := rules[0].dir.base;
    var anyDefault, anyBare := rules[0].dir.isDefault, !rules[0].dir.isDefault;
    disagree := false;
    MeetStart(rules[0]);
    assert rules[..1] == [rules[0]];
    for i := 1 to |rules|
      invariant MeetSoFar(rules[..i], meet, anyDefault, anyBare, disagree)
    {
      var r := rules[i];
      assert rules[..i + 1] == rules[..i] + [r];
      MeetStep(rules[..i], r, meet, anyDefault, anyBare, disagree);
      if r.dir.base != meet { disagree := true; }
      meet := Intersect(Direction(meet, false), r.dir).base;
      if r.dir.isDefault { anyDefault := true; } else { anyBare := true; }
    }
    assert rules[..|rules|] == rules;
    MeetDone(rules, meet, anyDefault, anyBare, disagree);
    eff := Direction(meet, anyDefault && !anyBare);
  }

  // ---- the cascade ----

  datatype Running = Running(dir: Direction, from: Scope)

  /** The running value of v after one more tier: a pin stays, anything else yields to the tier if it names v. */
  ghost function Step(layer: Layer, prev: Option<Running>, v: VnetKey): Option<Running> {
    if !Mentions(layer, v) || (prev.Some? && !prev.value.dir.isDefault) then prev
    else Some(Running(Value(layer, v), layer.scope))
  }

  /** The running value of v after the first n layers. */
  ghost function Cascade(layers: seq<Layer>, n: nat, v: VnetKey): Option<Running>
    requires n <= |layers|
  {
    if n == 0 then None else Step(layers[n - 1], Cascade(layers, n - 1, v), v)
  }

  /** The report of a tier that names v and does not restate the pin it finds. */
  ghost function RejectionOf(layer: Layer, prev: Option<Running>, v: VnetKey): Option<Rejection> {
    if Mentions(layer, v) && prev.Some? && !prev.value.dir.isDefault && prev.value.dir.base != Value(layer, v).base
    then Some(Rejection(v, layer.scope, Value(layer, v), prev.value.from, prev.value.dir.base))
    else None
  }

  /** Among the first n layers, the cascade carries the deciding layer's value. */
  lemma {:induction false} CascadeDecides(layers: seq<Layer>, n: nat, v: VnetKey) returns (i: nat)
    requires n <= |layers|
    ensures Cascade(layers, n, v).None? ==> forall j | 0 <= j < n :: !Mentions(layers[j], v)
    ensures Cascade(layers, n, v).Some? ==>
      i < n && Decides(layers[..n], i, v) &&
      Cascade(layers, n, v).value == Running(Value(layers[i], v), layers[i].scope)
  {
    i := 0;
    if n > 0 {
      i := CascadeDecides(layers, n - 1, v);
      assert forall j | 0 <= j < n - 1 :: layers[..n][j] == layers[..n - 1][j];
      if Mentions(layers[n - 1], v) && (Cascade(layers, n - 1, v).None? || Value(layers[i], v).isDefault) {
        i := n - 1;
      }
    }
  }

  lemma DecidesUnique(layers: seq<Layer>, i: nat, j: nat, v: VnetKey)
    requires Decides(layers, i, v) && Decides(layers, j, v)
    ensures i == j
  {
  }

  /** A later layer is an override attempt iff the cascade reaches it with a pin it does not restate. */
  lemma OverridesIffBlocked(layers: seq<Layer>, j: nat, v: VnetKey)
    requires j < |layers|
    ensures var r := RejectionOf(layers[j], Cascade(layers, j, v), v);
      (r.Some? <==> Overrides(layers, j, v)) && (r.Some? ==> ReportsRejection(layers, j, v, r.value))
  {
    var i := CascadeDecides(layers, j, v);
    assert forall k | 0 <= k < j :: layers[..j][k] == layers[k];
    var prev := Cascade(layers, j, v);
    if prev.Some? && !prev.value.dir.isDefault {
      assert Pins(layers, i, v);
    }
    forall k: nat | k < j && Pins(layers, k, v)
      ensures prev.Some? && k == i
    {
      assert Decides(layers[..j], k, v);
      DecidesUnique(layers[..j], k, i, v);
    }
  }

  lemma DirsOfGroup(layer: Layer, v: VnetKey)
    ensures DirsOf(RulesFor(layer.rules, v)) == Dirs(layer.rules, v)
    ensures RulesFor(layer.rules, v) != [] <==> Mentions(layer, v)
    ensures Disagrees(layer, v) <==>
      exists r, q | r in RulesFor(layer.rules, v) && q in RulesFor(layer.rules, v) :: r.dir.base != q.dir.base
  {
    var group := RulesFor(layer.rules, v);
    RulesForElements(layer.rules, v);
    if group != [] {
      assert group[0].dir in Dirs(layer.rules, v);
    }
    if Mentions(layer, v) {
      var d :| d in Dirs(layer.rules, v);
      var r :| r in layer.rules && r.vnet == v && r.dir == d;
      assert r in group;
    }
  }

  /** Folds one tier's rules for one vnet into the running state. */
  method FoldGroup(layer: Layer, v: VnetKey, group: seq<Rule>, current: map<VnetKey, Running>)
    returns (next: map<VnetKey, Running>, conflict: Option<Conflict>, rejection: Option<Rejection>)
    requires group == RulesFor(layer.rules, v) != []
    ensures Lookup(next, v) == Step(layer, Lookup(current, v), v)
    ensures forall w | w != v :: Lookup(next, w) == Lookup(current, w)
    ensures conflict == ConflictOf(layer, v)
    ensures rejection == RejectionOf(layer, Lookup(current, v), v)
  {
    next, conflict, rejection := current, None, None;
    DirsOfGroup(layer, v);
    var eff, disagree := MeetGroup(group);
    if disagree {
      conflict := Some(Conflict(v, layer.scope, group, eff.base));
    }
    if v in current && !current[v].dir.isDefault {
      if eff.base != current[v].dir.base {
        rejection := Some(Rejection(v, layer.scope, eff, current[v].from, current[v].dir.base));
      }
    } else {
      next := next[v := Running(eff, layer.scope)];
    }
  }

  /** A tier says nothing about the vnets it has no rule for. */
  lemma UnmentionedUnchanged(layer: Layer, mentioned: set<VnetKey>, current: map<VnetKey, Running>)
    requires forall v :: v in mentioned <==> RulesFor(layer.rules, v) != []
    ensures forall v | v !in mentioned :: Step(layer, Lookup(current, v), v) == Lookup(current, v)
    ensures forall v | v !in mentioned ::
              ConflictOf(layer, v).None? && RejectionOf(layer, Lookup(current, v), v).None?
  {
    forall v | v !in mentioned
      ensures Step(layer, Lookup(current, v), v) == Lookup(current, v)
      ensures ConflictOf(layer, v).None? && RejectionOf(layer, Lookup(current, v), v).None?
    {
      DirsOfGroup(layer, v);
    }
  }

  /** The tier has been folded in for v: the running value has made its step, and the reports about v are right. */
  ghost predicate Folded(
    layer: Layer, current: map<VnetKey, Running>, v: VnetKey, next: map<VnetKey, Running>, report: LayerReport)
  {
    && Lookup(next, v) == Step(layer, Lookup(current, v), v)
    && Lookup(report.conflicts, v) == ConflictOf(layer, v)
    && Lookup(report.rejected, v) == RejectionOf(layer, Lookup(current, v), v)
  }

  lemma FoldStep(layer: Layer, current: map<VnetKey, Running>, todo: set<VnetKey>, v: VnetKey,
                 next: map<VnetKey, Running>, folded: map<VnetKey, Running>, conflicts: map<VnetKey, Conflict>,
                 rejected: map<VnetKey, Rejection>, conflict: Option<Conflict>, rejection: Option<Rejection>)
    requires forall w | w !in todo :: Folded(layer, current, w, next, LayerReport(conflicts, rejected))
    requires forall w | w != v :: Lookup(folded, w) == Lookup(next, w)
    requires Lookup(folded, v) == Step(layer, Lookup(current, v), v)
    requires conflict == ConflictOf(layer, v) && rejection == RejectionOf(layer, Lookup(current, v), v)
    ensures forall w | w !in todo - {v} ::
              Folded(layer, current, w, folded, LayerReport(Put(conflicts, v, conflict), Put(rejected, v, rejection)))
  {
  }

  /** Folds one tier into the running state, and reports its disagreements and blocked overrides. */
  method FoldLayer(layer: Layer, current: map<VnetKey, Running>)
    returns (next: map<VnetKey, Running>, report: LayerReport)
    ensures forall v :: Folded(layer, current, v, next, report)
  {
    var byVnet := GroupByVnet(layer.rules);
    UnmentionedUnchanged(layer, byVnet.Keys, current);
    next := current;
    var conflicts: map<VnetKey, Conflict>, rejected: map<VnetKey, Rejection> := map[], map[];
    var todo := byVnet.Keys;
    while todo != {}
      invariant todo <= byVnet.Keys
      invariant forall v | v !in todo :: Folded(layer, current, v, next, LayerReport(conflicts, rejected))
      invariant forall v | v in todo :: Lookup(next, v) == Lookup(current, v)
    {
      var v :| v in todo;
      var folded, conflict, rejection := FoldGroup(layer, v, byVnet[v], next);
      FoldStep(layer, current, todo, v, next, folded, conflicts, rejected, conflict, rejection);
      next, conflicts, rejected := folded, Put(conflicts, v, conflict), Put(rejected, v, rejection);
      todo := todo - {v};
    }
    report := LayerReport(conflicts, rejected);
  }

  /** The report of layer i is exact: every disagreement and every override attempt, and nothing else. */
  ghost predicate ReportsExactly(layers: seq<Layer>, i: nat, report: LayerReport)
    requires i < |layers|
  {
    && (forall v :: Lookup(report.conflicts, v) == ConflictOf(layers[i], v))
    && (forall v :: v in report.rejected <==> Overrides(layers, i, v))
    && (forall v | v in report.rejected :: ReportsRejection(layers, i, v, report.rejected[v]))
  }

  /** The running values and the reports after the first n tiers. */
  ghost predicate FoldedSoFar(ordered: seq<Layer>, n: nat, current: map<VnetKey, Running>, reports: seq<LayerReport>)
    requires n <= |ordered|
  {
    && (forall v :: Lookup(current, v) == Cascade(ordered, n, v))
    && |reports| == n && forall i | 0 <= i < n :: ReportsExactly(ordered, i, reports[i])
  }

  lemma FoldTier(ordered: seq<Layer>, n: nat, current: map<VnetKey, Running>, reports: seq<LayerReport>,
                 next: map<VnetKey, Running>, report: LayerReport)
    requires n < |ordered| && FoldedSoFar(ordered, n, current, reports)
    requires forall v :: Folded(ordered[n], current, v, next, report)
    ensures FoldedSoFar(ordered, n + 1, next, reports + [report])
  {
    FoldedIsExact(ordered, n, current, next, report);
  }

  /** Folds the ordered tiers one by one, and reports on each. */
  method FoldLayers(ordered: seq<Layer>) returns (current: map<VnetKey, Running>, reports: seq<LayerReport>)
    ensures FoldedSoFar(ordered, |ordered|, current, reports)
  {
    current, reports := map[], [];
    for n := 0 to |ordered|
      invariant FoldedSoFar(ordered, n, current, reports)
    {
      var next, report := FoldLayer(ordered[n], current);
      FoldTier(ordered, n, current, reports, next, report);
      current, reports := next, reports + [report];
    }
  }

  /**
   * Resolves one pod's layers. The result is the declarative rule on the layers in scope order. Each tier reports
   * a conflict for exactly the vnets whose bare directions disagree in it, and a rejection for exactly the vnets
   * on which it tries to change a pin.
   */
  method Resolve(layers: seq<Layer>) returns (res: ResolutionResult)
    ensures forall v, b :: Lookup(res.effective, v) == Some(b) <==> Resolves(SortByScope(layers), v, b)
    ensures |res.reports| == |SortByScope(layers)|
    ensures forall i | 0 <= i < |res.reports| :: ReportsExactly(SortByScope(layers), i, res.reports[i])
  {
    var ordered := SortByScope(layers);
    var current, reports := FoldLayers(ordered);
    StripResolves(ordered, current);
    res := ResolutionResult(Strip(current), reports);
  }

  /** Drops the default-* tags and the `none` entries. */
  function Strip(current: map<VnetKey, Running>): map<VnetKey, Base> {
    map v | v in current && current[v].dir.base != NoDir :: current[v].dir.base
  }

  lemma StripResolves(layers: seq<Layer>, current: map<VnetKey, Running>)
    requires forall v :: Lookup(current, v) == Cascade(layers, |layers|, v)
    ensures forall v, b :: Lookup(Strip(current), v) == Some(b) <==> Resolves(layers, v, b)
  {
    forall v, b ensures Lookup(Strip(current), v) == Some(b) <==> Resolves(layers, v, b) {
      CascadeResolves(layers, v, b);
    }
  }

  lemma FoldedIsExact(
    layers: seq<Layer>, n: nat, current: map<VnetKey, Running>, next: map<VnetKey, Running>, report: LayerReport)
    requires n < |layers|
    requires forall v :: Lookup(current, v) == Cascade(layers, n, v)
    requires forall v :: Folded(layers[n], current, v, next, report)
    ensures ReportsExactly(layers, n, report)
    ensures forall v :: Lookup(next, v) == Cascade(layers, n + 1, v)
  {
    forall v
      ensures Lookup(report.conflicts, v) == ConflictOf(layers[n], v)
      ensures v in report.rejected <==> Overrides(layers, n, v)
      ensures v in report.rejected ==> ReportsRejection(layers, n, v, report.rejected[v])
      ensures Lookup(next, v) == Cascade(layers, n + 1, v)
    {
      assert Folded(layers[n], current, v, next, report);
      OverridesIffBlocked(layers, n, v);
      assert v in report.rejected <==> Lookup(report.rejected, v).Some?;
    }
  }

  /** Stripping the final cascade to bare, and dropping `none`, is the declarative rule. */
  lemma CascadeResolves(layers: seq<Layer>, v: VnetKey, b: Base)
    ensures Resolves(layers, v, b) <==>
      b != NoDir && Cascade(layers, |layers|, v).Some? && Cascade(layers, |layers|, v).value.dir.base == b
  {
    var i := CascadeDecides(layers, |layers|, v);
    assert layers[..|layers|] == layers;
    forall j: nat | Decides(layers, j, v) ensures Cascade(layers, |layers|, v).Some? && j == i {
      if Cascade(layers, |layers|, v).Some? { DecidesUnique(layers, i, j, v); }
    }
  }

  // ---- order independence ----

  /** The directions a scope has for a vnet, whatever the order its layers and rules are listed in. */
  ghost function Tier(layers: seq<Layer>, scope: Scope, v: VnetKey): set<Direction> {
    set l, r | l in layers && l.scope == scope && r in l.rules && r.vnet == v :: r.dir
  }

  /** The lattice on three tiers: a tier with rules decides when it is bare or nothing below it has rules. */
  ghost function Decide(cluster: set<Direction>, namespace_: set<Direction>, pod: set<Direction>): Option<Base> {
    if cluster != {} && (!Meet(cluster).isDefault || (namespace_ == {} && pod == {})) then Some(Meet(cluster).base)
    else if namespace_ != {} && (!Meet(namespace_).isDefault || pod == {}) then Some(Meet(namespace_).base)
    else if pod != {} then Some(Meet(pod).base)
    else None
  }

  /**
   * With one layer per scope the result is a function of the three direction sets of the vnet alone: the random
   * order of Go map iteration and of List results never shows, and no vnet influences another.
   */
  lemma ResolvesByTier(layers: seq<Layer>, v: VnetKey, b: Base)
    requires DistinctScopes(layers)
    ensures Resolves(SortByScope(layers), v, b) <==>
      b != NoDir &&
      Decide(Tier(layers, ClusterBaseline, v), Tier(layers, NamespaceBaseline, v), Tier(layers, PodTier, v)) == Some(b)
  {
    var ordered := SortByScope(layers);
    SortedDistinct(layers);
    SameElements(layers, ordered);
    CascadeResolves(ordered, v, b);
    CascadeByTier(layers, ordered, |ordered|, v);
    forall rank | LastRank(ordered, |ordered|) <= rank < 3 ensures Tier(layers, ScopeOf(rank), v) == {} {
      NoLayerBetween(layers, ordered, |ordered|, rank, v);
    }
    EmptyTiers(layers, LastRank(ordered, |ordered|), 3, v);
    DecideIsCascade(layers, v);
  }

  ghost predicate GrantsAbility(decision: Option<Base>, ability: Base -> bool) {
    decision.Some? && ability(decision.value)
  }

  /** One decision grants no ability that the other does not. */
  ghost predicate NoWider(after: Option<Base>, before: Option<Base>) {
    && (GrantsAbility(after, Receives) ==> GrantsAbility(before, Receives))
    && (GrantsAbility(after, Initiates) ==> GrantsAbility(before, Initiates))
  }

  /** When a further rule of a baseline tier only narrows: unless it makes a pin that grants of a group of defaults. */
  ghost predicate OnlyNarrows(group: set<Direction>, more: Direction) {
    if group == {} then more.base == NoDir
    else !Meet(group).isDefault || more.isDefault || Meet(group + {more}).base == NoDir
  }

  lemma MeetNarrows(group: set<Direction>, more: Direction)
    ensures Receives(Meet(group + {more}).base) ==> Receives(Meet(group).base) && Receives(more.base)
    ensures Initiates(Meet(group + {more}).base) ==> Initiates(Meet(group).base) && Initiates(more.base)
    ensures Meet(group + {more}).isDefault == (Meet(group).isDefault && more.isDefault)
    ensures group == {} ==> Meet(group + {more}) == more
  {
    IntersectIsMeet(group, Meet(group).base, more);
    assert more in group + {more} && forall d | d in group :: d in group + {more};
    assert group == {} ==> group + {more} == {more};
  }

  /** The rules of the tiers below that refuse what a pin grants. */
  lemma RefusedBelow(group: set<Direction>)
    ensures var refuse := {Direction(NoDir, false)}; Meet(refuse) == Direction(NoDir, false)
    ensures Decide(group, {}, {}) == Decide({}, group, {}) == if group == {} then None else Some(Meet(group).base)
    ensures group == {} || Meet(group).isDefault ==>
              Decide(group, {}, {Direction(NoDir, false)}) == Decide({}, group, {Direction(NoDir, false)}) ==
              Some(NoDir)
    ensures group != {} && !Meet(group).isDefault ==>
              Decide(group, {}, {Direction(NoDir, false)}) == Decide({}, group, {Direction(NoDir, false)}) ==
              Some(Meet(group).base)
  {
    assert Direction(NoDir, false) in {Direction(NoDir, false)};
  }

  /** A further rule at the cluster tier narrows, whatever the tiers below say, iff it does not make a granting pin. */
  lemma ClusterRuleNarrowsIff(group: set<Direction>, more: Direction)
    ensures (forall ns, pod :: NoWider(Decide(group + {more}, ns, pod), Decide(group, ns, pod))) <==>
            OnlyNarrows(group, more)
  {
    MeetNarrows(group, more);
    if !OnlyNarrows(group, more) {
      RefusedBelow(group);
      RefusedBelow(group + {more});
      var pod := if group == {} then {} else {Direction(NoDir, false)};
      assert !NoWider(Decide(group + {more}, {}, pod), Decide(group, {}, pod));
    }
  }

  /** The same at the namespace tier. */
  lemma NamespaceRuleNarrowsIff(group: set<Direction>, more: Direction)
    ensures (forall cluster, pod :: NoWider(Decide(cluster, group + {more}, pod), Decide(cluster, group, pod))) <==>
            OnlyNarrows(group, more)
  {
    MeetNarrows(group, more);
    if !OnlyNarrows(group, more) {
      RefusedBelow(group);
      RefusedBelow(group + {more});
      var pod := if group == {} then {} else {Direction(NoDir, false)};
      assert !NoWider(Decide({}, group + {more}, pod), Decide({}, group, pod));
    }
  }

  /** Nothing is below the pod tier: a further rule there narrows unless it is the first and grants something. */
  lemma PodRuleNarrowsIff(group: set<Direction>, more: Direction)
    ensures (forall cluster, ns :: NoWider(Decide(cluster, ns, group + {more}), Decide(cluster, ns, group))) <==>
            group != {} || more.base == NoDir
  {
    MeetNarrows(group, more);
    if group == {} && more.base != NoDir {
      assert !NoWider(Decide({}, {}, group + {more}), Decide({}, {}, group));
    }
  }

  lemma DecideIsCascade(layers: seq<Layer>, v: VnetKey)
    ensures Decide(Tier(layers, ClusterBaseline, v), Tier(layers, NamespaceBaseline, v), Tier(layers, PodTier, v)) ==
            match TierCascade(layers, 3, v) case Some(d) => Some(d.base) case None => None
  {
    assert TierCascade(layers, 1, v) == TierStep(Tier(layers, ClusterBaseline, v), None);
    assert TierCascade(layers, 2, v) == TierStep(Tier(layers, NamespaceBaseline, v), TierCascade(layers, 1, v));
  }

  function ScopeOf(rank: nat): Scope {
    if rank == 0 then ClusterBaseline else if rank == 1 then NamespaceBaseline else PodTier
  }

  ghost function TierStep(dirs: set<Direction>, prev: Option<Direction>): Option<Direction> {
    if dirs == {} || (prev.Some? && !prev.value.isDefault) then prev else Some(Meet(dirs))
  }

  ghost function TierCascade(layers: seq<Layer>, rank: nat, v: VnetKey): Option<Direction> {
    if rank == 0 then None
    else TierStep(Tier(layers, ScopeOf(rank - 1), v), TierCascade(layers, rank - 1, v))
  }

  function LastRank(ordered: seq<Layer>, n: nat): nat
    requires n <= |ordered|
  {
    if n == 0 then 0 else ordered[n - 1].scope.Rank() + 1
  }

  lemma {:induction false} CascadeByTier(layers: seq<Layer>, ordered: seq<Layer>, n: nat, v: VnetKey)
    requires DistinctScopes(layers) && n <= |ordered|
    requires forall k :: k in layers <==> k in ordered
    requires forall j, k | 0 <= j < k < |ordered| :: ordered[j].scope.Rank() < ordered[k].scope.Rank()
    ensures TierCascade(layers, LastRank(ordered, n), v) ==
            match Cascade(ordered, n, v) case Some(r) => Some(r.dir) case None => None
  {
    hide Tier, Dirs;
    if n > 0 {
      CascadeByTier(layers, ordered, n - 1, v);
      forall rank | LastRank(ordered, n - 1) <= rank < ordered[n - 1].scope.Rank()
        ensures Tier(layers, ScopeOf(rank), v) == {}
      {
        NoLayerBetween(layers, ordered, n - 1, rank, v);
      }
      EmptyTiers(layers, LastRank(ordered, n - 1), ordered[n - 1].scope.Rank(), v);
      assert ordered[n - 1] in layers;
      TierOfLayer(layers, ordered[n - 1], v);
    }
  }

  lemma NoLayerBetween(layers: seq<Layer>, ordered: seq<Layer>, n: nat, rank: nat, v: VnetKey)
    requires n <= |ordered| && forall k :: k in layers <==> k in ordered
    requires forall j, k | 0 <= j < k < |ordered| :: ordered[j].scope.Rank() < ordered[k].scope.Rank()
    requires LastRank(ordered, n) <= rank < (if n < |ordered| then ordered[n].scope.Rank() else 3)
    ensures Tier(layers, ScopeOf(rank), v) == {}
  {
    forall l | l in layers ensures l.scope != ScopeOf(rank) {
      var i :| 0 <= i < |ordered| && ordered[i] == l;
    }
  }

  lemma {:induction false} EmptyTiers(layers: seq<Layer>, low: nat, high: nat, v: VnetKey)
    requires low <= high
    requires forall rank | low <= rank < high :: Tier(layers, ScopeOf(rank), v) == {}
    ensures TierCascade(layers, high, v) == TierCascade(layers, low, v)
  {
    if low < high { EmptyTiers(layers, low, high - 1, v); }
  }

  lemma TierOfLayer(layers: seq<Layer>, l: Layer, v: VnetKey)
    requires DistinctScopes(layers) && l in layers
    ensures Tier(layers, l.scope, v) == Dirs(l.rules, v)
  {
  }

  lemma SameElements(layers: seq<Layer>, ordered: seq<Layer>)
    requires multiset(layers) == multiset(ordered)
    ensures forall k :: k in layers <==> k in ordered
  {
    assert forall k :: k in layers <==> k in multiset(layers);
    assert forall k :: k in ordered <==> k in multiset(ordered);
  }

  lemma SortedDistinct(layers: seq<Layer>)
    requires DistinctScopes(layers)
    ensures forall i, j | 0 <= i < j < |SortByScope(layers)| ::
      SortByScope(layers)[i].scope.Rank() < SortByScope(layers)[j].scope.Rank()
  {
    var ordered := SortByScope(layers);
    forall i, j | 0 <= i < j < |ordered| ensures ordered[i].scope != ordered[j].scope {
      DistinctAfterPermutation(layers, ordered, i, j);
    }
  }

  lemma DistinctAfterPermutation(layers: seq<Layer>, ordered: seq<Layer>, i: nat, j: nat)
    requires DistinctScopes(layers) && multiset(ordered) == multiset(layers) && i < j < |ordered|
    ensures ordered[i].scope != ordered[j].scope
  {
    assert ordered[i] in multiset(ordered) && ordered[j] in multiset(ordered);
    if ordered[i] == ordered[j] {
      assert ordered == ordered[..i] + [ordered[i]] + ordered[i + 1..j] + [ordered[j]] + ordered[j + 1..];
      assert multiset(ordered)[ordered[i]] >= 2;
      AtMostOnce(layers, ordered[i]);
    }
  }

  lemma AtMostOnce(layers: seq<Layer>, l: Layer)
    requires DistinctScopes(layers)
    ensures multiset(layers)[l] <= 1
  {
    if l in layers {
      var i :| 0 <= i < |layers| && layers[i] == l;
      assert layers == layers[..i] + [l] + layers[i + 1..];
      assert l !in layers[..i] && l !in layers[i + 1..];
    }
  }
}
