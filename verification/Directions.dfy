/** The direction of a vnet membership (policy_generator.go) and the direction meet (resolution.go). */
module Directions {
  import opened Prelude

  /** A bare direction. `NoDir` is the direction `none`. */
  datatype Base = Both | Ingress | Egress | NoDir

  /** `isDefault` marks the override-able `default-*` variants of the baseline tiers. */
  datatype Direction = Direction(base: Base, isDefault: bool) {
    function Bare(): Direction { Direction(base, false) }
  }

  /** Whether a member with this direction accepts ingress from the vnet. */
  predicate Receives(b: Base) {
    b.Both? || b.Ingress?
  }

  /** Whether a member with this direction may initiate traffic into the vnet. */
  predicate Initiates(b: Base) {
    b.Both? || b.Egress?
  }

  function BaseName(b: Base): string {
    match b
    case Both => "both"
    case Ingress => "ingress"
    case Egress => "egress"
    case NoDir => "none"
  }

  function Render(d: Direction): string {
    (if d.isDefault then "default-" else "") + BaseName(d.base)
  }

  function ParseDirection(value: string): Option<Direction> {
    if value == "both" then Some(Direction(Both, false))
    else if value == "ingress" then Some(Direction(Ingress, false))
    else if value == "egress" then Some(Direction(Egress, false))
    else if value == "none" then Some(Direction(NoDir, false))
    else if value == "default-both" then Some(Direction(Both, true))
    else if value == "default-ingress" then Some(Direction(Ingress, true))
    else if value == "default-egress" then Some(Direction(Egress, true))
    else if value == "default-none" then Some(Direction(NoDir, true))
    else None
  }

  /** The pod tier accepts the four bare values only. */
  function ParseBareDirection(value: string): Option<Base> {
    match ParseDirection(value)
    case Some(d) => if d.isDefault then None else Some(d.base)
    case None => None
  }

  /** Parsing accepts exactly the rendered directions: the stamp value written on a pod is read back as written. */
  lemma ParseInvertsRender(d: Direction, value: string)
    ensures ParseDirection(value) == Some(d) <==> value == Render(d)
    ensures ParseBareDirection(value) == Some(d.base) <==> value == BaseName(d.base)
  {
    assert Render(d) == if d.isDefault then "default-" + BaseName(d.base) else BaseName(d.base);
    assert "default-" + "both" == "default-both";
    assert "default-" + "ingress" == "default-ingress";
    assert "default-" + "egress" == "default-egress";
    assert "default-" + "none" == "default-none";
  }

  /** The in-tier intersection of two directions; the result is always bare. */
  function Intersect(a: Direction, b: Direction): Direction {
    if a.base.NoDir? || b.base.NoDir? then Direction(NoDir, false)
    else if a.base == b.base then a.Bare()
    else if a.base.Both? then b.Bare()
    else if b.base.Both? then a.Bare()
    else Direction(NoDir, false)
  }

  /** The direction that grants exactly the given two abilities. */
  function FromAbilities(receives: bool, initiates: bool): Base {
    if receives && initiates then Both else if receives then Ingress else if initiates then Egress else NoDir
  }

  /**
   * The meet of a set of directions: it grants an ability iff every member of the set grants it, and it is
   * override-able iff every member is.
   */
  ghost function Meet(dirs: set<Direction>): Direction {
    Direction(
      FromAbilities(forall d | d in dirs :: Receives(d.base), forall d | d in dirs :: Initiates(d.base)),
      forall d | d in dirs :: d.isDefault)
  }

  /** One step of the running intersection is one step of the meet. */
  lemma IntersectIsMeet(dirs: set<Direction>, running: Base, d: Direction)
    requires running == Meet(dirs).base
    ensures Intersect(Direction(running, false), d).base == Meet(dirs + {d}).base
    ensures Meet(dirs + {d}).isDefault == (Meet(dirs).isDefault && d.isDefault)
  {
  }
}
