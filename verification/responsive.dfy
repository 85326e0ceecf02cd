/**
 The responsive display rule of `Flex`: each of the `sm`, `md` and `lg` flags
 keeps the container `display: flex` from its breakpoint upwards and turns it
 into `display: block` below it. The current viewport is not measured here; the
 host classifies it into one of four disjoint, half-open width ranges.
 */
module Responsive {
  import opened Wrappers

  /** The four viewport ranges, mobile first: [0, 32em), [32em, 48em), [48em, 64em), [64em, ...). */
  datatype Viewport = BelowSm | SmMd | MdLg | AboveLg

  /** The three breakpoints a flag can name. */
  datatype Breakpoint = Sm | Md | Lg

  /** Position of a range in the mobile-first order. */
  function Rank(v: Viewport): nat {
    match v
    case BelowSm => 0
    case SmMd => 1
    case MdLg => 2
    case AboveLg => 3
  }

  /** Rank of the first range that lies at or above a breakpoint. */
  function Threshold(b: Breakpoint): nat {
    match b
    case Sm => 1
    case Md => 2
    case Lg => 3
  }

  /** The `min-width` of each breakpoint's media query, in em. */
  function MinWidthEm(b: Breakpoint): real {
    match b
    case Sm => 32.0
    case Md => 48.0
    case Lg => 64.0
  }

  predicate AtOrAbove(v: Viewport, b: Breakpoint) {
    Rank(v) >= Threshold(b)
  }

  /**
   Classification of a viewport width, in em, into its range. A range lies at
   or above a breakpoint exactly when the width matches that breakpoint's
   `(min-width: ...)` query, so the classification agrees with the media queries.
   */
  function Classify(widthEm: real): (v: Viewport)
    ensures forall b :: AtOrAbove(v, b) <==> widthEm >= MinWidthEm(b)
  {
    if widthEm < 32.0 then BelowSm
    else if widthEm < 48.0 then SmMd
    else if widthEm < 64.0 then MdLg
    else AboveLg
  }

  /**
   The `display` value for the set of enabled flags in the given viewport.
   Without a viewport classification (a non-windowed environment) nothing is
   overridden. Each flag is applied on its own: any enabled flag whose
   breakpoint lies above the viewport turns the container into a block.
   */
  function Display(flags: set<Breakpoint>, viewport: Option<Viewport>): (d: string)
    ensures d == "flex" || d == "block"
    ensures d == "block" <==>
              viewport.Some? && exists b :: b in flags && !AtOrAbove(viewport.value, b)
  {
    match viewport
    case None => "flex"
    case Some(v) =>
      if (Sm in flags && Rank(v) < 1) || (Md in flags && Rank(v) < 2) || (Lg in flags && Rank(v) < 3)
      then "block"
      else "flex"
  }

  /** The flag set of a container that sets at most one responsive flag. */
  function Single(flag: Option<Breakpoint>): set<Breakpoint> {
    match flag
    case None => {}
    case Some(b) => {b}
  }

  /**
   The breakpoint matrix, one entry per viewport range and single flag, written
   out case by case as an independent reference for `Display`.
   */
  function Table(flag: Option<Breakpoint>, v: Viewport): string {
    match (flag, v)
    case (None, _) => "flex"
    case (Some(Sm), BelowSm) => "block"
    case (Some(Sm), _) => "flex"
    case (Some(Md), BelowSm) => "block"
    case (Some(Md), SmMd) => "block"
    case (Some(Md), _) => "flex"
    case (Some(Lg), AboveLg) => "flex"
    case (Some(Lg), _) => "block"
  }

  /** With at most one flag, `Display` agrees with the breakpoint matrix in every range. */
  lemma DisplayMatchesTable(flag: Option<Breakpoint>, v: Viewport)
    ensures Display(Single(flag), Some(v)) == Table(flag, v)
  {
  }

  /** A single flag yields `flex` exactly at and above its breakpoint. */
  lemma SingleFlagRule(b: Breakpoint, v: Viewport)
    ensures Display({b}, Some(v)) == (if AtOrAbove(v, b) then "flex" else "block")
  {
  }

  /** Without flags the container is `flex` in every range and without a viewport. */
  lemma NoFlagAlwaysFlex(viewport: Option<Viewport>)
    ensures Display({}, viewport) == "flex"
  {
  }

  /** Display is monotone in the viewport: once `flex`, it stays `flex` in every wider range. */
  lemma DisplayMonotone(flags: set<Breakpoint>, v: Viewport, w: Viewport)
    requires Rank(v) <= Rank(w)
    requires Display(flags, Some(v)) == "flex"
    ensures Display(flags, Some(w)) == "flex"
  {
  }
}
