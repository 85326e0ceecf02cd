/**
 The `Flex` component's resolver: a pure function from the layout props of one
 render to the inline style object and the class string of the rendered
 container.
 */
module Flex {
  import opened Wrappers
  import opened Styles
  import opened Responsive

  /** The `align` prop, forwarded to `align-items`. */
  datatype Align = Stretch | Center | Baseline | FlexStart | FlexEnd {
    /** The CSS keyword the prop is written as. */
    function Css(): string {
      match this
      case Stretch => "stretch"
      case Center => "center"
      case Baseline => "baseline"
      case FlexStart => "flex-start"
      case FlexEnd => "flex-end"
    }
  }

  /** The `justify` prop, forwarded to `justify-content`. */
  datatype Justify = Center | SpaceAround | SpaceBetween | FlexStart | FlexEnd {
    /** The CSS keyword the prop is written as. */
    function Css(): string {
      match this
      case Center => "center"
      case SpaceAround => "space-around"
      case SpaceBetween => "space-between"
      case FlexStart => "flex-start"
      case FlexEnd => "flex-end"
    }
  }

  /** Reads an `align` prop string; `None` for a string that is not one of the five keywords. */
  function ParseAlign(s: string): (r: Option<Align>)
    ensures r.Some? ==> r.value.Css() == s
    ensures r.None? ==> forall a: Align :: a.Css() != s
  {
    if s == "stretch" then Some(Align.Stretch)
    else if s == "center" then Some(Align.Center)
    else if s == "baseline" then Some(Align.Baseline)
    else if s == "flex-start" then Some(Align.FlexStart)
    else if s == "flex-end" then Some(Align.FlexEnd)
    else None
  }

  /** Reads a `justify` prop string; `None` for a string that is not one of the five keywords. */
  function ParseJustify(s: string): (r: Option<Justify>)
    ensures r.Some? ==> r.value.Css() == s
    ensures r.None? ==> forall j: Justify :: j.Css() != s
  {
    if s == "center" then Some(Justify.Center)
    else if s == "space-around" then Some(Justify.SpaceAround)
    else if s == "space-between" then Some(Justify.SpaceBetween)
    else if s == "flex-start" then Some(Justify.FlexStart)
    else if s == "flex-end" then Some(Justify.FlexEnd)
    else None
  }

  /** Every `align` keyword reads back as itself. */
  lemma AlignRoundTrip(a: Align)
    ensures ParseAlign(a.Css()) == Some(a)
  {
  }

  /** Every `justify` keyword reads back as itself. */
  lemma JustifyRoundTrip(j: Justify)
    ensures ParseJustify(j.Css()) == Some(j)
  {
  }

  /** A step of the spacing scale that `gutter` accepts. */
  type GutterStep = n: int | 1 <= n <= 4 witness 1

  function Pow2(n: nat): (r: nat)
    ensures r >= 1
  {
    if n == 0 then 1 else 2 * Pow2(n - 1)
  }

  /**
   The `-(2^(n+2))` scale deepens with every step, for any steps at all. The
   four steps of `GutterStep` do not need this, since `GutterMargin` pins their
   values; it states the scale formula's own ordering.
   */
  lemma {:induction false} Pow2StrictlyIncreasing(a: nat, b: nat)
    requires a < b
    ensures Pow2(a) < Pow2(b)
    decreases b
  {
    if a + 1 < b {
      Pow2StrictlyIncreasing(a, b - 1);
    }
  }

  /** The horizontal margin for a gutter step: minus two to the power of the step plus two. */
  function GutterMargin(n: GutterStep): (m: int)
    ensures m == [-8, -16, -32, -64][n - 1]
  {
    assert Pow2(3) == 8 && Pow2(4) == 16 && Pow2(5) == 32 && Pow2(6) == 64;
    -(Pow2(n + 2) as int)
  }

  /** A wider gutter step always pulls the container further out. */
  lemma GutterMarginStrictlyDecreasing(a: GutterStep, b: GutterStep)
    requires a < b
    ensures GutterMargin(b) < GutterMargin(a)
  {
  }

  /** The props of one render. An empty `className` stands for an unset one. */
  datatype LayoutSpec = LayoutSpec(
    wrap: bool,
    column: bool,
    align: Option<Align>,
    justify: Option<Justify>,
    gutter: Option<GutterStep>,
    sm: bool,
    md: bool,
    lg: bool,
    style: map<string, Value>,
    className: string)

  /** A `Flex` rendered with no props at all. */
  const NoProps: LayoutSpec :=
    LayoutSpec(false, false, None, None, None, false, false, false, map[], "")

  /** The breakpoints whose responsive flag is set. */
  function Flags(props: LayoutSpec): (flags: set<Breakpoint>)
    ensures Sm in flags <==> props.sm
    ensures Md in flags <==> props.md
    ensures Lg in flags <==> props.lg
  {
    (if props.sm then {Sm} else {}) + (if props.md then {Md} else {}) + (if props.lg then {Lg} else {})
  }

  const BaseClass: string := "Flex"

  /** The class string: `Flex`, then the caller's class after one space when it has one. */
  function ClassName(className: string): (c: string)
    ensures |c| >= |BaseClass| && c[..|BaseClass|] == BaseClass
    ensures className == "" <==> c == BaseClass
    ensures className != "" ==> c[|BaseClass|] == ' ' && c[|BaseClass| + 1..] == className
  {
    if className == "" then BaseClass else BaseClass + " " + className
  }

  /** Recovers the caller's class from a rendered class string. */
  function CallerClass(c: string): string {
    if |c| > |BaseClass| + 1 && c[..|BaseClass| + 1] == BaseClass + " " then c[|BaseClass| + 1..] else ""
  }

  /** No caller class is lost or altered, and none gets a stray trailing space. */
  lemma ClassNameRoundTrip(className: string)
    ensures CallerClass(ClassName(className)) == className
  {
  }

  /** What one render produces: the inline style and the class string. */
  datatype Rendered = Rendered(style: Style, className: string)

  /**
   Resolves the props against the current viewport classification (`None` in a
   non-windowed environment). The caller's style is the base and the computed
   keys are written over it.
   */
  function Resolve(props: LayoutSpec, viewport: Option<Viewport>): (r: Rendered)
    ensures WellFormed(r.style)
    ensures r.style.display == Some(Display(Flags(props), viewport))
    ensures r.style.flex == None
    ensures r.style.marginLeft == r.style.marginRight
    ensures r.style.marginLeft.None? <==> props.gutter.None?
    ensures r.style.extra.Keys <= props.style.Keys
    ensures forall k :: k in props.style && k !in ComputedKeys ==> k in r.style.extra && r.style.extra[k] == props.style[k]
    ensures r.className == ClassName(props.className)
  {
    var margin := match props.gutter case None => None case Some(n) => Some(GutterMargin(n));
    var st := Style(
      Some(Display(Flags(props), viewport)),
      if props.wrap then Some("wrap") else None,
      if props.column then Some("column") else None,
      None,
      match props.align case None => None case Some(a) => Some(a.Css()),
      match props.justify case None => None case Some(j) => Some(j.Css()),
      margin,
      margin,
      props.style - ComputedKeys);
    Rendered(st, ClassName(props.className))
  }

  /** With no props the style is the default object and the class is exactly `Flex`, whatever the viewport. */
  lemma NoPropsIsInitial(viewport: Option<Viewport>)
    ensures Resolve(NoProps, viewport) == Rendered(Initial, "Flex")
  {
  }

  /**
   The rendered style object is `assign(callerStyle, computed)`: the caller's
   keys are the base and the computed keys, `null` ones included, win.
   */
  lemma StyleIsAssignOverCaller(props: LayoutSpec, viewport: Option<Viewport>)
    ensures ToObject(Resolve(props, viewport).style)
         == Assign(Present(props.style), ToObject(Resolve(props.(style := map[]), viewport).style))
  {
  }

  /** Setting `wrap` changes `flexWrap` to `wrap` and nothing else. */
  lemma WrapOnlySetsFlexWrap(props: LayoutSpec, viewport: Option<Viewport>)
    ensures Resolve(props.(wrap := false), viewport).style.flexWrap == None
    ensures Resolve(props.(wrap := true), viewport)
         == Resolve(props.(wrap := false), viewport).(style := Resolve(props.(wrap := false), viewport).style.(flexWrap := Some("wrap")))
  {
  }

  /** Setting `column` changes `flexDirection` to `column` and nothing else. */
  lemma ColumnOnlySetsFlexDirection(props: LayoutSpec, viewport: Option<Viewport>)
    ensures Resolve(props.(column := false), viewport).style.flexDirection == None
    ensures Resolve(props.(column := true), viewport)
         == Resolve(props.(column := false), viewport).(style := Resolve(props.(column := false), viewport).style.(flexDirection := Some("column")))
  {
  }

  /** An `align` keyword is copied verbatim into `alignItems`, and nothing else changes. */
  lemma AlignCopiedVerbatim(props: LayoutSpec, s: string, viewport: Option<Viewport>)
    requires ParseAlign(s).Some?
    ensures Resolve(props.(align := None), viewport).style.alignItems == None
    ensures Resolve(props.(align := ParseAlign(s)), viewport)
         == Resolve(props.(align := None), viewport).(style := Resolve(props.(align := None), viewport).style.(alignItems := Some(s)))
  {
  }

  /** A `justify` keyword is copied verbatim into `justifyContent`, and nothing else changes. */
  lemma JustifyCopiedVerbatim(props: LayoutSpec, s: string, viewport: Option<Viewport>)
    requires ParseJustify(s).Some?
    ensures Resolve(props.(justify := None), viewport).style.justifyContent == None
    ensures Resolve(props.(justify := ParseJustify(s)), viewport)
         == Resolve(props.(justify := None), viewport).(style := Resolve(props.(justify := None), viewport).style.(justifyContent := Some(s)))
  {
  }

  /** A gutter step sets both margins to the same scale value, and nothing else changes. */
  lemma GutterOnlySetsMargins(props: LayoutSpec, n: GutterStep, viewport: Option<Viewport>)
    ensures Resolve(props.(gutter := None), viewport).style.marginLeft == None
    ensures Resolve(props.(gutter := Some(n)), viewport)
         == Resolve(props.(gutter := None), viewport).(style := Resolve(props.(gutter := None), viewport).style.(
              marginLeft := Some(GutterMargin(n)), marginRight := Some(GutterMargin(n))))
  {
  }

  /** The `className` prop affects the class string only, and the `style` prop the style only. */
  lemma ClassAndStyleIndependent(props: LayoutSpec, className: string, style: map<string, Value>, viewport: Option<Viewport>)
    ensures Resolve(props.(className := className), viewport).style == Resolve(props, viewport).style
    ensures Resolve(props.(style := style), viewport).className == Resolve(props, viewport).className
  {
  }

  /** The style depends on the viewport through `display` alone. */
  lemma ViewportOnlyAffectsDisplay(props: LayoutSpec, v: Option<Viewport>, w: Option<Viewport>)
    ensures Resolve(props, v).style.(display := None) == Resolve(props, w).style.(display := None)
    ensures Resolve(props, v).className == Resolve(props, w).className
  {
  }

  /** With a single responsive flag, `display` in each range follows the breakpoint matrix. */
  lemma ResponsiveDisplay(props: LayoutSpec, flag: Option<Breakpoint>, v: Viewport)
    requires props.sm == (flag == Some(Sm)) && props.md == (flag == Some(Md)) && props.lg == (flag == Some(Lg))
    ensures Resolve(props, Some(v)).style.display == Some(Table(flag, v))
  {
  }

  /** In a non-windowed environment the container stays `flex` whatever flags are set. */
  lemma NoViewportStaysFlex(props: LayoutSpec)
    ensures Resolve(props, None).style.display == Some("flex")
  {
  }
}
