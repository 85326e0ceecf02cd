/**
 The assertions of the component's test suite, each stated as an equation
 about `Flex.Resolve`. Style assertions hold in every viewport; the media
 query assertions name the range they are made in.
 */
module FlexCases {
  import opened Wrappers
  import opened Styles
  import opened Responsive
  import opened Flex

  /** The style object rendered for some props. */
  function StyleObject(props: LayoutSpec, viewport: Option<Viewport>): (o: map<string, Option<Value>>)
    ensures o.Keys == ComputedKeys + (props.style.Keys - ComputedKeys)
  {
    ToObject(Resolve(props, viewport).style)
  }

  lemma DefaultStyleCase(viewport: Option<Viewport>)
    ensures StyleObject(NoProps, viewport) == InitialObjectLiteral
  {
  }

  lemma StylePropCase(viewport: Option<Viewport>)
    ensures StyleObject(NoProps.(style := map["backgroundColor" := Text("tomato")]), viewport)
         == Assign(map["backgroundColor" := Some(Text("tomato"))], InitialObjectLiteral)
  {
  }

  lemma ClassNameCases(viewport: Option<Viewport>)
    ensures Resolve(NoProps.(className := "Flex--custom"), viewport).className == "Flex Flex--custom"
    ensures Resolve(NoProps, viewport).className == "Flex"
  {
  }

  lemma WrapCase(viewport: Option<Viewport>)
    ensures StyleObject(NoProps.(wrap := true), viewport) == Assign(InitialObjectLiteral, map["flexWrap" := Some(Text("wrap"))])
  {
  }

  lemma ColumnCase(viewport: Option<Viewport>)
    ensures StyleObject(NoProps.(column := true), viewport) == Assign(InitialObjectLiteral, map["flexDirection" := Some(Text("column"))])
  {
  }

  lemma AlignCases(s: string, viewport: Option<Viewport>)
    requires s in {"stretch", "center", "baseline", "flex-start", "flex-end"}
    ensures StyleObject(NoProps.(align := ParseAlign(s)), viewport) == Assign(InitialObjectLiteral, map["alignItems" := Some(Text(s))])
  {
  }

  lemma JustifyCases(s: string, viewport: Option<Viewport>)
    requires s in {"center", "space-around", "space-between", "flex-start", "flex-end"}
    ensures StyleObject(NoProps.(justify := ParseJustify(s)), viewport) == Assign(InitialObjectLiteral, map["justifyContent" := Some(Text(s))])
  {
  }

  lemma GutterCases(n: GutterStep, viewport: Option<Viewport>)
    ensures var m := [-8, -16, -32, -64][n - 1];
      StyleObject(NoProps.(gutter := Some(n)), viewport)
        == Assign(InitialObjectLiteral, map["marginLeft" := Some(Number(m)), "marginRight" := Some(Number(m))])
  {
  }

  /** The `display` rendered for props in a viewport range. */
  function DisplayIn(props: LayoutSpec, v: Viewport): (d: string)
    ensures d == "flex" || d == "block"
  {
    Resolve(props, Some(v)).style.display.GetOr("")
  }

  lemma BelowSmCases()
    ensures DisplayIn(NoProps, BelowSm) == "flex"
    ensures DisplayIn(NoProps.(sm := true), BelowSm) == "block"
    ensures DisplayIn(NoProps.(md := true), BelowSm) == "block"
    ensures DisplayIn(NoProps.(lg := true), BelowSm) == "block"
  {
  }

  lemma SmToMdCases()
    ensures DisplayIn(NoProps, SmMd) == "flex"
    ensures DisplayIn(NoProps.(sm := true), SmMd) == "flex"
    ensures DisplayIn(NoProps.(md := true), SmMd) == "block"
    ensures DisplayIn(NoProps.(lg := true), SmMd) == "block"
  {
  }

  lemma MdToLgCases()
    ensures DisplayIn(NoProps, MdLg) == "flex"
    ensures DisplayIn(NoProps.(sm := true), MdLg) == "flex"
    ensures DisplayIn(NoProps.(md := true), MdLg) == "flex"
    ensures DisplayIn(NoProps.(lg := true), MdLg) == "block"
  {
  }

  lemma AboveLgCases()
    ensures DisplayIn(NoProps, AboveLg) == "flex"
    ensures DisplayIn(NoProps.(sm := true), AboveLg) == "flex"
    ensures DisplayIn(NoProps.(md := true), AboveLg) == "flex"
    ensures DisplayIn(NoProps.(lg := true), AboveLg) == "flex"
  {
  }

  /**
   The guard of each media query test context, on a viewport width in em: the
   below-sm context runs unless `(min-width: 32em)` matches, the two middle
   contexts need closed `min-width ... and max-width ...` ranges, and the
   above-lg context needs `(min-width: 64em)`.
   */
  predicate ContextGuard(v: Viewport, widthEm: real) {
    match v
    case BelowSm => !(widthEm >= 32.0)
    case SmMd => 32.0 <= widthEm <= 48.0
    case MdLg => 48.0 <= widthEm <= 64.0
    case AboveLg => widthEm >= 64.0
  }

  /** Every width is classified into a range whose test context runs at that width. */
  lemma ClassifyMeetsContextGuard(widthEm: real)
    ensures ContextGuard(Classify(widthEm), widthEm)
  {
  }

  /**
   Away from 48em and 64em, where two closed guards overlap, exactly one test
   context runs, and it is the one for the classified range.
   */
  lemma ContextGuardUnique(v: Viewport, widthEm: real)
    requires widthEm != 48.0 && widthEm != 64.0
    requires ContextGuard(v, widthEm)
    ensures v == Classify(widthEm)
  {
  }

  /** At 48em and 64em two test contexts both run; the classification picks the upper one. */
  lemma ContextGuardsOverlap()
    ensures ContextGuard(SmMd, 48.0) && ContextGuard(MdLg, 48.0) && Classify(48.0) == MdLg
    ensures ContextGuard(MdLg, 64.0) && ContextGuard(AboveLg, 64.0) && Classify(64.0) == AboveLg
  {
  }
}
