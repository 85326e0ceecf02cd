# Flex style resolver, modelled in Dafny

`Flex` is a presentational container component. For each render it turns its layout
props (`wrap`, `column`, `align`, `justify`, `gutter`, the responsive flags `sm`, `md`
and `lg`, a caller `style` and a caller `className`) into an inline style object and a
class string. This project models that resolver as pure functions over immutable
datatypes and proves what the component's test suite asserts about it, generalised
from the tested props to all props.

The implementation file of the component is not part of this model. The behaviour is
taken from the assertions of `test/Flex.spec.js`, which pin the outputs for the props
they exercise. The cases they leave open, and what the model chooses there, are listed
under "## Left out".

Files:

- `wrappers.dfy`: module `Wrappers`, the `Option` type used for unset props and `null` style values.
- `responsive.dfy`: module `Responsive`. It holds the four viewport ranges and the three
  breakpoints. It classifies a width in em into its range and applies the display rule
  of the responsive flags. The rule is proved equal to the breakpoint matrix and monotone
  in the viewport.
- `styles.dfy`: module `Styles`. It holds the style record (eight computed keys plus the
  caller's other keys) and its view as a plain object. It also models `assign` on plain
  objects.
- `flex.dfy`: module `Flex`. It holds the layout props, the `align`/`justify` keywords,
  the gutter scale, the class string and `Resolve`. Its lemmas say which output each prop
  changes and that it changes nothing else.
- `flex_cases.dfy`: module `FlexCases`, which states each assertion of the test suite as
  an equation about `Resolve`.

Design decisions:

- The viewport is an input to `Resolve`: `Some` of one of the four ranges, or `None` in a
  non-windowed environment. Without a window the media-query tests are skipped, so no test
  fixes `display` there for a container with a responsive flag set. The model chooses to
  keep it `flex`.
- The ranges are half-open, [0, 32em), [32em, 48em), [48em, 64em) and [64em, ...).
  `Classify` maps a width to its range. A range lies at or above a breakpoint exactly
  when the width satisfies that breakpoint's `(min-width: ...)` query. The test suite
  selects its middle ranges with closed `max-width` queries. Those queries overlap at
  exactly 48em and 64em, and there two expectations for the same flag contradict each
  other. At 48em `md` is expected to give block in the sm-md context and flex in the md-lg
  context. At 64em `lg` is expected to give block in the md-lg context and flex in the
  above-lg context. The model gives those two widths to the upper range.
- The caller's `style` is the base and the computed keys are written over it, `null`
  ones included (`assign(callerStyle, initial)` in the test). `Style.extra` therefore
  holds the caller's keys minus the eight computed names. `StyleIsAssignOverCaller`
  proves that the resulting object is the `assign` of the two. The only caller key the
  tests use, `backgroundColor`, is not a computed key. A caller key can clash with a
  computed one (a caller `display`, say). The model writes the computed keys last, so they
  win. No test fixes this.
- An empty `className` stands for an unset one, so `''` gives `Flex`. The tests pin only
  the unset case.
- Each responsive flag is applied on its own: any set flag whose breakpoint lies above
  the current range makes the container a block.

## Model

| member | source | states |
|---|---|---|
| Styles.InitialObject | test/Flex.spec.js:12-21 | The default style is exactly the eight computed keys: `display: 'flex'` and the other seven `null`. |
| Styles.ToObject | test/Flex.spec.js:12-21 | The rendered object holds every computed key (null ones too), each with its field's value, plus each of the caller's other keys with its own value. |
| Styles.Computed | test/Flex.spec.js:12-21 | Each of the eight computed keys carries the value of its style field: text for the CSS keywords, a number for the margins, `null` for an unset field. |
| Styles.Assign | test/Flex.spec.js:46-46 | `assign(target, source)` holds the keys of both, and `source` wins wherever both hold a key. |
| Flex.Resolve | test/Flex.spec.js:12-289 | The style keeps no caller key that shadows a computed one. `display` follows the responsive rule and `flex` is always null. The two margins are equal, and they are null exactly when no gutter is set. Every other caller key is kept with its value. The class string is the base class with the caller's class. |
| Flex.NoPropsIsInitial | test/Flex.spec.js:34-36 | With no props the style is the default record and the class is `Flex`, in every viewport. |
| Flex.StyleIsAssignOverCaller | test/Flex.spec.js:38-48 | The rendered object equals `assign(callerStyle, style rendered without the caller style)`. |
| Flex.ClassName | test/Flex.spec.js:50-73 | The class string starts with `Flex`. It is exactly `Flex` iff no caller class is given. Otherwise one space and then the caller's class follow. |
| Flex.ClassNameRoundTrip | test/Flex.spec.js:50-73 | The caller's class can be read back unchanged from the class string, so nothing is lost and no stray space is added. |
| Flex.ClassAndStyleIndependent | test/Flex.spec.js:38-73 | `className` changes only the class string and `style` changes only the style. |
| Flex.WrapOnlySetsFlexWrap | test/Flex.spec.js:76-87 | Without `wrap`, `flexWrap` is null. Setting `wrap` makes it `'wrap'` and leaves all other output unchanged. |
| Flex.ColumnOnlySetsFlexDirection | test/Flex.spec.js:89-100 | Without `column`, `flexDirection` is null. Setting `column` makes it `'column'` and leaves all other output unchanged. |
| Flex.ParseAlign | test/Flex.spec.js:102-165 | A recognised `align` string is the CSS keyword of the value read from it. An unrecognised string is the keyword of no value. |
| Flex.AlignRoundTrip | test/Flex.spec.js:102-165 | Each of the five `align` keywords reads back as itself. |
| Flex.AlignCopiedVerbatim | test/Flex.spec.js:102-165 | An `align` keyword appears verbatim as `alignItems`. Nothing else changes, and without `align` the field is null. |
| Flex.ParseJustify | test/Flex.spec.js:167-230 | A recognised `justify` string is the CSS keyword of the value read from it. An unrecognised string is the keyword of no value. |
| Flex.JustifyRoundTrip | test/Flex.spec.js:167-230 | Each of the five `justify` keywords reads back as itself. |
| Flex.JustifyCopiedVerbatim | test/Flex.spec.js:167-230 | A `justify` keyword appears verbatim as `justifyContent`. Nothing else changes, and without `justify` the field is null. |
| Flex.GutterMargin | test/Flex.spec.js:232-289 | Gutter steps 1, 2, 3 and 4 give margins -8, -16, -32 and -64, computed as minus two to the power of the step plus two. |
| Flex.GutterMarginStrictlyDecreasing | test/Flex.spec.js:232-289 | A larger gutter step always gives a strictly more negative margin. |
| Flex.GutterOnlySetsMargins | test/Flex.spec.js:232-289 | A gutter step sets `marginLeft` and `marginRight` to the same scale value and changes nothing else. Without a gutter both margins are null. |
| Flex.NoViewportStaysFlex | test/Flex.spec.js:291-294 | Without a viewport classification (the case in which the media-query tests are skipped), the model keeps `display` `flex` whatever flags are set. |
| Flex.ResponsiveDisplay | test/Flex.spec.js:304-590 | With at most one responsive flag set, the rendered `display` in each viewport range is the breakpoint-matrix entry. |
| Flex.ViewportOnlyAffectsDisplay | test/Flex.spec.js:304-590 | Two viewports can differ in the output only in `display`. |
| Responsive.Classify | test/Flex.spec.js:307-523 | A width's range lies at or above a breakpoint exactly when the width matches that breakpoint's `min-width` query (32em, 48em, 64em). |
| Responsive.Display | test/Flex.spec.js:304-590 | `display` is `flex` or `block`. It is `block` exactly when a viewport is known and some set flag's breakpoint lies above it. |
| Responsive.DisplayMatchesTable | test/Flex.spec.js:304-590 | For no flag or any single flag, `Display` agrees with the matrix written out case by case, in all four ranges. |
| Responsive.SingleFlagRule | test/Flex.spec.js:304-590 | A single flag gives `flex` at and above its breakpoint and `block` below it. |
| Responsive.NoFlagAlwaysFlex | test/Flex.spec.js:304-590 | Without flags, `display` is `flex` in every range and without a viewport. |
| Responsive.DisplayMonotone | test/Flex.spec.js:304-590 | If `display` is `flex` in a range, it is `flex` in every wider range. |
| FlexCases.DefaultStyleCase | test/Flex.spec.js:34-36 | With no props, the style object deep-equals the test's `initial`. |
| FlexCases.StylePropCase | test/Flex.spec.js:38-48 | With `style={{ backgroundColor: 'tomato' }}`, the object equals `assign({ backgroundColor: 'tomato' }, initial)`. |
| FlexCases.ClassNameCases | test/Flex.spec.js:50-73 | `className='Flex--custom'` gives `'Flex Flex--custom'`, and no className gives `'Flex'`. |
| FlexCases.WrapCase | test/Flex.spec.js:76-87 | `wrap` gives `assign({}, initial, { flexWrap: 'wrap' })`. |
| FlexCases.ColumnCase | test/Flex.spec.js:89-100 | `column` gives `assign({}, initial, { flexDirection: 'column' })`. |
| FlexCases.AlignCases | test/Flex.spec.js:102-165 | Each of the five tested `align` strings gives `initial` with `alignItems` set to that string. |
| FlexCases.JustifyCases | test/Flex.spec.js:167-230 | Each of the five tested `justify` strings gives `initial` with `justifyContent` set to that string. |
| FlexCases.GutterCases | test/Flex.spec.js:232-289 | Gutter 1 to 4 gives `initial` with both margins -8, -16, -32 or -64 respectively. |
| FlexCases.BelowSmCases | test/Flex.spec.js:304-374 | Below sm: no flag gives flex; sm, md and lg each give block. |
| FlexCases.SmToMdCases | test/Flex.spec.js:376-446 | Between sm and md: no flag and sm give flex; md and lg give block. |
| FlexCases.MdToLgCases | test/Flex.spec.js:448-518 | Between md and lg: no flag, sm and md give flex; lg gives block. |
| FlexCases.AboveLgCases | test/Flex.spec.js:520-590 | Above lg: every flag, and no flag, gives flex. |
| FlexCases.ClassifyMeetsContextGuard | test/Flex.spec.js:307-523 | For every width, the guard of the test context for the classified range holds at that width. |
| FlexCases.ContextGuardUnique | test/Flex.spec.js:307-523 | Except at exactly 48em and 64em, a test context whose guard holds at a width is the one for the classified range. |
| FlexCases.ContextGuardsOverlap | test/Flex.spec.js:379-523 | At 48em and at 64em two test contexts' guards both hold, and the classification picks the upper range. |

## Left out

- Rendering is not modelled: mounting, shallow rendering, DOM lookup, and passing children and other props through to the element. This is framework plumbing, not part of the resolver.
- `window.matchMedia` is not evaluated. The viewport range is an input, and `Classify` with its half-open ranges stands in for the media queries.
- Flex.NoViewportStaysFlex: no test sets a responsive flag without a viewport, because the media-query tests are skipped when there is no window. Keeping `display` `flex` there is the model's choice, not something the tests fix.
- Flex.StyleIsAssignOverCaller: no test passes a caller style key that clashes with a computed key. That the computed value wins such a clash is the model's choice, not something the tests fix.
- Flex.ClassName: no test passes an empty `className`. Treating `''` like an unset class, giving `Flex`, is the model's choice.
- Combinations of several responsive flags are not pinned by any test. The model applies each flag on its own and proves nothing beyond the single-flag matrix and monotonicity.
- `Resolve` models the `flex` key as always `null`. No prop in the tests sets it.
- Gutter values outside steps 1 to 4 are excluded by the `GutterStep` type. The tests assert nothing about them.
- `align` and `justify` strings other than the five keywords are not modelled. `ParseAlign` and `ParseJustify` reject them, and the tests assert nothing about them.
- Real `lodash.assign` and object spread are replaced by `Styles.Assign` on finite maps. Key order and prototype behaviour do not matter for deep equality and are not modelled.
- Style values are CSS text or integer pixel numbers. A caller value of any other kind cannot be represented: `null`, a boolean, or a fractional number such as `opacity: 0.5`.
- Idempotence of `Resolve` needs no lemma, because Dafny functions are deterministic.
