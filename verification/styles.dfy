/**
 The inline style object `Flex` renders: eight computed keys with fixed names,
 each either a value or `null`, plus whatever other keys the caller passed in
 its own `style` prop.
 */
module Styles {
  import opened Wrappers

  /** A caller-supplied style value: CSS text or a pixel number. */
  datatype Value = Text(text: string) | Number(n: int)

  /** The computed part of the style, one field per key, `None` for `null`, and the caller's other keys. */
  datatype Style = Style(
    display: Option<string>,
    flexWrap: Option<string>,
    flexDirection: Option<string>,
    flex: Option<string>,
    alignItems: Option<string>,
    justifyContent: Option<string>,
    marginLeft: Option<int>,
    marginRight: Option<int>,
    extra: map<string, Value>)

  /** The names of the keys `Flex` always computes. */
  const ComputedKeys: set<string> :=
    {"display", "flexWrap", "flexDirection", "flex", "alignItems", "justifyContent", "marginLeft", "marginRight"}

  /** No caller key shadows a computed one. */
  predicate WellFormed(st: Style) {
    st.extra.Keys !! ComputedKeys
  }

  /** The style of a container with no props: `display: flex` and every other computed key `null`. */
  const Initial: Style :=
    Style(Some("flex"), None, None, None, None, None, None, None, map[])

  function TextOf(o: Option<string>): Option<Value> {
    match o
    case None => None
    case Some(s) => Some(Text(s))
  }

  function NumberOf(o: Option<int>): Option<Value> {
    match o
    case None => None
    case Some(n) => Some(Number(n))
  }

  /** A caller style as a JavaScript object: every key it holds is present and non-null. */
  function Present(m: map<string, Value>): (o: map<string, Option<Value>>)
    ensures o.Keys == m.Keys
    ensures forall k :: k in m ==> o[k] == Some(m[k])
  {
    map k | k in m :: Some(m[k])
  }

  /** The eight computed keys as an object, each carrying its field's value, `null` fields included. */
  function Computed(st: Style): (o: map<string, Option<Value>>)
    ensures o.Keys == ComputedKeys
    ensures o["display"] == TextOf(st.display)
    ensures o["flexWrap"] == TextOf(st.flexWrap)
    ensures o["flexDirection"] == TextOf(st.flexDirection)
    ensures o["flex"] == TextOf(st.flex)
    ensures o["alignItems"] == TextOf(st.alignItems)
    ensures o["justifyContent"] == TextOf(st.justifyContent)
    ensures o["marginLeft"] == NumberOf(st.marginLeft)
    ensures o["marginRight"] == NumberOf(st.marginRight)
  {
    map[
      "display" := TextOf(st.display),
      "flexWrap" := TextOf(st.flexWrap),
      "flexDirection" := TextOf(st.flexDirection),
      "flex" := TextOf(st.flex),
      "alignItems" := TextOf(st.alignItems),
      "justifyContent" := TextOf(st.justifyContent),
      "marginLeft" := NumberOf(st.marginLeft),
      "marginRight" := NumberOf(st.marginRight)]
  }

  /**
   The style as the plain object handed to the renderer: the caller's other keys
   together with all computed keys.
   */
  function ToObject(st: Style): (o: map<string, Option<Value>>)
    requires WellFormed(st)
    ensures o.Keys == st.extra.Keys + ComputedKeys
    ensures forall k :: k in st.extra ==> o[k] == Some(st.extra[k])
    ensures forall k :: k in ComputedKeys ==> o[k] == Computed(st)[k]
  {
    Present(st.extra) + Computed(st)
  }

  /**
   `assign(target, source)` on plain objects: every key of either, with the
   value of `source` winning where both have one.
   */
  function Assign(target: map<string, Option<Value>>, source: map<string, Option<Value>>): (o: map<string, Option<Value>>)
    ensures o.Keys == target.Keys + source.Keys
    ensures forall k :: k in source ==> o[k] == source[k]
    ensures forall k :: k in target && k !in source ==> o[k] == target[k]
  {
    target + source
  }

  /** The default style as a plain object: `display: 'flex'` and the seven other computed keys `null`. */
  const InitialObjectLiteral: map<string, Option<Value>> := map[
    "display" := Some(Text("flex")),
    "flexWrap" := None,
    "flexDirection" := None,
    "flex" := None,
    "alignItems" := None,
    "justifyContent" := None,
    "marginLeft" := None,
    "marginRight" := None]

  /** The default style record renders to exactly the default object. */
  lemma InitialObject()
    ensures WellFormed(Initial)
    ensures ToObject(Initial) == InitialObjectLiteral
  {
  }
}
