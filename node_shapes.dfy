/**
 * The custom node's visual (src/app/components/project.component.ts:46-145): the
 * label style, the optional price and badge texts and the base rectangle, each
 * computed from the node's data record, and the stack they form.
 */
module NodeShapes {
  import opened Wrappers
  import opened Js
  import opened Palette
  import opened NodeStyle

  datatype Align = Left | Center | Right

  /**
   * What a text shows: a value as it is, or an amount formatted as
   * `R$ ${amount.toFixed(2)}` (the formatting itself is not modelled).
   */
  datatype TextContent = Value(v: JsValue) | Currency(amount: Number)

  datatype TextAttrs = TextAttrs(
    x: int, y: int, text: TextContent, fill: Color, fontSize: nat,
    fontWeight: Option<FontWeight>, textAlign: Align)

  /** A `group.addShape('text', ...)` call: the shape's name and its attributes. */
  datatype TextShape = TextShape(name: string, attrs: TextAttrs)

  datatype RectAttrs = RectAttrs(
    x: int, y: int, width: nat, height: nat, fill: Color, stroke: Color,
    lineWidth: nat, radius: nat, shadowColor: string, shadowBlur: nat)

  /** The attributes a named interaction state overrides; None leaves the base value. */
  datatype StateStyle = StateStyle(stroke: Color, lineWidth: Option<nat>, shadowBlur: Option<nat>)

  /** The `group.addShape('rect', ...)` call: base attributes and the two state overrides. */
  datatype RectShape = RectShape(name: string, attrs: RectAttrs, selected: StateStyle, hover: StateStyle)

  /** One layer of a node's visual, bottom to top. */
  datatype Layer = Base(rect: RectShape) | Label(style: map<string, JsValue>) | Overlay(text: TextShape)

  const PRICE_X: int := 100
  const PRICE_Y: int := 30
  const BADGE_X: int := 10
  const BADGE_Y: int := 10
  const RECT_WIDTH: nat := 100
  const RECT_HEIGHT: nat := 50
  const RECT_RADIUS: nat := 4

  /** A small number as a JavaScript value. */
  function JsNat(n: nat): JsValue {
    Num(Finite(n as real))
  }

  /**
   * `getLabelStyle(attributes)` (:53-68): the label's text, fill, size, weight and
   * alignment, with every key of `attributes` spread over them last.
   */
  function GetLabelStyle(data: map<string, JsValue>, attributes: map<string, JsValue>): (r: map<string, JsValue>)
    ensures r.Keys == {"text", "fill", "fontSize", "fontWeight", "textBaseline", "textAlign"} + attributes.Keys
    ensures forall k :: k in attributes ==> r[k] == attributes[k]
    ensures "text" !in attributes ==> r["text"] == (if Truthy(Field(data, "label")) then Field(data, "label") else Str(""))
    ensures "fill" !in attributes ==> r["fill"] == Str(Hex(LabelFill(Classify(Field(data, "type")))))
    ensures "fontSize" !in attributes ==> r["fontSize"] == JsNat(14)
    ensures "fontWeight" !in attributes ==>
      r["fontWeight"] == Str(if Field(data, "depth") == Num(Finite(0.0)) then "bold" else "normal")
    ensures "textBaseline" !in attributes ==> r["textBaseline"] == Str("middle")
    ensures "textAlign" !in attributes ==> r["textAlign"] == Str("center")
  {
    var t := Classify(Field(data, "type"));
    map[
      "text" := Or(Field(data, "label"), Str("")),
      "fill" := Str(Hex(LabelFill(t))),
      "fontSize" := JsNat(14),
      "fontWeight" := Str(if LabelWeight(Field(data, "depth")) == Bold then "bold" else "normal"),
      "textBaseline" := Str("middle"),
      "textAlign" := Str("center")
    ] + attributes
  }

  /** `drawPriceShape` (:70-91): a right-aligned price text, or nothing. */
  function DrawPriceShape(data: map<string, JsValue>): (r: Option<TextShape>)
    ensures r.Some? <==> Field(data, "price").Num? && (Field(data, "price").n.Finite? || Field(data, "price").n.Infinity?)
    ensures r.Some? ==>
      && r.value.name == "price-text"
      && r.value.attrs.x == PRICE_X && r.value.attrs.y == PRICE_Y
      && r.value.attrs.textAlign == Right
      && r.value.attrs.text == Currency(Field(data, "price").n)
      && r.value.attrs.fill == PriceFill(Classify(Field(data, "type")))
  {
    var price := Field(data, "price");
    if !IsNumber(price) || IsNaN(price) then None
    else
      Some(TextShape("price-text", TextAttrs(
        PRICE_X, PRICE_Y, Currency(price.n), PriceFill(Classify(Field(data, "type"))), 12, None, Right)))
  }

  /** `drawBadgeShape` (:93-115): a bold, left-aligned badge text in the corner, or nothing. */
  function DrawBadgeShape(data: map<string, JsValue>): (r: Option<TextShape>)
    ensures r.Some? <==> Truthy(Field(data, "badge"))
    ensures r.Some? ==>
      && r.value.name == "badge-text"
      && r.value.attrs.x == BADGE_X && r.value.attrs.y == BADGE_Y
      && r.value.attrs.textAlign == Left && r.value.attrs.fontWeight == Some(Bold)
      && r.value.attrs.text == Value(Field(data, "badge"))
      && r.value.attrs.fill == BadgeFill(Classify(Field(data, "type")))
  {
    var badge := Field(data, "badge");
    if !Truthy(badge) then None
    else
      Some(TextShape("badge-text", TextAttrs(
        BADGE_X, BADGE_Y, Value(badge), BadgeFill(Classify(Field(data, "type"))), 10, Some(Bold), Left)))
  }

  /** `drawShape` (:117-145): the base rectangle with its `selected` and `hover` overrides. */
  function DrawShape(data: map<string, JsValue>): (r: RectShape)
    ensures r.attrs.x == 0 && r.attrs.y == 0
    ensures r.attrs.width == RECT_WIDTH && r.attrs.height == RECT_HEIGHT && r.attrs.radius == RECT_RADIUS
    ensures r.name == "rect"
    ensures r.attrs.fill == White && r.attrs.lineWidth == 2 && r.attrs.shadowBlur == 5
    ensures r.attrs.shadowColor == SHADOW_COLOR
    ensures r.attrs.stroke == (if Field(data, "type") == Str("root") then B else Grey)
    ensures r.selected.stroke == R && r.selected.lineWidth == Some(3) && r.selected.shadowBlur == None
    ensures r.hover.stroke == G && r.hover.shadowBlur == Some(10) && r.hover.lineWidth == None
  {
    RectShape(
      "rect",
      RectAttrs(0, 0, RECT_WIDTH, RECT_HEIGHT, White, StrokeColor(Classify(Field(data, "type"))),
                2, RECT_RADIUS, SHADOW_COLOR, 5),
      StateStyle(R, Some(3), None),
      StateStyle(G, None, Some(10)))
  }

  /** The overlays that are present, price first. */
  function Overlays(data: map<string, JsValue>): seq<TextShape> {
    (match DrawPriceShape(data) case Some(p) => [p] case None => [])
    + (match DrawBadgeShape(data) case Some(b) => [b] case None => [])
  }

  /** A node's whole visual: the rectangle, the label, then whichever overlays are present. */
  function Composite(data: map<string, JsValue>, attributes: map<string, JsValue>): (layers: seq<Layer>)
    ensures |layers| >= 2
    ensures layers[0] == Base(DrawShape(data))
    ensures layers[1] == Label(GetLabelStyle(data, attributes))
    ensures |layers| == 2 + (if DrawPriceShape(data).Some? then 1 else 0) + (if DrawBadgeShape(data).Some? then 1 else 0)
    ensures forall i :: 2 <= i < |layers| ==> layers[i].Overlay?
  {
    [Base(DrawShape(data)), Label(GetLabelStyle(data, attributes))]
      + seq(|Overlays(data)|, i requires 0 <= i < |Overlays(data)| => Overlay(Overlays(data)[i]))
  }

  /**
   * Whatever attributes the caller spreads over the label, each key it leaves
   * alone keeps its meaning: the text is `label` (or '' when it is falsy), the
   * fill is B exactly for a 'root', G exactly for a 'leaf' and DI for anything
   * else, and the weight is bold exactly at depth 0.
   */
  lemma LabelStyleUnoverridden(data: map<string, JsValue>, attributes: map<string, JsValue>)
    ensures var r := GetLabelStyle(data, attributes);
      && ("text" !in attributes ==>
            r["text"] == (if Truthy(Field(data, "label")) then Field(data, "label") else Str("")))
      && ("fill" !in attributes ==>
            && (r["fill"] == Str("#1783FF") <==> Field(data, "type") == Str("root"))
            && (r["fill"] == Str("#60C42D") <==> Field(data, "type") == Str("leaf"))
            && (r["fill"] == Str("#A7A7A7") <==>
                  Field(data, "type") != Str("root") && Field(data, "type") != Str("leaf")))
      && ("fontWeight" !in attributes ==>
            (r["fontWeight"] == Str("bold") <==> Field(data, "depth") == Num(Finite(0.0))))
      && ("textAlign" !in attributes ==> r["textAlign"] == Str("center"))
  {
  }

  /**
   * A drawn price or badge is filled by the exact `type` string: the price R for
   * 'root', Y for 'leaf' and B otherwise; the badge Y for 'root', B for 'leaf'
   * and DI otherwise.
   */
  lemma OverlayFillsMarkType(data: map<string, JsValue>)
    ensures DrawPriceShape(data).Some? ==>
      var fill := Hex(DrawPriceShape(data).value.attrs.fill);
      && (fill == "#F46649" <==> Field(data, "type") == Str("root"))
      && (fill == "#DB9D0D" <==> Field(data, "type") == Str("leaf"))
      && (fill == "#1783FF" <==> Field(data, "type") != Str("root") && Field(data, "type") != Str("leaf"))
    ensures DrawBadgeShape(data).Some? ==>
      var fill := Hex(DrawBadgeShape(data).value.attrs.fill);
      && (fill == "#DB9D0D" <==> Field(data, "type") == Str("root"))
      && (fill == "#1783FF" <==> Field(data, "type") == Str("leaf"))
      && (fill == "#A7A7A7" <==> Field(data, "type") != Str("root") && Field(data, "type") != Str("leaf"))
  {
  }

  /**
   * The overlays are fixed-position: whatever the price and badge, two records of
   * the same type get the same rectangle, and with the same label and depth the
   * same label.
   */
  lemma OverlaysDoNotShiftBase(d1: map<string, JsValue>, d2: map<string, JsValue>, attributes: map<string, JsValue>)
    requires Field(d1, "type") == Field(d2, "type")
    ensures Composite(d1, attributes)[0] == Composite(d2, attributes)[0]
    ensures Field(d1, "label") == Field(d2, "label") && Field(d1, "depth") == Field(d2, "depth") ==>
      Composite(d1, attributes)[1] == Composite(d2, attributes)[1]
  {
  }

  /**
   * Price and badge use different presence tests: a price of 0 is drawn although
   * it is falsy, an empty badge is not, and NaN draws no price.
   */
  lemma PresenceTestsDiffer()
    ensures DrawPriceShape(map["price" := JsNat(0)]).Some?
    ensures DrawBadgeShape(map["badge" := JsNat(0)]).None?
    ensures DrawBadgeShape(map["badge" := Str("")]).None?
    ensures DrawBadgeShape(map["badge" := Str("NEW")]).Some?
    ensures DrawPriceShape(map["price" := Num(NaN)]).None?
    ensures DrawPriceShape(map["price" := Str("19.9")]).None?
  {
  }

  /** The overlays appear in the stack in the order price, then badge. */
  lemma OverlayOrder(data: map<string, JsValue>, attributes: map<string, JsValue>)
    ensures DrawPriceShape(data).Some? ==> Composite(data, attributes)[2] == Overlay(DrawPriceShape(data).value)
    ensures DrawBadgeShape(data).Some? ==>
      Composite(data, attributes)[|Composite(data, attributes)| - 1] == Overlay(DrawBadgeShape(data).value)
  {
  }

  /** A depth-0 root with a label and neither price nor badge shows a bold, label-only stack. */
  lemma RootExample()
    ensures var root := map["id" := Str("r"), "type" := Str("root"), "depth" := JsNat(0), "label" := Str("Start")];
      && |Composite(root, map[])| == 2
      && GetLabelStyle(root, map[])["fontWeight"] == Str("bold")
  {
  }

  /** A leaf with price 5 adds a price text after its normal-weight label. */
  lemma PricedLeafExample()
    ensures var c1 := map["id" := Str("c1"), "type" := Str("leaf"), "depth" := JsNat(1), "label" := Str("A"), "price" := JsNat(5)];
      && |Composite(c1, map[])| == 3
      && Composite(c1, map[])[2].text.attrs.text == Currency(Finite(5.0))
      && GetLabelStyle(c1, map[])["fontWeight"] == Str("normal")
  {
  }
}
