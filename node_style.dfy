/**
 * Style resolution: the total functions from a node's `type` and `depth` to the
 * colours and the label weight the node callbacks use
 * (src/app/components/project.component.ts:53-125).
 */
module NodeStyle {
  import opened Js
  import opened Palette

  /** The three cases the ternaries distinguish: 'root', 'leaf' and anything else. */
  datatype NodeType = Root | Leaf | Other

  /** `type === 'root'`, then `type === 'leaf'`: strict equality, so only those strings match. */
  function Classify(typ: JsValue): NodeType {
    if typ == Str("root") then Root
    else if typ == Str("leaf") then Leaf
    else Other
  }

  datatype FontWeight = Bold | Normal

  /** The label's fill (:57-61). */
  function LabelFill(t: NodeType): Color {
    match t
    case Root => B
    case Leaf => G
    case Other => DI
  }

  /** The price text's fill (:81-85). */
  function PriceFill(t: NodeType): Color {
    match t
    case Root => R
    case Leaf => Y
    case Other => B
  }

  /** The badge text's fill (:104-108). */
  function BadgeFill(t: NodeType): Color {
    match t
    case Root => Y
    case Leaf => B
    case Other => DI
  }

  /** The base rectangle's stroke (:125). */
  function StrokeColor(t: NodeType): Color {
    if t == Root then B else Grey
  }

  /** `depth === 0 ? 'bold' : 'normal'` (:63). */
  function LabelWeight(depth: JsValue): FontWeight {
    if depth == Num(Finite(0.0)) then Bold else Normal
  }

  /**
   * For a root and for a leaf the label, price and badge colours are pairwise
   * distinct; for any other type the label and badge share DI.
   */
  lemma PalettesSeparate(t: NodeType)
    ensures t != Other ==>
      LabelFill(t) != PriceFill(t) && LabelFill(t) != BadgeFill(t) && PriceFill(t) != BadgeFill(t)
    ensures t == Other ==> LabelFill(t) == BadgeFill(t) == DI
  {
  }

  /** Each attribute tells the three types apart, except the stroke, which marks only the root. */
  lemma FillsDistinguishTypes(t1: NodeType, t2: NodeType)
    ensures LabelFill(t1) == LabelFill(t2) ==> t1 == t2
    ensures PriceFill(t1) == PriceFill(t2) ==> t1 == t2
    ensures BadgeFill(t1) == BadgeFill(t2) ==> t1 == t2
    ensures StrokeColor(t1) == B <==> t1 == Root
  {
  }
}
