# Decision-tree node rendering, modelled in Dafny

This project models the self-contained logic of the Angular component that draws a
decision tree with the G6 graph library (`src/app/components/project.component.ts`):

- **Child-reference normalisation** (`ChildRefs`): the `getNodeData` callback that the
  tree-to-graph conversion calls on each record. A `children` array of child records
  becomes the array of their ids; an entry that is missing or has no truthy id is
  warned about (`console.warn`) and dropped; a record without a `children` array gets
  an empty one; every other field is copied through.
- **Style resolution** (`Palette`, `NodeStyle`): the colour table and the total
  functions from a node's `type` (`'root'`, `'leaf'`, anything else) and `depth` to
  label, price, badge and stroke colours and the label weight.
- **The composite node shape** (`NodeShapes`): the label style (with the caller's
  attributes spread over it), the optional price and badge texts, the fixed base
  rectangle with its `selected`/`hover` overrides, and a stack the model assembles
  from them (the source itself never combines the four shapes).

JavaScript values are modelled by `Js.JsValue` (undefined, null, booleans, numbers
with NaN and the infinities, strings, arrays, objects as maps of own properties),
with the language's truthiness, `typeof x === 'number'`, `isNaN` and strict equality
(Dafny `==` on these values, which is what `===` does against a string literal).
A `console.warn` call is a `ChildRefs.Warning` value returned with the record; a
`group.addShape` call is the shape value the draw function returns; `null` is `None`.

The model follows the code exactly; in particular:

- a child is kept when its id is *truthy*, not merely non-empty: a numeric id `0`
  is dropped and warned about, a numeric id `5` is kept as the number 5;
- a price is drawn when it is a number other than NaN, so `Infinity` is drawn too,
  not only finite prices;
- a badge is drawn when it is truthy, so a badge of `0` or `false` is not drawn;
- the code gives no precedence between the `selected` and `hover` overrides; it only
  declares them, and the library applies them.

## Model

| member | source | states |
|---|---|---|
| `ChildRefs.MapChild` | src/app/components/project.component.ts:164-170 | the map step yields the sentinel '' exactly for a rejected entry (missing, or without a truthy id), and the entry's id otherwise |
| `ChildRefs.GetNodeData` | src/app/components/project.component.ts:157-179 | the new record has the old keys plus `children`; every other field is unchanged; an array `children` becomes the ids of the valid entries with one warning per rejected entry; otherwise `children` is `[]` and nothing is warned |
| `ChildRefs.NormaliseIsValidIds` | src/app/components/project.component.ts:163-171 | map-to-sentinel followed by `filter(id !== '')` equals keeping the ids of the valid entries, in input order |
| `ChildRefs.KeptIdsTruthy` | src/app/components/project.component.ts:165-171 | every kept id is truthy; the output never contains the empty string |
| `ChildRefs.KeptPlusWarned` | src/app/components/project.component.ts:164-171 | kept ids plus warnings equal the number of input entries |
| `ChildRefs.WarningsAreRejected` | src/app/components/project.component.ts:165-169 | every warning carries the fixed message and a rejected input entry, and every rejected entry is warned about |
| `ChildRefs.AllValidKeepsAll` | src/app/components/project.component.ts:163-171 | when every entry is valid, every entry yields an id and no warning is issued |
| `ChildRefs.ValidChildIdsAppend` | src/app/components/project.component.ts:163-171 | the kept ids of a concatenation are the concatenation of the kept ids of its parts |
| `ChildRefs.KeptInOrder` | src/app/components/project.component.ts:163-171 | the k-th output id is the id of the k-th valid entry; the source positions strictly increase; every valid entry appears |
| `ChildRefs.FilteringExample` | src/app/components/project.component.ts:158-172 | children `[{id:"a"}, {}, {id:"b"}]` give `["a", "b"]` and one warning, about `{}` |
| `Palette.HexInjective` | src/app/components/project.component.ts:26-34 | distinct colours of the table (plus grey and white) are distinct colour strings |
| `NodeStyle.PalettesSeparate` | src/app/components/project.component.ts:56-108 | for root and for leaf the label, price and badge colours are pairwise distinct; for any other type label and badge are both DI |
| `NodeStyle.FillsDistinguishTypes` | src/app/components/project.component.ts:56-125 | each of the label, price and badge fills determines the type; the stroke is B exactly for the root |
| `NodeShapes.GetLabelStyle` | src/app/components/project.component.ts:53-68 | the label style has text, fill, size, weight, baseline and alignment keys plus the caller's keys; every caller key overrides; each base key the caller leaves alone holds `label` or '', the type's label colour, 14, bold or normal by depth, 'middle', 'center' |
| `NodeShapes.LabelStyleUnoverridden` | src/app/components/project.component.ts:54-66 | for any caller attributes, each key left alone means: text is `label` or '' when falsy; fill is B exactly for 'root', G exactly for 'leaf', DI otherwise; bold exactly at depth 0; centred |
| `NodeShapes.DrawPriceShape` | src/app/components/project.component.ts:70-91 | a price text exists exactly when price is a non-NaN number; it is named price-text, sits at (100, 30), right-aligned, shows the amount, filled R/Y/B by type |
| `NodeShapes.DrawBadgeShape` | src/app/components/project.component.ts:93-115 | a badge text exists exactly when badge is truthy; it is named badge-text, sits at (10, 10), bold and left-aligned, shows the badge, filled Y/B/DI by type |
| `NodeShapes.DrawShape` | src/app/components/project.component.ts:117-145 | the rectangle is named rect, at (0, 0), 100 by 50, radius 4, white, line width 2, shadow blur 5; stroke B for root and grey otherwise; selected sets only stroke R and width 3; hover sets only stroke G and blur 10 |
| `NodeShapes.OverlayFillsMarkType` | src/app/components/project.component.ts:81-108 | a drawn price is R exactly for 'root', Y exactly for 'leaf', B otherwise; a drawn badge is Y exactly for 'root', B exactly for 'leaf', DI otherwise |
| `NodeShapes.Composite` | src/app/components/project.component.ts:53-145 | a node's stack is the rectangle, then the label, then one overlay per present price and badge, and nothing else |
| `NodeShapes.OverlaysDoNotShiftBase` | src/app/components/project.component.ts:117-145 | the rectangle depends only on the type and the label only on type, label and depth, whatever the price and badge |
| `NodeShapes.PresenceTestsDiffer` | src/app/components/project.component.ts:72-97 | a price of 0 is drawn while a badge of 0 or '' is not; NaN and a numeric string draw no price; badge "NEW" is drawn |
| `NodeShapes.OverlayOrder` | src/app/components/project.component.ts:70-115 | a present price is the third layer and a present badge the last |
| `NodeShapes.RootExample` | src/app/components/project.component.ts:53-115 | a depth-0 root with a label and no price or badge has a two-layer stack and a bold label |
| `NodeShapes.PricedLeafExample` | src/app/components/project.component.ts:53-115 | a depth-1 leaf with price 5 has three layers, the third showing 5, and a normal-weight label |

## Left out

- Fetching the tree over the network and parsing its JSON (:151-153): I/O.
- Injecting the icon-font stylesheet into the document (:42-44): browser plumbing.
- The traversal inside G6's `treeToGraphData` (:156), its visiting order and the edges it emits: library code that is not part of this model; only the per-record callback is modelled.
- Node type registration, graph construction, node/edge configuration, the indented layout, zoom and drag behaviours (:149, :154-203): configuration handed to the library.
- The one-shot `fitView` after the first render and `graph.render()` (:205-209): event handling done by the library.
- How and in which precedence the library applies the `selected` and `hover` overrides, and whether and when it invokes the draw callbacks: library behaviour.
- The `data` and `childrenData` getters (:47-52): lookups in the library's graph model; the model passes the node's data record directly.
- NodeShapes.DrawPriceShape: the price text is kept as the amount, not as the string `R$ ` followed by `toFixed(2)`, because that formatting depends on binary floating point.
- ChildRefs.GetNodeData: the record is a map of own properties, so key order is not modelled; a record that is not an object is not modelled, because the traversal only passes tree records; the unused `depth` argument is omitted.
- Reading `id` off a non-object yields `undefined`; prototype properties are not modelled.
- NodeShapes.Composite: the source never puts the four shapes together (nothing in it calls `drawPriceShape` or `drawBadgeShape`, and `drawShape` adds only the rectangle); the layer order and layer count are the model's choice.
- The Angular shell component (`src/app/app.component.ts`): it only holds a title.
