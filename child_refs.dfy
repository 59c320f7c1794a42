/**
 * The `getNodeData` callback handed to the tree-to-graph conversion
 * (src/app/components/project.component.ts:157-179). For one record it replaces
 * the `children` array of child records by the array of their ids, dropping and
 * warning about every entry that is missing or has no truthy id; a record with no
 * `children` array is given an empty one. Every other field is copied through.
 */
module ChildRefs {
  import opened Js

  /** The text the source logs with each rejected child. */
  const INVALID_CHILD_MESSAGE: string := "Filho inválido:"

  /** One `console.warn` call: the message and the offending entry. */
  datatype Warning = Warning(message: string, child: JsValue)

  /** The callback's outcome: the new record and the warnings it logged, in order. */
  datatype Normalised = Normalised(record: map<string, JsValue>, warnings: seq<Warning>)

  /** `child && child.id`: the entry is present and carries a truthy id. */
  predicate IsValidChild(child: JsValue) {
    Truthy(child) && Truthy(Property(child, "id"))
  }

  // ---------------------------------------------------------------------------
  // The callback as written: `.map` to an id or the sentinel '', then `.filter`.
  // ---------------------------------------------------------------------------

  /** The `.map` step for one entry: its id, or '' (after a warning) when it is rejected. */
  function MapChild(child: JsValue): (r: JsValue)
    ensures r == Str("") <==> !IsValidChild(child)
    ensures IsValidChild(child) ==> r == Property(child, "id")
  {
    if Truthy(child) && Truthy(Property(child, "id")) then Property(child, "id") else Str("")
  }

  /** `children.map(...)`. */
  function MapChildren(children: seq<JsValue>): seq<JsValue> {
    seq(|children|, i requires 0 <= i < |children| => MapChild(children[i]))
  }

  /** `.filter((id) => id !== '')`: strict inequality, so only the string '' is dropped. */
  function FilterNonEmpty(ids: seq<JsValue>): seq<JsValue> {
    if ids == [] then []
    else (if ids[0] != Str("") then [ids[0]] else []) + FilterNonEmpty(ids[1..])
  }

  /** The `children` array the callback builds from an input `children` array. */
  function NormaliseChildren(children: seq<JsValue>): seq<JsValue> {
    FilterNonEmpty(MapChildren(children))
  }

  /** The `console.warn` calls the `.map` step makes, one per rejected entry, in order. */
  function Warnings(children: seq<JsValue>): seq<Warning> {
    if children == [] then []
    else
      (if IsValidChild(children[0]) then [] else [Warning(INVALID_CHILD_MESSAGE, children[0])])
      + Warnings(children[1..])
  }

  /** The callback itself (the unused `depth` argument is omitted). */
  function GetNodeData(datum: map<string, JsValue>): (r: Normalised)
    ensures r.record.Keys == datum.Keys + {"children"}
    ensures forall k :: k in datum && k != "children" ==> r.record[k] == datum[k]
    ensures "children" in datum && datum["children"].Arr? ==>
      && r.record["children"] == Arr(ValidChildIds(datum["children"].elems))
      && r.warnings == Warnings(datum["children"].elems)
    ensures !("children" in datum && datum["children"].Arr?) ==>
      r.record["children"] == Arr([]) && r.warnings == []
  {
    if "children" in datum && datum["children"].Arr? then
      var children := datum["children"].elems;
      var restDatum := datum - {"children"};
      NormaliseIsValidIds(children);
      Normalised(restDatum["children" := Arr(NormaliseChildren(children))], Warnings(children))
    else
      Normalised(datum["children" := Arr([])], [])
  }

  // ---------------------------------------------------------------------------
  // Reference definition and its properties.
  // ---------------------------------------------------------------------------

  /** The ids of the valid entries, in input order: what the callback is meant to keep. */
  function ValidChildIds(children: seq<JsValue>): seq<JsValue> {
    if children == [] then []
    else
      (if IsValidChild(children[0]) then [Property(children[0], "id")] else [])
      + ValidChildIds(children[1..])
  }

  /** The map-then-filter pipeline keeps exactly the ids of the valid entries, in order. */
  lemma {:induction false} NormaliseIsValidIds(children: seq<JsValue>)
    ensures NormaliseChildren(children) == ValidChildIds(children)
  {
    if children != [] {
      NormaliseIsValidIds(children[1..]);
      assert MapChildren(children)[1..] == MapChildren(children[1..]);
    }
  }

  /** No kept id is the empty string (every kept id is truthy). */
  lemma {:induction false} KeptIdsTruthy(children: seq<JsValue>)
    ensures forall id :: id in NormaliseChildren(children) ==> Truthy(id)
    ensures Str("") !in NormaliseChildren(children)
  {
    NormaliseIsValidIds(children);
    ValidIdsTruthy(children);
  }

  lemma {:induction false} ValidIdsTruthy(children: seq<JsValue>)
    ensures forall id :: id in ValidChildIds(children) ==> Truthy(id)
  {
    if children != [] {
      ValidIdsTruthy(children[1..]);
    }
  }

  /** Every input entry is either kept or warned about, never both and never neither. */
  lemma {:induction false} KeptPlusWarned(children: seq<JsValue>)
    ensures |NormaliseChildren(children)| + |Warnings(children)| == |children|
  {
    NormaliseIsValidIds(children);
    ValidPlusWarned(children);
  }

  lemma {:induction false} ValidPlusWarned(children: seq<JsValue>)
    ensures |ValidChildIds(children)| + |Warnings(children)| == |children|
  {
    if children != [] {
      ValidPlusWarned(children[1..]);
    }
  }

  /** The warnings name exactly the rejected entries. */
  lemma {:induction false} WarningsAreRejected(children: seq<JsValue>)
    ensures forall w :: w in Warnings(children) ==>
      w.message == INVALID_CHILD_MESSAGE && w.child in children && !IsValidChild(w.child)
    ensures forall c :: c in children && !IsValidChild(c) ==> Warning(INVALID_CHILD_MESSAGE, c) in Warnings(children)
  {
    if children != [] {
      WarningsAreRejected(children[1..]);
      assert forall c :: c in children ==> c == children[0] || c in children[1..];
    }
  }

  /** When every entry is valid, every entry yields an id and nothing is warned about. */
  lemma {:induction false} AllValidKeepsAll(children: seq<JsValue>)
    requires forall i :: 0 <= i < |children| ==> IsValidChild(children[i])
    ensures |NormaliseChildren(children)| == |children|
    ensures Warnings(children) == []
  {
    KeptPlusWarned(children);
    if children != [] {
      AllValidKeepsAll(children[1..]);
    }
  }

  /** The kept ids of a concatenation are the kept ids of its parts, concatenated. */
  lemma {:induction false} ValidChildIdsAppend(a: seq<JsValue>, b: seq<JsValue>)
    ensures ValidChildIds(a + b) == ValidChildIds(a) + ValidChildIds(b)
  {
    if a != [] {
      assert (a + b)[1..] == a[1..] + b;
      ValidChildIdsAppend(a[1..], b);
    } else {
      assert a + b == b;
    }
  }

  /** The positions of the valid entries, in increasing order. */
  function KeptPositions(children: seq<JsValue>): seq<nat> {
    PositionsFrom(children, 0)
  }

  /** The positions at or after `from` that hold a valid entry. */
  function PositionsFrom(children: seq<JsValue>, from: nat): seq<nat>
    requires from <= |children|
    decreases |children| - from
  {
    if from == |children| then []
    else (if IsValidChild(children[from]) then [from] else []) + PositionsFrom(children, from + 1)
  }

  /**
   * Order preservation: the k-th kept id is the id of the k-th valid entry; the
   * positions of the kept entries strictly increase, and every valid entry is kept.
   */
  lemma KeptInOrder(children: seq<JsValue>)
    ensures |KeptPositions(children)| == |NormaliseChildren(children)|
    ensures forall k :: 0 <= k < |KeptPositions(children)| ==>
      && KeptPositions(children)[k] < |children|
      && IsValidChild(children[KeptPositions(children)[k]])
      && NormaliseChildren(children)[k] == Property(children[KeptPositions(children)[k]], "id")
    ensures forall k1, k2 :: 0 <= k1 < k2 < |KeptPositions(children)| ==>
      KeptPositions(children)[k1] < KeptPositions(children)[k2]
    ensures forall i :: 0 <= i < |children| && IsValidChild(children[i]) ==> i in KeptPositions(children)
  {
    NormaliseIsValidIds(children);
    assert children[0..] == children;
    PositionsMatchIds(children, 0);
    PositionsIncreasing(children, 0);
    PositionsComplete(children, 0);
  }

  /** Unfolds `ValidChildIds` one step at position `from`. */
  lemma ValidChildIdsStep(children: seq<JsValue>, from: nat)
    requires from < |children|
    ensures ValidChildIds(children[from..]) ==
      (if IsValidChild(children[from]) then [Property(children[from], "id")] else [])
      + ValidChildIds(children[from + 1..])
  {
  }

  lemma {:induction false} PositionsMatchIds(children: seq<JsValue>, from: nat)
    requires from <= |children|
    decreases |children| - from
    ensures |PositionsFrom(children, from)| == |ValidChildIds(children[from..])|
    ensures forall k :: 0 <= k < |PositionsFrom(children, from)| ==>
      && from <= PositionsFrom(children, from)[k] < |children|
      && IsValidChild(children[PositionsFrom(children, from)[k]])
      && ValidChildIds(children[from..])[k] == Property(children[PositionsFrom(children, from)[k]], "id")
  {
    if from < |children| {
      PositionsMatchIds(children, from + 1);
      ValidChildIdsStep(children, from);
    }
  }

  lemma {:induction false} PositionsIncreasing(children: seq<JsValue>, from: nat)
    requires from <= |children|
    decreases |children| - from
    ensures forall k1, k2 :: 0 <= k1 < k2 < |PositionsFrom(children, from)| ==>
      PositionsFrom(children, from)[k1] < PositionsFrom(children, from)[k2]
  {
    if from < |children| {
      PositionsIncreasing(children, from + 1);
      PositionsMatchIds(children, from + 1);
    }
  }

  lemma {:induction false} PositionsComplete(children: seq<JsValue>, from: nat)
    requires from <= |children|
    decreases |children| - from
    ensures forall i :: from <= i < |children| && IsValidChild(children[i]) ==> i in PositionsFrom(children, from)
  {
    if from < |children| {
      PositionsComplete(children, from + 1);
    }
  }

  /** Children `[{id: "a"}, {}, {id: "b"}]`: two ids are kept and the empty object is warned about. */
  lemma FilteringExample()
    ensures var a := Obj(map["id" := Str("a")]);
            var b := Obj(map["id" := Str("b")]);
            var children := [a, Obj(map[]), b];
            && NormaliseChildren(children) == [Str("a"), Str("b")]
            && Warnings(children) == [Warning(INVALID_CHILD_MESSAGE, Obj(map[]))]
  {
  }
}
