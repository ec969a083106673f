/**
  `EQLSearch._serialize_date`: the walk instantiated with `_transformer`,
  which turns a date or datetime into its string form and passes every other
  value through. `str(date)` is library behaviour and enters as the parameter
  `render`.
 */
module DateSerializer {
  import opened Wrappers
  import opened Tree

  /** `_transformer(value)`: a date leaf becomes the string leaf `render(d)`; anything else is returned as is. */
  function Transform(value: Node, render: DateValue -> string): Node
  {
    if value.Leaf? && value.value.Date? then Leaf(Str(render(value.value.date))) else value
  }

  function Transformer(render: DateValue -> string): Callback
  {
    v => Transform(v, render)
  }

  /** `_serialize_date(obj)`. */
  function SerializeDate(obj: Node, render: DateValue -> string): Node
  {
    Traverse(obj, Some(Transformer(render)))
  }

  /** What `_transformer` does to a single scalar. */
  function RenderScalar(s: Scalar, render: DateValue -> string): Scalar
  {
    if s.Date? then Str(render(s.date)) else s
  }

  function ScalarRendering(render: DateValue -> string): Scalar -> Scalar
  {
    s => RenderScalar(s, render)
  }

  /** No date or datetime anywhere in the tree. */
  predicate DateFree(n: Node)
  {
    match n
    case Map(es) => forall i :: 0 <= i < |es| ==> DateFree(es[i].1)
    case List(xs) => forall i :: 0 <= i < |xs| ==> DateFree(xs[i])
    case Leaf(s) => !s.Date?
  }

  /**
    `b` is `a` with each date leaf `d` replaced by the string leaf `render(d)`
    and everything else equal: same kinds, same keys in the same order, same lengths.
   */
  predicate SerializedFrom(a: Node, b: Node, render: DateValue -> string)
  {
    match a
    case Map(es) =>
      b.Map? && |b.entries| == |es| &&
      forall i :: 0 <= i < |es| ==> b.entries[i].0 == es[i].0 && SerializedFrom(es[i].1, b.entries[i].1, render)
    case List(xs) =>
      b.List? && |b.elems| == |xs| &&
      forall i :: 0 <= i < |xs| ==> SerializedFrom(xs[i], b.elems[i], render)
    case Leaf(s) =>
      if s.Date? then b == Leaf(Str(render(s.date))) else b == a
  }

  /** Serialising is rewriting the leaves with the scalar form of the transformer. */
  lemma SerializeDateRewritesLeaves(obj: Node, render: DateValue -> string)
    ensures SerializeDate(obj, render) == MapLeaves(obj, ScalarRendering(render))
  {
    var f, g := Transformer(render), ScalarRendering(render);
    assert forall s :: f(Leaf(s)) == Leaf(g(s));
    TraverseLeafOnly(obj, f, g);
  }

  /** The serialised tree has the shape of the input, so it keeps dict keys unique too. */
  lemma SerializeDateSameShape(obj: Node, render: DateValue -> string)
    ensures SameShape(obj, SerializeDate(obj, render))
    ensures WellFormed(obj) <==> WellFormed(SerializeDate(obj, render))
  {
    SerializeDateRewritesLeaves(obj, render);
    MapLeavesSameShape(obj, ScalarRendering(render));
    SameShapeKeepsWellFormed(obj, SerializeDate(obj, render));
  }

  lemma {:induction false} RenderingSerializes(a: Node, render: DateValue -> string)
    ensures SerializedFrom(a, MapLeaves(a, ScalarRendering(render)), render)
  {
    match a
    case Map(es) =>
      forall i | 0 <= i < |es| ensures SerializedFrom(es[i].1, MapLeaves(es[i].1, ScalarRendering(render)), render) {
        RenderingSerializes(es[i].1, render);
      }
    case List(xs) =>
      forall i | 0 <= i < |xs| ensures SerializedFrom(xs[i], MapLeaves(xs[i], ScalarRendering(render)), render) {
        RenderingSerializes(xs[i], render);
      }
    case Leaf(_) =>
  }

  lemma {:induction false} SerializedIsRendering(a: Node, b: Node, render: DateValue -> string)
    requires SerializedFrom(a, b, render)
    ensures b == MapLeaves(a, ScalarRendering(render))
  {
    match a
    case Map(es) =>
      forall i | 0 <= i < |es| ensures b.entries[i].1 == MapLeaves(es[i].1, ScalarRendering(render)) {
        SerializedIsRendering(es[i].1, b.entries[i].1, render);
      }
      assert b.entries == MapLeaves(a, ScalarRendering(render)).entries;
    case List(xs) =>
      forall i | 0 <= i < |xs| ensures b.elems[i] == MapLeaves(xs[i], ScalarRendering(render)) {
        SerializedIsRendering(xs[i], b.elems[i], render);
      }
      assert b.elems == MapLeaves(a, ScalarRendering(render)).elems;
    case Leaf(_) =>
  }

  /**
    `m` is the serialisation of `obj` exactly when every date leaf of `obj`
    became its string rendering and nothing else changed.
   */
  lemma SerializeDateCharacterised(obj: Node, m: Node, render: DateValue -> string)
    ensures m == SerializeDate(obj, render) <==> SerializedFrom(obj, m, render)
  {
    SerializeDateRewritesLeaves(obj, render);
    RenderingSerializes(obj, render);
    if SerializedFrom(obj, m, render) {
      SerializedIsRendering(obj, m, render);
    }
  }

  lemma {:induction false} RenderingRemovesDates(a: Node, render: DateValue -> string)
    ensures DateFree(MapLeaves(a, ScalarRendering(render)))
  {
    match a
    case Map(es) =>
      forall i | 0 <= i < |es| ensures DateFree(MapLeaves(es[i].1, ScalarRendering(render))) {
        RenderingRemovesDates(es[i].1, render);
      }
    case List(xs) =>
      forall i | 0 <= i < |xs| ensures DateFree(MapLeaves(xs[i], ScalarRendering(render))) {
        RenderingRemovesDates(xs[i], render);
      }
    case Leaf(_) =>
  }

  lemma {:induction false} RenderingFixesDateFree(a: Node, render: DateValue -> string)
    requires DateFree(a)
    ensures MapLeaves(a, ScalarRendering(render)) == a
  {
    match a
    case Map(es) =>
      forall i | 0 <= i < |es| ensures MapLeaves(es[i].1, ScalarRendering(render)) == es[i].1 {
        RenderingFixesDateFree(es[i].1, render);
      }
      assert MapLeaves(a, ScalarRendering(render)).entries == es;
    case List(xs) =>
      forall i | 0 <= i < |xs| ensures MapLeaves(xs[i], ScalarRendering(render)) == xs[i] {
        RenderingFixesDateFree(xs[i], render);
      }
      assert MapLeaves(a, ScalarRendering(render)).elems == xs;
    case Leaf(_) =>
  }

  /** No date value remains anywhere after serialising. */
  lemma SerializeDateRemovesDates(obj: Node, render: DateValue -> string)
    ensures DateFree(SerializeDate(obj, render))
  {
    SerializeDateRewritesLeaves(obj, render);
    RenderingRemovesDates(obj, render);
  }

  /** A tree without dates (all JSON input, for one) is returned unchanged. */
  lemma SerializeDateFixesDateFree(obj: Node, render: DateValue -> string)
    requires DateFree(obj)
    ensures SerializeDate(obj, render) == obj
  {
    SerializeDateRewritesLeaves(obj, render);
    RenderingFixesDateFree(obj, render);
  }

  /** Serialising twice is serialising once: string leaves are not dates. */
  lemma SerializeDateIdempotent(obj: Node, render: DateValue -> string)
    ensures SerializeDate(SerializeDate(obj, render), render) == SerializeDate(obj, render)
  {
    SerializeDateRemovesDates(obj, render);
    SerializeDateFixesDateFree(SerializeDate(obj, render), render);
  }

  /** Serialising a list serialises each element in place; the list itself is passed through. */
  lemma SerializeDateOfList(data: seq<Node>, render: DateValue -> string)
    ensures SerializeDate(List(data), render).List?
    ensures |SerializeDate(List(data), render).elems| == |data|
    ensures forall i :: 0 <= i < |data| ==> SerializeDate(List(data), render).elems[i] == SerializeDate(data[i], render)
  {
    var rebuilt := Rebuild(List(data), Some(Transformer(render)));
    assert rebuilt.List?;
    assert SerializeDate(List(data), render) == Transform(rebuilt, render);
  }
}
