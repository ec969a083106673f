/**
  The nested values a JSON or YAML loader produces, and the generic walk
  `EQLSearch._traverse_dict` performs over them.
 */
module Tree {
  import opened Wrappers

  /** The two kinds of value `isinstance(value, datetime.date)` accepts: a date and a datetime. */
  datatype DateValue =
    | CalendarDate(year: int, month: int, day: int)
    | Timestamp(year: int, month: int, day: int, hour: int, minute: int, second: int, microsecond: int)

  /** Everything that is neither a dict nor a list is a leaf. */
  datatype Scalar =
    | Str(text: string)
    | Int(number: int)
    | Float(decimal: real)
    | Bool(truth: bool)
    | Null
    | Date(date: DateValue)

  /** A dict keeps its entries in insertion order; a list its elements in order. */
  datatype Node =
    | Map(entries: seq<(string, Node)>)
    | List(elems: seq<Node>)
    | Leaf(value: Scalar)

  type Callback = Node -> Node

  /** Python dicts never hold a key twice, at any depth. */
  predicate WellFormed(n: Node)
  {
    match n
    case Map(es) =>
      (forall i, j :: 0 <= i < j < |es| ==> es[i].0 != es[j].0) &&
      (forall i :: 0 <= i < |es| ==> WellFormed(es[i].1))
    case List(xs) => forall i :: 0 <= i < |xs| ==> WellFormed(xs[i])
    case Leaf(_) => true
  }

  // ---------------------------------------------------------------------------
  // The walk
  // ---------------------------------------------------------------------------

  /**
    `_traverse_dict(obj, callback)`: rebuild `obj` with every child walked,
    then hand the rebuilt node to the callback when there is one.
   */
  function Traverse(obj: Node, callback: Option<Callback>): Node
    decreases obj, 1
  {
    var value := Rebuild(obj, callback);
    match callback
    case None => value
    case Some(f) => f(value)
  }

  /** The `value` of `_traverse_dict`: a dict rebuilt key by key, a list element by element, a leaf as is. */
  function Rebuild(obj: Node, callback: Option<Callback>): Node
    decreases obj, 0
  {
    match obj
    case Map(es) => Map(seq(|es|, i requires 0 <= i < |es| => (es[i].0, Traverse(es[i].1, callback))))
    case List(xs) => List(seq(|xs|, i requires 0 <= i < |xs| => Traverse(xs[i], callback)))
    case Leaf(s) => Leaf(s)
  }

  /** Without a callback, the walk gives back a structure equal to its input. */
  lemma {:induction false} TraverseWithoutCallback(obj: Node)
    ensures Traverse(obj, None) == obj
  {
    match obj
    case Map(es) =>
      forall i | 0 <= i < |es| ensures Traverse(es[i].1, None) == es[i].1 {
        TraverseWithoutCallback(es[i].1);
      }
      assert Rebuild(obj, None).entries == es;
    case List(xs) =>
      forall i | 0 <= i < |xs| ensures Traverse(xs[i], None) == xs[i] {
        TraverseWithoutCallback(xs[i]);
      }
      assert Rebuild(obj, None).elems == xs;
    case Leaf(_) =>
  }

  /** The identity callback changes nothing either. */
  lemma {:induction false} TraverseIdentityCallback(obj: Node)
    ensures Traverse(obj, Some(Identity())) == obj
  {
    match obj
    case Map(es) =>
      forall i | 0 <= i < |es| ensures Traverse(es[i].1, Some(Identity())) == es[i].1 {
        TraverseIdentityCallback(es[i].1);
      }
      assert Rebuild(obj, Some(Identity())).entries == es;
    case List(xs) =>
      forall i | 0 <= i < |xs| ensures Traverse(xs[i], Some(Identity())) == xs[i] {
        TraverseIdentityCallback(xs[i]);
      }
      assert Rebuild(obj, Some(Identity())).elems == xs;
    case Leaf(_) =>
  }

  function Identity(): Callback
  {
    n => n
  }

  // ---------------------------------------------------------------------------
  // Shape, and the leaf-only view of the walk
  // ---------------------------------------------------------------------------

  /** Same kind at every position, dict keys equal and in the same order, list lengths equal. */
  predicate SameShape(a: Node, b: Node)
  {
    match a
    case Map(es) =>
      b.Map? && |b.entries| == |es| &&
      forall i :: 0 <= i < |es| ==> b.entries[i].0 == es[i].0 && SameShape(es[i].1, b.entries[i].1)
    case List(xs) =>
      b.List? && |b.elems| == |xs| &&
      forall i :: 0 <= i < |xs| ==> SameShape(xs[i], b.elems[i])
    case Leaf(_) => b.Leaf?
  }

  /** Keys are never touched, so a tree of the same shape has duplicate keys exactly when the original does. */
  lemma {:induction false} SameShapeKeepsWellFormed(a: Node, b: Node)
    requires SameShape(a, b)
    ensures WellFormed(a) <==> WellFormed(b)
  {
    match a
    case Map(es) =>
      forall i | 0 <= i < |es| ensures WellFormed(es[i].1) <==> WellFormed(b.entries[i].1) {
        SameShapeKeepsWellFormed(es[i].1, b.entries[i].1);
      }
    case List(xs) =>
      forall i | 0 <= i < |xs| ensures WellFormed(xs[i]) <==> WellFormed(b.elems[i]) {
        SameShapeKeepsWellFormed(xs[i], b.elems[i]);
      }
    case Leaf(_) =>
  }

  lemma {:induction false} SameShapeTrans(a: Node, b: Node, c: Node)
    requires SameShape(a, b) && SameShape(b, c)
    ensures SameShape(a, c)
  {
    match a
    case Map(es) =>
      forall i | 0 <= i < |es| ensures SameShape(es[i].1, c.entries[i].1) {
        SameShapeTrans(es[i].1, b.entries[i].1, c.entries[i].1);
      }
    case List(xs) =>
      forall i | 0 <= i < |xs| ensures SameShape(xs[i], c.elems[i]) {
        SameShapeTrans(xs[i], b.elems[i], c.elems[i]);
      }
    case Leaf(_) =>
  }

  /**
    A callback that keeps the shape of whatever node it is given makes the
    whole walk keep the shape of the input, at every depth: dict keys in the
    same order, list lengths, leaves where the leaves were.
   */
  lemma {:induction false} TraverseKeepsShape(obj: Node, f: Callback)
    requires forall n :: SameShape(n, f(n))
    ensures SameShape(obj, Traverse(obj, Some(f)))
  {
    var value := Rebuild(obj, Some(f));
    match obj
    case Map(es) =>
      forall i | 0 <= i < |es| ensures SameShape(es[i].1, Traverse(es[i].1, Some(f))) {
        TraverseKeepsShape(es[i].1, f);
      }
      assert SameShape(obj, value);
      SameShapeTrans(obj, value, f(value));
    case List(xs) =>
      forall i | 0 <= i < |xs| ensures SameShape(xs[i], Traverse(xs[i], Some(f))) {
        TraverseKeepsShape(xs[i], f);
      }
      assert SameShape(obj, value);
      SameShapeTrans(obj, value, f(value));
    case Leaf(_) =>
      assert SameShape(value, f(value));
  }

  /** A scalar transform applied to every leaf, and to nothing else. */
  function MapLeaves(n: Node, g: Scalar -> Scalar): Node
  {
    match n
    case Map(es) => Map(seq(|es|, i requires 0 <= i < |es| => (es[i].0, MapLeaves(es[i].1, g))))
    case List(xs) => List(seq(|xs|, i requires 0 <= i < |xs| => MapLeaves(xs[i], g)))
    case Leaf(s) => Leaf(g(s))
  }

  /** Rewriting leaves only never changes the shape. */
  lemma {:induction false} MapLeavesSameShape(n: Node, g: Scalar -> Scalar)
    ensures SameShape(n, MapLeaves(n, g))
  {
    match n
    case Map(es) =>
      forall i | 0 <= i < |es| ensures SameShape(es[i].1, MapLeaves(es[i].1, g)) {
        MapLeavesSameShape(es[i].1, g);
      }
    case List(xs) =>
      forall i | 0 <= i < |xs| ensures SameShape(xs[i], MapLeaves(xs[i], g)) {
        MapLeavesSameShape(xs[i], g);
      }
    case Leaf(_) =>
  }

  /**
    A callback that leaves every dict and list alone and sends each leaf to a
    leaf makes the walk the same as rewriting the leaves with that scalar map.
   */
  lemma {:induction false} TraverseLeafOnly(obj: Node, f: Callback, g: Scalar -> Scalar)
    requires forall es :: f(Map(es)) == Map(es)
    requires forall xs :: f(List(xs)) == List(xs)
    requires forall s :: f(Leaf(s)) == Leaf(g(s))
    ensures Traverse(obj, Some(f)) == MapLeaves(obj, g)
  {
    match obj
    case Map(es) =>
      forall i | 0 <= i < |es| ensures Traverse(es[i].1, Some(f)) == MapLeaves(es[i].1, g) {
        TraverseLeafOnly(es[i].1, f, g);
      }
      assert Rebuild(obj, Some(f)) == MapLeaves(obj, g);
    case List(xs) =>
      forall i | 0 <= i < |xs| ensures Traverse(xs[i], Some(f)) == MapLeaves(xs[i], g) {
        TraverseLeafOnly(xs[i], f, g);
      }
      assert Rebuild(obj, Some(f)) == MapLeaves(obj, g);
    case Leaf(_) =>
  }

  // ---------------------------------------------------------------------------
  // Which nodes the callback sees, and in what order
  // ---------------------------------------------------------------------------

  function Flatten(ss: seq<seq<Node>>): (r: seq<Node>)
  {
    if ss == [] then [] else ss[0] + Flatten(ss[1..])
  }

  /** Every node of the tree, children before parents, siblings left to right. */
  function PostOrder(n: Node): seq<Node>
  {
    match n
    case Map(es) => Flatten(seq(|es|, i requires 0 <= i < |es| => PostOrder(es[i].1))) + [n]
    case List(xs) => Flatten(seq(|xs|, i requires 0 <= i < |xs| => PostOrder(xs[i]))) + [n]
    case Leaf(_) => [n]
  }

  /**
    `_traverse_dict(obj, f)` run with a log: the comprehensions walk the
    children left to right, each child adding its own calls to the log, then
    `f` is called on the rebuilt node and that call is logged. Gives the
    result together with the arguments of every call to `f`, in call order.
   */
  function TraverseLogged(obj: Node, f: Callback): (Node, seq<Node>)
  {
    match obj
    case Map(es) =>
      var kids := seq(|es|, i requires 0 <= i < |es| => TraverseLogged(es[i].1, f));
      var value := Map(seq(|es|, i requires 0 <= i < |es| => (es[i].0, kids[i].0)));
      (f(value), Flatten(seq(|kids|, i requires 0 <= i < |kids| => kids[i].1)) + [value])
    case List(xs) =>
      var kids := seq(|xs|, i requires 0 <= i < |xs| => TraverseLogged(xs[i], f));
      var value := List(seq(|xs|, i requires 0 <= i < |xs| => kids[i].0));
      (f(value), Flatten(seq(|kids|, i requires 0 <= i < |kids| => kids[i].1)) + [value])
    case Leaf(s) =>
      (f(Leaf(s)), [Leaf(s)])
  }

  /** The rebuilt form of each node of a listing. */
  function RebuildAll(ns: seq<Node>, f: Callback): (r: seq<Node>)
  {
    seq(|ns|, i requires 0 <= i < |ns| => Rebuild(ns[i], Some(f)))
  }

  lemma {:induction false} FlattenRebuildAll(ss: seq<seq<Node>>, f: Callback)
    ensures Flatten(seq(|ss|, i requires 0 <= i < |ss| => RebuildAll(ss[i], f))) == RebuildAll(Flatten(ss), f)
  {
    var mapped := seq(|ss|, i requires 0 <= i < |ss| => RebuildAll(ss[i], f));
    if ss != [] {
      var rest := seq(|ss[1..]|, i requires 0 <= i < |ss[1..]| => RebuildAll(ss[1..][i], f));
      assert mapped[1..] == rest;
      FlattenRebuildAll(ss[1..], f);
      assert RebuildAll(ss[0] + Flatten(ss[1..]), f) == RebuildAll(ss[0], f) + RebuildAll(Flatten(ss[1..]), f);
    }
  }

  /**
    The logged walk returns what `_traverse_dict` returns, and the callback
    is called exactly once per node of the input, in post-order, dicts and
    lists included, each time on that node with its children already walked.
   */
  lemma {:induction false} CallbackOncePerNodePostOrder(obj: Node, f: Callback)
    ensures TraverseLogged(obj, f).0 == Traverse(obj, Some(f))
    ensures TraverseLogged(obj, f).1 == RebuildAll(PostOrder(obj), f)
    ensures |TraverseLogged(obj, f).1| == |PostOrder(obj)|
  {
    match obj
    case Map(es) =>
      var kids := seq(|es|, i requires 0 <= i < |es| => TraverseLogged(es[i].1, f));
      var orders := seq(|es|, i requires 0 <= i < |es| => PostOrder(es[i].1));
      forall i | 0 <= i < |es|
        ensures kids[i].0 == Traverse(es[i].1, Some(f)) && kids[i].1 == RebuildAll(orders[i], f)
      {
        CallbackOncePerNodePostOrder(es[i].1, f);
      }
      assert Map(seq(|es|, i requires 0 <= i < |es| => (es[i].0, kids[i].0))) == Rebuild(obj, Some(f));
      assert seq(|kids|, i requires 0 <= i < |kids| => kids[i].1)
          == seq(|orders|, i requires 0 <= i < |orders| => RebuildAll(orders[i], f));
      FlattenRebuildAll(orders, f);
      assert RebuildAll(Flatten(orders) + [obj], f) == RebuildAll(Flatten(orders), f) + RebuildAll([obj], f);
    case List(xs) =>
      var kids := seq(|xs|, i requires 0 <= i < |xs| => TraverseLogged(xs[i], f));
      var orders := seq(|xs|, i requires 0 <= i < |xs| => PostOrder(xs[i]));
      forall i | 0 <= i < |xs|
        ensures kids[i].0 == Traverse(xs[i], Some(f)) && kids[i].1 == RebuildAll(orders[i], f)
      {
        CallbackOncePerNodePostOrder(xs[i], f);
      }
      assert List(seq(|xs|, i requires 0 <= i < |xs| => kids[i].0)) == Rebuild(obj, Some(f));
      assert seq(|kids|, i requires 0 <= i < |kids| => kids[i].1)
          == seq(|orders|, i requires 0 <= i < |orders| => RebuildAll(orders[i], f));
      FlattenRebuildAll(orders, f);
      assert RebuildAll(Flatten(orders) + [obj], f) == RebuildAll(Flatten(orders), f) + RebuildAll([obj], f);
    case Leaf(_) =>
  }
}
