/** parse_object: the pre-order walk of the object hierarchy. A transform
    appends its matrix to the list it received and passes the extended
    list, by value, to each of its children in index order; a geometry
    object emits one scene object and is not descended into; any other
    object passes its list on unchanged. */
module Walker {
  import opened Wrappers
  import opened Failures
  import opened Matrices
  import opened Xforms
  import opened ObjectTree
  import opened Scene
  import opened Geometry

  /** The object a geometry node emits, o's parent being parent. */
  function Emit(o: Node, parent: Node, xforms: seq<Mat4>): Result<SceneObject, Failure>
    requires IsGeometry(o.kind) && WellFormedKind(o.kind)
  {
    var shape :- ShapeOf(o.kind);
    Ok(SceneObject(CommonOf(parent, xforms), shape))
  }

  /** The objects the walk from o appends, or the exception that ends it. */
  function Walk(o: Node, parent: Node, xforms: seq<Mat4>): Result<seq<SceneObject>, Failure>
    requires WellFormedNode(o)
    decreases o, 1
  {
    if IsGeometry(o.kind) then
      var emitted :- Emit(o, parent, xforms);
      Ok([emitted])
    else if o.kind.XformNode? then
      WalkChildren(o, |o.children|, xforms + [o.kind.matrix])
    else
      WalkChildren(o, |o.children|, xforms)
  }

  /** The walk over o's first k children, each given the same list. */
  function WalkChildren(o: Node, k: nat, xforms: seq<Mat4>): Result<seq<SceneObject>, Failure>
    requires WellFormedNode(o) && k <= |o.children|
    decreases o, 0, k
  {
    if k == 0 then Ok([])
    else
      var before :- WalkChildren(o, k - 1, xforms);
      var objects :- Walk(o.children[k - 1], o, xforms);
      Ok(before + objects)
  }

  /** Appending the outcome of a walk to the objects found so far. */
  function Extend(objects: seq<SceneObject>, r: Result<seq<SceneObject>, Failure>): Result<seq<SceneObject>, Failure> {
    match r
    case Ok(more) => Ok(objects + more)
    case Err(e) => Err(e)
  }

  /** parse_object(o, selector, xforms, objects). */
  method ParseObject(o: Node, parent: Node, xforms: seq<Mat4>, objects: seq<SceneObject>)
    returns (r: Result<seq<SceneObject>, Failure>)
    requires WellFormedNode(o)
    ensures r == Extend(objects, Walk(o, parent, xforms))
    decreases o
  {
    match o.kind {
      case PolyMeshNode(m) =>
        var common := ParseCommonProperty(DefaultCommon(), parent, xforms);
        assert [] + xforms == xforms;
        assert common == CommonOf(parent, xforms);
        var shape := ParsePolymesh(m);
        if shape.Err? {
          return Err(shape.error);
        }
        r := Ok(objects + [SceneObject(common, shape.value)]);
      case PointsNode(c) =>
        var common := ParseCommonProperty(DefaultCommon(), parent, xforms);
        assert [] + xforms == xforms;
        assert common == CommonOf(parent, xforms);
        var shape := ParsePoints(c);
        if shape.Err? {
          return Err(shape.error);
        }
        r := Ok(objects + [SceneObject(common, shape.value)]);
      case CameraNode(c) =>
        var common := ParseCommonProperty(DefaultCommon(), parent, xforms);
        assert [] + xforms == xforms;
        assert common == CommonOf(parent, xforms);
        var shape := CameraShape(c);
        if shape.Err? {
          return Err(shape.error);
        }
        r := Ok(objects + [SceneObject(common, shape.value)]);
      case XformNode(matrix) =>
        var extended := xforms + [matrix];
        r := WalkEach(o, extended, objects);
      case OtherNode =>
        r := WalkEach(o, xforms, objects);
    }
  }

  /** The loop over o's children, each visited with the same list. */
  method WalkEach(o: Node, xforms: seq<Mat4>, objects: seq<SceneObject>)
    returns (r: Result<seq<SceneObject>, Failure>)
    requires WellFormedNode(o)
    ensures r == Extend(objects, WalkChildren(o, |o.children|, xforms))
    decreases o, 0
  {
    var current := objects;
    var i := 0;
    assert objects + [] == objects;
    while i < |o.children|
      invariant 0 <= i <= |o.children|
      invariant Extend(objects, WalkChildren(o, i, xforms)) == Ok(current)
    {
      var next := ParseObject(o.children[i], o, xforms, current);
      if next.Err? {
        ChildErrorSticks(o, xforms, i + 1);
        return next;
      }
      var before := WalkChildren(o, i, xforms).value;
      var more := Walk(o.children[i], o, xforms).value;
      assert WalkChildren(o, i + 1, xforms) == Ok(before + more);
      assert objects + (before + more) == (objects + before) + more;
      current := next.value;
      i := i + 1;
    }
    r := Ok(current);
  }

  /** Once a child's walk has thrown, the later children change nothing. */
  lemma {:induction false} ChildErrorSticks(o: Node, xforms: seq<Mat4>, k: nat)
    requires WellFormedNode(o) && k <= |o.children|
    requires WalkChildren(o, k, xforms).Err?
    ensures WalkChildren(o, |o.children|, xforms) == WalkChildren(o, k, xforms)
    decreases |o.children| - k
  {
    if k < |o.children| {
      ChildErrorSticks(o, xforms, k + 1);
    }
  }

  /** A walk entered with list xs emits only objects whose transform list
      extends xs and whose combined matrix is the product of that list. */
  predicate Carries(objects: seq<SceneObject>, xs: seq<Mat4>) {
    forall i :: 0 <= i < |objects| ==>
      xs <= objects[i].common.xforms && objects[i].common.combinedXforms == Compose(objects[i].common.xforms)
  }

  lemma {:induction false} WalkCarries(o: Node, parent: Node, xs: seq<Mat4>)
    requires WellFormedNode(o) && Walk(o, parent, xs).Ok?
    ensures Carries(Walk(o, parent, xs).value, xs)
    ensures o.kind.XformNode? ==> Carries(Walk(o, parent, xs).value, xs + [o.kind.matrix])
    decreases o, 1
  {
    if o.kind.XformNode? {
      ChildrenCarry(o, |o.children|, xs + [o.kind.matrix]);
      CarriesShorter(Walk(o, parent, xs).value, xs, xs + [o.kind.matrix]);
    } else if !IsGeometry(o.kind) {
      ChildrenCarry(o, |o.children|, xs);
    }
  }

  lemma {:induction false} ChildrenCarry(o: Node, k: nat, xs: seq<Mat4>)
    requires WellFormedNode(o) && k <= |o.children| && WalkChildren(o, k, xs).Ok?
    ensures Carries(WalkChildren(o, k, xs).value, xs)
    decreases o, 0, k
  {
    if k > 0 {
      ChildrenCarry(o, k - 1, xs);
      WalkCarries(o.children[k - 1], o, xs);
    }
  }

  lemma CarriesShorter(objects: seq<SceneObject>, xs: seq<Mat4>, ys: seq<Mat4>)
    requires Carries(objects, ys) && xs <= ys
    ensures Carries(objects, xs)
  {
  }

  /** One scene object per geometry node, however deep. */
  lemma {:induction false} WalkCount(o: Node, parent: Node, xs: seq<Mat4>)
    requires WellFormedNode(o) && Walk(o, parent, xs).Ok?
    ensures |Walk(o, parent, xs).value| == GeometryCount(o)
    decreases o, 1
  {
    if !IsGeometry(o.kind) {
      var ys := if o.kind.XformNode? then xs + [o.kind.matrix] else xs;
      ChildrenWalkCount(o, |o.children|, ys);
    }
  }

  lemma {:induction false} ChildrenWalkCount(o: Node, k: nat, xs: seq<Mat4>)
    requires WellFormedNode(o) && k <= |o.children| && WalkChildren(o, k, xs).Ok?
    ensures |WalkChildren(o, k, xs).value| == ChildrenCount(o, k)
    decreases o, 0, k
  {
    if k > 0 {
      ChildrenWalkCount(o, k - 1, xs);
      WalkCount(o.children[k - 1], o, xs);
    }
  }

  /** A geometry node emits exactly one object, named after and made
      visible by its parent, carrying the list it received and its product;
      its own children are not visited. */
  lemma GeometryEmitsOne(o: Node, parent: Node, xs: seq<Mat4>, children: seq<Node>)
    requires WellFormedNode(o) && IsGeometry(o.kind) && Walk(o, parent, xs).Ok?
    requires forall i :: 0 <= i < |children| ==> WellFormedNode(children[i])
    ensures var objects := Walk(o, parent, xs).value;
      && |objects| == 1
      && objects[0].common.name == parent.fullName
      && objects[0].common.visible == (parent.visible.None? || parent.visible.value == -1)
      && objects[0].common.xforms == xs
      && objects[0].common.combinedXforms == LeftToRight(Reverse(xs))
    ensures Walk(o.(children := children), parent, xs) == Walk(o, parent, xs)
  {
    ComposeIsReversedProduct(xs);
  }

  /** The objects of several walks, laid end to end, first walk first. */
  function Flatten(ss: seq<seq<SceneObject>>): seq<SceneObject> {
    if ss == [] then [] else ss[0] + Flatten(ss[1..])
  }

  lemma {:induction false} FlattenSnoc(ss: seq<seq<SceneObject>>, s: seq<SceneObject>)
    ensures Flatten(ss + [s]) == Flatten(ss) + s
  {
    if ss == [] {
      assert [s][1..] == [];
    } else {
      assert (ss + [s])[1..] == ss[1..] + [s];
      FlattenSnoc(ss[1..], s);
    }
  }

  lemma {:induction false} FlattenHas(ss: seq<seq<SceneObject>>, k: nat, j: nat)
    requires k < |ss| && j < |ss[k]|
    ensures ss[k][j] in Flatten(ss)
  {
    if k > 0 {
      FlattenHas(ss[1..], k - 1, j);
    }
  }

  /** Each of o's first k children, walked on its own with the list ys,
      succeeds. */
  predicate ChildrenOk(o: Node, k: nat, ys: seq<Mat4>)
    requires WellFormedNode(o) && k <= |o.children|
  {
    forall i :: 0 <= i < k ==> Walk(o.children[i], o, ys).Ok?
  }

  /** The objects of those separate walks, child by child. */
  function ChildObjects(o: Node, k: nat, ys: seq<Mat4>): seq<seq<SceneObject>>
    requires WellFormedNode(o) && k <= |o.children| && ChildrenOk(o, k, ys)
  {
    seq(k, i requires 0 <= i < k => Walk(o.children[i], o, ys).value)
  }

  lemma {:induction false} ChildrenJoined(o: Node, k: nat, ys: seq<Mat4>)
    requires WellFormedNode(o) && k <= |o.children|
    ensures WalkChildren(o, k, ys).Ok? <==> ChildrenOk(o, k, ys)
    ensures WalkChildren(o, k, ys).Ok? ==> WalkChildren(o, k, ys).value == Flatten(ChildObjects(o, k, ys))
  {
    if k == 0 {
      assert ChildObjects(o, 0, ys) == [];
    } else {
      ChildrenJoined(o, k - 1, ys);
      if WalkChildren(o, k, ys).Ok? {
        assert ChildObjects(o, k, ys) == ChildObjects(o, k - 1, ys) + [Walk(o.children[k - 1], o, ys).value];
        FlattenSnoc(ChildObjects(o, k - 1, ys), Walk(o.children[k - 1], o, ys).value);
      }
    }
  }

  /** Siblings do not see each other's matrices: every child of a node that
      is not geometry is walked on its own with the same list, the node's own
      list extended by its matrix at a transform, and the node's objects are
      the children's objects in index order. */
  lemma SiblingsIsolated(o: Node, parent: Node, xs: seq<Mat4>)
    requires WellFormedNode(o) && !IsGeometry(o.kind)
    ensures var ys := if o.kind.XformNode? then xs + [o.kind.matrix] else xs;
      && (Walk(o, parent, xs).Ok? <==> ChildrenOk(o, |o.children|, ys))
      && (Walk(o, parent, xs).Ok? ==> Walk(o, parent, xs).value == Flatten(ChildObjects(o, |o.children|, ys)))
  {
    var ys := if o.kind.XformNode? then xs + [o.kind.matrix] else xs;
    ChildrenJoined(o, |o.children|, ys);
  }

  /** Under a transform, the object of each geometry child carries the list
      extended by exactly that transform's matrix, and the transform's name
      and visibility. */
  lemma XformAppendsItsMatrix(o: Node, parent: Node, xs: seq<Mat4>, k: nat)
    requires WellFormedNode(o) && o.kind.XformNode? && k < |o.children| && IsGeometry(o.children[k].kind)
    requires Walk(o, parent, xs).Ok?
    ensures var w := Walk(o.children[k], o, xs + [o.kind.matrix]);
      && w.Ok? && |w.value| == 1
      && w.value[0] in Walk(o, parent, xs).value
      && w.value[0].common.xforms == xs + [o.kind.matrix]
      && w.value[0].common.name == o.fullName
      && w.value[0].common.visible == Visibility(o.visible)
  {
    var ys := xs + [o.kind.matrix];
    SiblingsIsolated(o, parent, xs);
    FlattenHas(ChildObjects(o, |o.children|, ys), k, 0);
  }

  /** A walk fails exactly when some geometry node, not below another
      geometry node, fails to emit. */
  predicate SomeEmitFails(o: Node, parent: Node, xs: seq<Mat4>)
    requires WellFormedNode(o)
    decreases o, 1
  {
    if IsGeometry(o.kind) then Emit(o, parent, xs).Err?
    else
      var ys := if o.kind.XformNode? then xs + [o.kind.matrix] else xs;
      SomeChildFails(o, |o.children|, ys)
  }

  predicate SomeChildFails(o: Node, k: nat, xs: seq<Mat4>)
    requires WellFormedNode(o) && k <= |o.children|
    decreases o, 0, k
  {
    k > 0 && (SomeChildFails(o, k - 1, xs) || SomeEmitFails(o.children[k - 1], o, xs))
  }

  lemma {:induction false} WalkFailsExactly(o: Node, parent: Node, xs: seq<Mat4>)
    requires WellFormedNode(o)
    ensures Walk(o, parent, xs).Err? <==> SomeEmitFails(o, parent, xs)
    decreases o, 1
  {
    if !IsGeometry(o.kind) {
      var ys := if o.kind.XformNode? then xs + [o.kind.matrix] else xs;
      ChildrenFailExactly(o, |o.children|, ys);
    }
  }

  lemma {:induction false} ChildrenFailExactly(o: Node, k: nat, xs: seq<Mat4>)
    requires WellFormedNode(o) && k <= |o.children|
    ensures WalkChildren(o, k, xs).Err? <==> SomeChildFails(o, k, xs)
    decreases o, 0, k
  {
    if k > 0 {
      ChildrenFailExactly(o, k - 1, xs);
      WalkFailsExactly(o.children[k - 1], o, xs);
    }
  }
}
