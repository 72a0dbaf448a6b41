/**
 * The canvas page as the core sees it: a sequence of shape records
 * `{id, type, x, y, props, meta}`.  A prop or meta key that is absent is `None`.
 */
module Canvas {
  import opened Wrappers

  type ShapeId = string

  /** The `type` of a shape; every type other than the two ingredient cards is opaque. */
  datatype ShapeType = TextIngredientShape | ImageIngredientShape | OtherShape(name: string)

  /** A comment on an ingredient card (the `Comment` record). */
  datatype Comment = Comment(id: string, text: string, createdAt: int, isAI: bool)

  datatype Point = Point(x: real, y: real)

  datatype Props = Props(
    title: Option<string>,
    text: Option<string>,
    imageUrl: Option<string>,
    comments: Option<seq<Comment>>,
    w: Option<real>,
    h: Option<real>)

  /** `shape.meta`: the active flag and the creation timestamp the panels read. */
  datatype Meta = Meta(isActive: Option<bool>, createdAt: Option<int>)

  datatype Shape = Shape(id: ShapeId, kind: ShapeType, x: real, y: real, props: Props, meta: Meta)

  /** Values a creation draws from outside the model: the id the editor assigns, the
      random comment id (`Math.random`) and the clock (`Date.now`). */
  datatype Fresh = Fresh(shapeId: ShapeId, commentId: string, now: int)

  /** JavaScript truthiness of an optional string: present and non-empty. */
  predicate Truthy(o: Option<string>) {
    o.Some? && o.value != ""
  }

  /** `o || ''`. */
  function OrEmpty(o: Option<string>): (r: string)
    ensures Truthy(o) ==> r == o.value
    ensures !Truthy(o) ==> r == ""
  {
    if o.Some? then o.value else ""
  }

  /** One of the two ingredient card types, carrying a `title` prop. */
  predicate IsIngredient(s: Shape) {
    (s.kind == TextIngredientShape || s.kind == ImageIngredientShape) && s.props.title.Some?
  }

  /** An ingredient whose `meta.isActive === true`. */
  predicate IsActiveIngredient(s: Shape) {
    IsIngredient(s) && s.meta.isActive == Some(true)
  }

  /** The sort key `meta.createdAt ? Number(meta.createdAt) : 0`. */
  function CreatedAtKey(s: Shape): int {
    s.meta.createdAt.GetOr(0)
  }

  /** `{...shape, meta: {...shape.meta, isActive: b}}`. */
  function WithActive(s: Shape, b: bool): (r: Shape)
    ensures r.id == s.id && r.kind == s.kind && r.props == s.props
    ensures CreatedAtKey(r) == CreatedAtKey(s) && r.meta.isActive == Some(b)
    ensures IsIngredient(r) == IsIngredient(s)
  {
    s.(meta := s.meta.(isActive := Some(b)))
  }

  /** The page after `editor.updateShape` set `isActive` to `b` on the shape(s) with id `id`;
      a missing id leaves the page as it is. */
  function SetActive(page: seq<Shape>, id: ShapeId, b: bool): (r: seq<Shape>)
    ensures |r| == |page|
    ensures forall k :: 0 <= k < |page| ==> r[k] == if page[k].id == id then WithActive(page[k], b) else page[k]
  {
    if page == [] then [] else [if page[0].id == id then WithActive(page[0], b) else page[0]] + SetActive(page[1..], id, b)
  }

  /** Every shape with id `id` carries `isActive: b`. */
  predicate AllFlagged(page: seq<Shape>, id: ShapeId, b: bool) {
    forall k :: 0 <= k < |page| && page[k].id == id ==> page[k].meta.isActive == Some(b)
  }

  /** Setting the flag twice keeps only the second setting. */
  lemma SetActiveLastWins(page: seq<Shape>, id: ShapeId, a: bool, b: bool)
    ensures SetActive(SetActive(page, id, a), id, b) == SetActive(page, id, b)
  {
    var r := SetActive(SetActive(page, id, a), id, b);
    assert forall k :: 0 <= k < |page| ==> r[k] == SetActive(page, id, b)[k];
  }

  /** Switching a card's flag away and back restores the page exactly, when every shape
      with that id carried the flag it gets back. */
  lemma SetActiveRoundTrip(page: seq<Shape>, id: ShapeId, b: bool)
    requires AllFlagged(page, id, b)
    ensures SetActive(SetActive(page, id, !b), id, b) == page
  {
    var r := SetActive(SetActive(page, id, !b), id, b);
    assert forall k :: 0 <= k < |page| ==> r[k] == page[k];
  }

  /** The ids of a list of shapes, in order. */
  function Ids(shapes: seq<Shape>): (r: seq<ShapeId>)
    ensures |r| == |shapes| && forall k :: 0 <= k < |shapes| ==> r[k] == shapes[k].id
  {
    if shapes == [] then [] else [shapes[0].id] + Ids(shapes[1..])
  }
}
