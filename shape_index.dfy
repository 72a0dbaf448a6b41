/**
 * The shape-index hook (`useShapeIndex`): the position of a card among the ingredient
 * cards of the page ordered oldest first, or -1.
 */
module ShapeIndex {
  import opened Wrappers
  import opened Canvas
  import opened Projection

  /** `shapes.findIndex(s => s.id === id)`. */
  function FindIndex(shapes: seq<Shape>, id: ShapeId): (r: int)
    ensures -1 <= r < |shapes|
    ensures r >= 0 ==> shapes[r].id == id && forall j :: 0 <= j < r ==> shapes[j].id != id
    ensures r == -1 <==> forall j :: 0 <= j < |shapes| ==> shapes[j].id != id
  {
    if shapes == [] then -1
    else if shapes[0].id == id then 0
    else
      var r := FindIndex(shapes[1..], id);
      if r == -1 then -1 else r + 1
  }

  /** The counted cards: the ingredient cards of the page, oldest first. */
  function IndexOrder(page: seq<Shape>): seq<Shape> {
    SortByCreatedAt(IngredientShapes(page), Ascending)
  }

  /** `getShapeIndex(shapeId)`. */
  function GetShapeIndex(page: seq<Shape>, shapeId: ShapeId): int {
    FindIndex(IndexOrder(page), shapeId)
  }

  /** The index is -1 exactly when no ingredient card of the page has the id; otherwise it
      is a position of the oldest-first list that holds a card with that id, and the
      counted cards are exactly the ingredient cards ordered by age. */
  lemma GetShapeIndexCorrect(page: seq<Shape>, shapeId: ShapeId)
    ensures var r := GetShapeIndex(page, shapeId);
      (r == -1 <==> !exists s :: s in page && IsIngredient(s) && s.id == shapeId)
      && (r >= 0 ==> r < |IngredientShapes(page)| && IndexOrder(page)[r].id == shapeId)
    ensures Sorted(IndexOrder(page), Ascending)
    ensures multiset(IndexOrder(page)) == multiset(IngredientShapes(page))
  {
    var sorted := IndexOrder(page);
    var ings := IngredientShapes(page);
    SortByCreatedAtCorrect(ings, Ascending);
    IngredientShapesMembers(page);
    SameMultisetMembers(sorted, ings);
    FindIndexMembers(sorted, shapeId);
  }

  /** Two lists with the same multiset have the same length and the same members. */
  lemma SameMultisetMembers(a: seq<Shape>, b: seq<Shape>)
    requires multiset(a) == multiset(b)
    ensures |a| == |b| && forall s :: s in a <==> s in b
  {
    assert |multiset(a)| == |multiset(b)|;
    forall s ensures s in a <==> s in b {
      assert s in a <==> s in multiset(a);
      assert s in b <==> s in multiset(b);
    }
  }

  /** The search fails exactly when no member of the list has the id. */
  lemma FindIndexMembers(shapes: seq<Shape>, id: ShapeId)
    ensures FindIndex(shapes, id) == -1 <==> !exists s :: s in shapes && s.id == id
  {
    if exists s :: s in shapes && s.id == id {
      var s :| s in shapes && s.id == id;
      var j :| 0 <= j < |shapes| && shapes[j] == s;
    }
  }

  lemma {:induction false} FindIndexSetActive(shapes: seq<Shape>, id: ShapeId, x: ShapeId, b: bool)
    ensures FindIndex(SetActive(shapes, x, b), id) == FindIndex(shapes, id)
  {
    if shapes != [] {
      assert SetActive(shapes, x, b)[1..] == SetActive(shapes[1..], x, b);
      FindIndexSetActive(shapes[1..], id, x, b);
    }
  }

  /** The active flag plays no part: toggling any card leaves every index as it was. */
  lemma GetShapeIndexIgnoresActive(page: seq<Shape>, shapeId: ShapeId, x: ShapeId, b: bool)
    ensures GetShapeIndex(SetActive(page, x, b), shapeId) == GetShapeIndex(page, shapeId)
  {
    IngredientShapesSetActive(page, x, b);
    SortSetActive(IngredientShapes(page), Ascending, x, b);
    FindIndexSetActive(IndexOrder(page), shapeId, x, b);
  }
}
