/**
 * The ingredient projection shared by both ingredient panels, the shape-index hook and
 * the serialisers: keep the ingredient cards of the page, then order them by
 * `createdAt` with JavaScript's stable `Array.prototype.sort`.
 */
module Projection {
  import opened Wrappers
  import opened JsText
  import opened Canvas

  /** `shapes.filter(IsIngredient)`, in page order. */
  function IngredientShapes(page: seq<Shape>): (r: seq<Shape>)
    ensures |r| <= |page|
  {
    if page == [] then []
    else (if IsIngredient(page[0]) then [page[0]] else []) + IngredientShapes(page[1..])
  }

  lemma {:induction false} IngredientShapesMembers(page: seq<Shape>)
    ensures forall s :: s in IngredientShapes(page) <==> s in page && IsIngredient(s)
  {
    if page != [] {
      IngredientShapesMembers(page[1..]);
      assert page == [page[0]] + page[1..];
    }
  }

  /** `shapes.filter(IsActiveIngredient)`, in page order. */
  function ActiveIngredientShapes(page: seq<Shape>): (r: seq<Shape>)
    ensures |r| <= |page|
  {
    if page == [] then []
    else (if IsActiveIngredient(page[0]) then [page[0]] else []) + ActiveIngredientShapes(page[1..])
  }

  lemma {:induction false} ActiveIngredientShapesMembers(page: seq<Shape>)
    ensures forall s :: s in ActiveIngredientShapes(page) <==> s in page && IsActiveIngredient(s)
  {
    if page != [] {
      ActiveIngredientShapesMembers(page[1..]);
      assert page == [page[0]] + page[1..];
    }
  }

  lemma {:induction false} ActiveIngredientShapesAppend(a: seq<Shape>, b: seq<Shape>)
    ensures ActiveIngredientShapes(a + b) == ActiveIngredientShapes(a) + ActiveIngredientShapes(b)
  {
    if a == [] {
      assert a + b == b;
    } else {
      var head := if IsActiveIngredient(a[0]) then [a[0]] else [];
      assert (a + b)[0] == a[0] && (a + b)[1..] == a[1..] + b;
      ActiveIngredientShapesAppend(a[1..], b);
      ConcatAssoc(head, ActiveIngredientShapes(a[1..]), ActiveIngredientShapes(b));
    }
  }

  /** Newest first (the panels) or oldest first (the shape index). */
  datatype Order = Ascending | Descending

  /** The comparator: `a` may stand before `b`. */
  predicate InOrder(a: Shape, b: Shape, o: Order) {
    if o == Ascending then CreatedAtKey(a) <= CreatedAtKey(b) else CreatedAtKey(a) >= CreatedAtKey(b)
  }

  predicate Sorted(s: seq<Shape>, o: Order) {
    forall i, j :: 0 <= i < j < |s| ==> InOrder(s[i], s[j], o)
  }

  /** Insert `x` before the first element it may precede. */
  function Insert(x: Shape, t: seq<Shape>, o: Order): seq<Shape> {
    if t == [] then [x]
    else if InOrder(x, t[0], o) then [x] + t
    else [t[0]] + Insert(x, t[1..], o)
  }

  /** A stable sort by `createdAt` (missing counts as 0). */
  function SortByCreatedAt(s: seq<Shape>, o: Order): seq<Shape> {
    if s == [] then [] else Insert(s[0], SortByCreatedAt(s[1..], o), o)
  }

  /** The subsequence of `s` whose sort key is `k`. */
  function WithKey(s: seq<Shape>, k: int): seq<Shape> {
    if s == [] then [] else (if CreatedAtKey(s[0]) == k then [s[0]] else []) + WithKey(s[1..], k)
  }

  lemma {:induction false} InsertMultiset(x: Shape, t: seq<Shape>, o: Order)
    ensures multiset(Insert(x, t, o)) == multiset(t) + multiset{x}
  {
    if t != [] && !InOrder(x, t[0], o) {
      InsertMultiset(x, t[1..], o);
      assert t == [t[0]] + t[1..];
    }
  }

  lemma {:induction false} InsertSorted(x: Shape, t: seq<Shape>, o: Order)
    requires Sorted(t, o)
    ensures Sorted(Insert(x, t, o), o)
  {
    if t == [] {
    } else if InOrder(x, t[0], o) {
      assert forall j :: 0 <= j < |t| ==> InOrder(x, t[j], o) by {
        assert forall j :: 0 < j < |t| ==> InOrder(t[0], t[j], o);
      }
      SortedCons(x, t, o);
    } else {
      var tail := Insert(x, t[1..], o);
      InsertSorted(x, t[1..], o);
      InsertMultiset(x, t[1..], o);
      forall j | 0 <= j < |tail| ensures InOrder(t[0], tail[j], o) {
        HeadPrecedesInserted(x, t, o, tail[j]);
      }
      SortedCons(t[0], tail, o);
    }
  }

  /** A first element that may precede every other keeps a sorted list sorted. */
  lemma SortedCons(x: Shape, t: seq<Shape>, o: Order)
    requires Sorted(t, o)
    requires forall j :: 0 <= j < |t| ==> InOrder(x, t[j], o)
    ensures Sorted([x] + t, o)
  {
    var r := [x] + t;
    forall i, j | 0 <= i < j < |r| ensures InOrder(r[i], r[j], o) {
      assert r[j] == t[j - 1];
      if i > 0 {
        assert r[i] == t[i - 1];
      }
    }
  }

  /** When `x` goes after the head of a sorted list, the head may precede `x` and everything
      else in the list. */
  lemma HeadPrecedesInserted(x: Shape, t: seq<Shape>, o: Order, y: Shape)
    requires Sorted(t, o) && t != [] && !InOrder(x, t[0], o)
    requires y in multiset(t[1..]) + multiset{x}
    ensures InOrder(t[0], y, o)
  {
    if y != x {
      assert y in t[1..];
      var m :| 0 <= m < |t[1..]| && t[1..][m] == y;
      assert t[m + 1] == y;
    }
  }

  lemma {:induction false} InsertWithKey(x: Shape, t: seq<Shape>, o: Order, k: int)
    ensures WithKey(Insert(x, t, o), k) == (if CreatedAtKey(x) == k then [x] else []) + WithKey(t, k)
  {
    if t != [] {
      if InOrder(x, t[0], o) {
        assert ([x] + t)[1..] == t;
      } else {
        assert ([t[0]] + Insert(x, t[1..], o))[1..] == Insert(x, t[1..], o);
        InsertWithKey(x, t[1..], o, k);
      }
    }
  }

  /** The sort returns the same shapes, ordered by the comparator, and keeps shapes with
      equal keys in their input order: the three facts that determine a stable sort. */
  lemma {:induction false} SortByCreatedAtCorrect(s: seq<Shape>, o: Order)
    ensures Sorted(SortByCreatedAt(s, o), o)
    ensures multiset(SortByCreatedAt(s, o)) == multiset(s)
    ensures forall k :: WithKey(SortByCreatedAt(s, o), k) == WithKey(s, k)
  {
    if s != [] {
      SortByCreatedAtCorrect(s[1..], o);
      InsertSorted(s[0], SortByCreatedAt(s[1..], o), o);
      InsertMultiset(s[0], SortByCreatedAt(s[1..], o), o);
      assert s == [s[0]] + s[1..];
      forall k ensures WithKey(SortByCreatedAt(s, o), k) == WithKey(s, k) {
        InsertWithKey(s[0], SortByCreatedAt(s[1..], o), o, k);
      }
    }
  }

  /** Setting the active flag changes neither the sort keys nor the ids, so it commutes
      with the sort. */
  lemma {:induction false} InsertSetActive(x: Shape, t: seq<Shape>, o: Order, id: ShapeId, b: bool)
    ensures Insert(if x.id == id then WithActive(x, b) else x, SetActive(t, id, b), o)
         == SetActive(Insert(x, t, o), id, b)
  {
    if t != [] {
      assert SetActive(t, id, b)[1..] == SetActive(t[1..], id, b);
      if !InOrder(x, t[0], o) {
        InsertSetActive(x, t[1..], o, id, b);
        SetActiveCons(t[0], Insert(x, t[1..], o), id, b);
      } else {
        SetActiveCons(x, t, id, b);
      }
    }
  }

  lemma {:induction false} SortSetActive(s: seq<Shape>, o: Order, id: ShapeId, b: bool)
    ensures SortByCreatedAt(SetActive(s, id, b), o) == SetActive(SortByCreatedAt(s, o), id, b)
  {
    if s != [] {
      assert SetActive(s, id, b)[1..] == SetActive(s[1..], id, b);
      SortSetActive(s[1..], o, id, b);
      InsertSetActive(s[0], SortByCreatedAt(s[1..], o), o, id, b);
    }
  }

  lemma {:induction false} IngredientShapesSetActive(page: seq<Shape>, id: ShapeId, b: bool)
    ensures IngredientShapes(SetActive(page, id, b)) == SetActive(IngredientShapes(page), id, b)
  {
    if page != [] {
      var p := SetActive(page, id, b);
      assert p[1..] == SetActive(page[1..], id, b);
      assert IsIngredient(p[0]) == IsIngredient(page[0]);
      IngredientShapesSetActive(page[1..], id, b);
      if IsIngredient(page[0]) {
        SetActiveCons(page[0], IngredientShapes(page[1..]), id, b);
      }
    }
  }

  /** Updating the head of the list leaves the update of the rest as it is. */
  lemma SetActiveCons(x: Shape, t: seq<Shape>, id: ShapeId, b: bool)
    ensures SetActive([x] + t, id, b) == [if x.id == id then WithActive(x, b) else x] + SetActive(t, id, b)
  {
    assert ([x] + t)[1..] == t;
  }
}
