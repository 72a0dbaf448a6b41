/**
 * The ingredients side panel (`Ingredients/IngredientsPanel.tsx`): the list of ingredient
 * cards newest first, the ids of the active ones, the canvas selection, and the handlers
 * that toggle one card, toggle all cards, extend the selection and delete it.
 */
module IngredientsPanel {
  import opened Wrappers
  import opened JsText
  import opened Canvas
  import opened Projection

  /** `getIngredientTitle`: the title when it has a non-blank character, else a label
      for the card type. */
  function GetIngredientTitle(s: Shape): (r: string)
    ensures !IsBlank(r)
    ensures s.props.title.Some? && !IsBlank(s.props.title.value) ==> r == s.props.title.value
    ensures !(s.props.title.Some? && !IsBlank(s.props.title.value)) ==>
      r == if s.kind == ImageIngredientShape then "Image" else "Text"
  {
    if s.props.title.Some? && !IsBlank(s.props.title.value) then s.props.title.value
    else
      assert !IsWhitespace('I') && !IsWhitespace('T');
      IsBlankIffAllWhitespace("Image");
      IsBlankIffAllWhitespace("Text");
      if s.kind == ImageIngredientShape then "Image" else "Text"
  }

  /** The displayed title is a fixed point: storing it as the title shows it unchanged. */
  lemma GetIngredientTitleStable(s: Shape)
    ensures var t := GetIngredientTitle(s);
      GetIngredientTitle(s.(props := s.props.(title := Some(t)))) == t
  {
  }

  /** `updateIngredients`' list: the ingredient cards of the page, newest first. */
  function DisplayOrder(page: seq<Shape>): seq<Shape> {
    SortByCreatedAt(IngredientShapes(page), Descending)
  }

  /** The displayed list holds exactly the ingredient cards of the page, each as often as
      on the page, newest first, cards of equal age in page order. */
  lemma DisplayOrderCorrect(page: seq<Shape>)
    ensures Sorted(DisplayOrder(page), Descending)
    ensures multiset(DisplayOrder(page)) == multiset(IngredientShapes(page))
    ensures forall s :: s in DisplayOrder(page) <==> s in page && IsIngredient(s)
    ensures forall k :: WithKey(DisplayOrder(page), k) == WithKey(IngredientShapes(page), k)
  {
    SortByCreatedAtCorrect(IngredientShapes(page), Descending);
    IngredientShapesMembers(page);
    forall s ensures s in DisplayOrder(page) <==> s in IngredientShapes(page) {
      assert s in DisplayOrder(page) <==> s in multiset(DisplayOrder(page));
    }
  }

  /** `sorted.filter(i => i.meta?.isActive).map(i => i.id)`. */
  function ActiveIds(shapes: seq<Shape>): (r: seq<ShapeId>)
    ensures |r| <= |shapes|
  {
    if shapes == [] then []
    else (if shapes[0].meta.isActive == Some(true) then [shapes[0].id] else []) + ActiveIds(shapes[1..])
  }

  lemma {:induction false} ActiveIdsMembers(shapes: seq<Shape>)
    ensures forall x :: x in ActiveIds(shapes) <==>
      exists k :: 0 <= k < |shapes| && shapes[k].id == x && shapes[k].meta.isActive == Some(true)
  {
    if shapes != [] {
      ActiveIdsMembers(shapes[1..]);
      forall x | x in ActiveIds(shapes[1..])
        ensures exists k :: 0 <= k < |shapes| && shapes[k].id == x && shapes[k].meta.isActive == Some(true)
      {
        var k :| 0 <= k < |shapes[1..]| && shapes[1..][k].id == x && shapes[1..][k].meta.isActive == Some(true);
        assert shapes[k + 1] == shapes[1..][k];
      }
      forall x | exists k :: 0 <= k < |shapes| && shapes[k].id == x && shapes[k].meta.isActive == Some(true)
        ensures x in ActiveIds(shapes)
      {
        var k :| 0 <= k < |shapes| && shapes[k].id == x && shapes[k].meta.isActive == Some(true);
        if k > 0 {
          assert shapes[1..][k - 1] == shapes[k];
        }
      }
    }
  }

  /** Setting the flag of `id` to `b` makes `id` active exactly when `b` holds and a shape
      carries it, and leaves every other id as it was. */
  lemma {:induction false} ActiveIdsSetActive(shapes: seq<Shape>, id: ShapeId, b: bool, x: ShapeId)
    ensures x in ActiveIds(SetActive(shapes, id, b)) <==>
      if x == id then b && id in Ids(shapes) else x in ActiveIds(shapes)
  {
    if shapes != [] {
      var t := SetActive(shapes, id, b);
      assert t[1..] == SetActive(shapes[1..], id, b);
      assert Ids(shapes) == [shapes[0].id] + Ids(shapes[1..]);
      ActiveIdsSetActive(shapes[1..], id, b, x);
    }
  }

  /** `xs.filter(x => x !== id)`. */
  function RemoveAll(xs: seq<ShapeId>, id: ShapeId): (r: seq<ShapeId>)
    ensures |r| <= |xs|
  {
    if xs == [] then [] else (if xs[0] == id then [] else [xs[0]]) + RemoveAll(xs[1..], id)
  }

  lemma {:induction false} RemoveAllMembers(xs: seq<ShapeId>, id: ShapeId)
    ensures forall x :: x in RemoveAll(xs, id) <==> x in xs && x != id
  {
    if xs != [] {
      RemoveAllMembers(xs[1..], id);
      assert xs == [xs[0]] + xs[1..];
    }
  }

  lemma {:induction false} RemoveAllAppend(xs: seq<ShapeId>, ys: seq<ShapeId>, id: ShapeId)
    ensures RemoveAll(xs + ys, id) == RemoveAll(xs, id) + RemoveAll(ys, id)
  {
    if xs == [] {
      assert xs + ys == ys;
    } else {
      var head := if xs[0] == id then [] else [xs[0]];
      assert (xs + ys)[0] == xs[0] && (xs + ys)[1..] == xs[1..] + ys;
      RemoveAllAppend(xs[1..], ys, id);
      ConcatAssoc(head, RemoveAll(xs[1..], id), RemoveAll(ys, id));
    }
  }

  lemma {:induction false} RemoveAllAbsent(xs: seq<ShapeId>, id: ShapeId)
    requires id !in xs
    ensures RemoveAll(xs, id) == xs
  {
    if xs != [] {
      assert xs[0] in xs;
      assert id !in xs[1..];
      RemoveAllAbsent(xs[1..], id);
      assert xs == [xs[0]] + xs[1..];
    }
  }

  /** The list update of `handleToggleActive` and of a shift-click: a missing id is appended,
      a present one is removed with all its occurrences. */
  function Toggled(xs: seq<ShapeId>, id: ShapeId): seq<ShapeId> {
    if id in xs then RemoveAll(xs, id) else xs + [id]
  }

  /** A missing id is appended at the end; a present id is removed everywhere and nothing
      else is lost. */
  lemma ToggledEffect(xs: seq<ShapeId>, id: ShapeId)
    ensures id !in xs ==> Toggled(xs, id) == xs + [id]
    ensures id in xs ==> id !in Toggled(xs, id)
    ensures forall x :: x != id ==> (x in Toggled(xs, id) <==> x in xs)
  {
    RemoveAllMembers(xs, id);
  }

  /** Toggling a missing id twice restores the list exactly. */
  lemma ToggledTwice(xs: seq<ShapeId>, id: ShapeId)
    requires id !in xs
    ensures Toggled(Toggled(xs, id), id) == xs
  {
    RemoveAllAppend(xs, [id], id);
    RemoveAllAbsent(xs, id);
    assert RemoveAll([id], id) == [];
  }

  /** Two clicks on a card's toggle, as `handleToggleActive` performs them (the first sets
      the flag to "not listed", which the second then reads from the toggled list), give
      the page back when the card's flag agreed with the id list; a card that was off also
      gets the list back, and one that was on returns at the end of the list. */
  lemma ToggleActiveTwice(page: seq<Shape>, activeIds: seq<ShapeId>, id: ShapeId)
    requires AllFlagged(page, id, id in activeIds)
    ensures var ids1 := Toggled(activeIds, id);
      && (id in activeIds ==>
            id !in ids1 && SetActive(SetActive(page, id, false), id, true) == page
            && Toggled(ids1, id) == RemoveAll(activeIds, id) + [id])
      && (id !in activeIds ==>
            id in ids1 && SetActive(SetActive(page, id, true), id, false) == page
            && Toggled(ids1, id) == activeIds)
  {
    ToggledEffect(activeIds, id);
    if id in activeIds {
      SetActiveRoundTrip(page, id, true);
    } else {
      SetActiveRoundTrip(page, id, false);
      ToggledTwice(activeIds, id);
    }
  }

  predicate NoDuplicates(xs: seq<ShapeId>) {
    forall i, j :: 0 <= i < j < |xs| ==> xs[i] != xs[j]
  }

  lemma {:induction false} RemoveAllNoDuplicates(xs: seq<ShapeId>, id: ShapeId)
    requires NoDuplicates(xs)
    ensures NoDuplicates(RemoveAll(xs, id))
  {
    if xs != [] {
      var tail := RemoveAll(xs[1..], id);
      RemoveAllNoDuplicates(xs[1..], id);
      RemoveAllMembers(xs[1..], id);
      if xs[0] != id {
        var r := [xs[0]] + tail;
        assert xs[0] !in xs[1..];
        forall i, j | 0 <= i < j < |r| ensures r[i] != r[j] {
          if i == 0 {
            assert r[j] == tail[j - 1] && r[j] in tail;
          } else {
            assert r[i] == tail[i - 1] && r[j] == tail[j - 1];
          }
        }
      }
    }
  }

  /** A list without duplicates keeps that property under toggling. */
  lemma ToggledNoDuplicates(xs: seq<ShapeId>, id: ShapeId)
    requires NoDuplicates(xs)
    ensures NoDuplicates(Toggled(xs, id))
  {
    if id in xs {
      RemoveAllNoDuplicates(xs, id);
    }
  }

  /** `shapes.filter(s => !ids.includes(s.id))`: the page after `editor.deleteShapes(ids)`. */
  function RemoveShapes(page: seq<Shape>, ids: seq<ShapeId>): (r: seq<Shape>)
    ensures |r| <= |page|
  {
    if page == [] then []
    else (if page[0].id in ids then [] else [page[0]]) + RemoveShapes(page[1..], ids)
  }

  lemma {:induction false} RemoveShapesMembers(page: seq<Shape>, ids: seq<ShapeId>)
    ensures forall s :: s in RemoveShapes(page, ids) <==> s in page && s.id !in ids
  {
    if page != [] {
      RemoveShapesMembers(page[1..], ids);
      assert page == [page[0]] + page[1..];
    }
  }

  /** What a select-all leaves of the page shape `s`: the last listed ingredient carrying
      its id, flagged `b`, or `s` itself when no listed ingredient carries its id. */
  function Updated(s: Shape, ings: seq<Shape>, b: bool): Shape {
    if ings == [] then s
    else if ings[|ings| - 1].id == s.id then WithActive(ings[|ings| - 1], b)
    else Updated(s, ings[..|ings| - 1], b)
  }

  lemma IdsPrefix(ings: seq<Shape>, i: nat)
    requires i < |ings|
    ensures Ids(ings[..i + 1]) == Ids(ings[..i]) + [ings[i].id]
  {
  }

  /** The update keeps the id, takes the new flag when a listed ingredient carries the id,
      and is the identity otherwise. */
  lemma {:induction false} UpdatedEffect(s: Shape, ings: seq<Shape>, b: bool)
    ensures Updated(s, ings, b).id == s.id
    ensures s.id in Ids(ings) ==> Updated(s, ings, b).meta.isActive == Some(b)
    ensures s.id !in Ids(ings) ==> Updated(s, ings, b) == s
  {
    if ings != [] {
      var n := |ings| - 1;
      var init := ings[..n];
      assert Ids(ings) == Ids(init) + [ings[n].id] by {
        IdsPrefix(ings, n);
        assert ings[..n + 1] == ings;
      }
      if ings[n].id != s.id {
        UpdatedEffect(s, init, b);
        assert s.id in Ids(ings) <==> s.id in Ids(init);
      }
    }
  }

  /** The page after writing `WithActive(ing, b)` over the shapes of every listed ingredient,
      one after the other. */
  function SelectAllPage(page: seq<Shape>, ings: seq<Shape>, b: bool): (r: seq<Shape>)
    ensures |r| == |page|
  {
    seq(|page|, k requires 0 <= k < |page| => Updated(page[k], ings, b))
  }

  /** `editor.updateShape(s)`: every shape with the id of `s` is replaced by `s`. */
  function ReplaceShape(page: seq<Shape>, s: Shape): (r: seq<Shape>)
    ensures |r| == |page|
    ensures forall k :: 0 <= k < |page| ==> r[k] == if page[k].id == s.id then s else page[k]
  {
    if page == [] then [] else [if page[0].id == s.id then s else page[0]] + ReplaceShape(page[1..], s)
  }

  lemma SelectAllPageStep(page: seq<Shape>, ings: seq<Shape>, i: nat, b: bool)
    requires i < |ings|
    ensures ReplaceShape(SelectAllPage(page, ings[..i], b), WithActive(ings[i], b))
         == SelectAllPage(page, ings[..i + 1], b)
  {
    var before := SelectAllPage(page, ings[..i], b);
    var after := SelectAllPage(page, ings[..i + 1], b);
    var r := ReplaceShape(before, WithActive(ings[i], b));
    assert ings[..i + 1][..i] == ings[..i];
    forall k | 0 <= k < |page| ensures r[k] == after[k] {
      UpdatedEffect(page[k], ings[..i], b);
    }
  }

  /** After a select-all every shape that carries the id of a listed ingredient has the new
      flag; every other shape is untouched. */
  lemma SelectAllPageEffect(page: seq<Shape>, ings: seq<Shape>, b: bool)
    ensures forall k :: 0 <= k < |page| ==> SelectAllPage(page, ings, b)[k].id == page[k].id
    ensures forall k :: 0 <= k < |page| && page[k].id in Ids(ings) ==>
      SelectAllPage(page, ings, b)[k].meta.isActive == Some(b)
    ensures forall k :: 0 <= k < |page| && page[k].id !in Ids(ings) ==> SelectAllPage(page, ings, b)[k] == page[k]
  {
    forall k | 0 <= k < |page| {
      UpdatedEffect(page[k], ings, b);
    }
  }

  /** When the panel's list is the fresh projection of the page, a select-all gives every
      ingredient card of the page the new flag. */
  lemma SelectAllReachesEveryIngredient(page: seq<Shape>, b: bool)
    ensures forall k :: 0 <= k < |page| && IsIngredient(page[k]) ==>
      SelectAllPage(page, DisplayOrder(page), b)[k].meta.isActive == Some(b)
  {
    var ings := DisplayOrder(page);
    DisplayOrderCorrect(page);
    SelectAllPageEffect(page, ings, b);
    forall k | 0 <= k < |page| && IsIngredient(page[k]) ensures page[k].id in Ids(ings) {
      assert page[k] in page;
      var j :| 0 <= j < |ings| && ings[j] == page[k];
      assert Ids(ings)[j] == page[k].id;
    }
  }

  /** Toggling a displayed card leaves the id list in agreement, as a set, with what the
      next refresh reads back from the page. */
  lemma ToggleAgreesWithRefresh(page: seq<Shape>, active: seq<ShapeId>, id: ShapeId, b: bool)
    requires forall x :: x in active <==> x in ActiveIds(DisplayOrder(page))
    requires exists s :: s in page && IsIngredient(s) && s.id == id
    requires b == (id !in active)
    ensures forall x :: x in Toggled(active, id) <==> x in ActiveIds(DisplayOrder(SetActive(page, id, b)))
  {
    var list := DisplayOrder(page);
    var t := SetActive(list, id, b);
    DisplayOrderSetActive(page, id, b);
    DisplayedId(page, id);
    ToggledEffect(active, id);
    forall x ensures x in Toggled(active, id) <==> x in ActiveIds(t) {
      ActiveIdsSetActive(list, id, b, x);
    }
  }

  /** Setting the flag commutes with the projection the panel displays. */
  lemma DisplayOrderSetActive(page: seq<Shape>, id: ShapeId, b: bool)
    ensures DisplayOrder(SetActive(page, id, b)) == SetActive(DisplayOrder(page), id, b)
  {
    IngredientShapesSetActive(page, id, b);
    SortSetActive(IngredientShapes(page), Descending, id, b);
  }

  /** The id of an ingredient card of the page is listed by the panel. */
  lemma DisplayedId(page: seq<Shape>, id: ShapeId)
    requires exists s :: s in page && IsIngredient(s) && s.id == id
    ensures id in Ids(DisplayOrder(page))
  {
    var list := DisplayOrder(page);
    var s :| s in page && IsIngredient(s) && s.id == id;
    DisplayOrderCorrect(page);
    var j :| 0 <= j < |list| && list[j] == s;
    assert Ids(list)[j] == id;
  }

  /** Whether the select-all checkbox is ticked. */
  predicate AllChecked(ingredients: seq<Shape>, activeIds: seq<ShapeId>) {
    |ingredients| > 0 && |ingredients| == |activeIds|
  }

  /** The panel's state next to the canvas page it reads and writes. */
  class Panel {
    var page: seq<Shape>
    var ingredients: seq<Shape>
    var selectedIds: seq<ShapeId>
    var activeIds: seq<ShapeId>

    /** Mounting runs the first `updateIngredients` and `updateSelection`. */
    constructor(page0: seq<Shape>, selection: seq<ShapeId>)
      ensures page == page0 && selectedIds == selection
      ensures ingredients == DisplayOrder(page0) && activeIds == ActiveIds(ingredients)
    {
      page := page0;
      selectedIds := selection;
      ingredients := DisplayOrder(page0);
      activeIds := ActiveIds(DisplayOrder(page0));
    }

    /** The store listener `updateIngredients`. */
    method UpdateIngredients()
      modifies this
      ensures page == old(page) && selectedIds == old(selectedIds)
      ensures ingredients == DisplayOrder(page) && activeIds == ActiveIds(ingredients)
    {
      var sorted := DisplayOrder(page);
      ingredients := sorted;
      activeIds := ActiveIds(sorted);
    }

    /** `handleToggleActive`: flip the card's flag on the page and in the id list. */
    method ToggleActive(ingredientId: ShapeId)
      modifies this
      ensures page == SetActive(old(page), ingredientId, ingredientId !in old(activeIds))
      ensures activeIds == Toggled(old(activeIds), ingredientId)
      ensures ingredients == old(ingredients) && selectedIds == old(selectedIds)
    {
      var willBeActive := ingredientId !in activeIds;
      page := SetActive(page, ingredientId, willBeActive);
      if willBeActive {
        activeIds := activeIds + [ingredientId];
      } else {
        activeIds := RemoveAll(activeIds, ingredientId);
      }
    }

    /** The select-all click: all cards inactive when the counts agree, all active otherwise. */
    method SelectAll()
      modifies this
      ensures var allActive := |old(ingredients)| == |old(activeIds)|;
        page == SelectAllPage(old(page), old(ingredients), !allActive)
        && activeIds == (if allActive then [] else Ids(old(ingredients)))
      ensures ingredients == old(ingredients) && selectedIds == old(selectedIds)
    {
      var allIds := Ids(ingredients);
      var allActive := |ingredients| == |activeIds|;
      ghost var page0 := page;
      assert page0 == SelectAllPage(page0, ingredients[..0], !allActive);
      var i := 0;
      while i < |ingredients|
        invariant 0 <= i <= |ingredients|
        invariant page == SelectAllPage(page0, ingredients[..i], !allActive)
        invariant ingredients == old(ingredients) && selectedIds == old(selectedIds)
      {
        SelectAllPageStep(page0, ingredients, i, !allActive);
        page := ReplaceShape(page, WithActive(ingredients[i], !allActive));
        i := i + 1;
      }
      assert ingredients[..i] == ingredients;
      activeIds := if allActive then [] else allIds;
    }

    /** `handleIngredientSelect`: shift-click toggles the id in the selection, a plain click
        selects only that card (the camera move is not modelled). */
    method Select(ingredientId: ShapeId, shiftKey: bool)
      modifies this
      ensures selectedIds == if shiftKey then Toggled(old(selectedIds), ingredientId) else [ingredientId]
      ensures page == old(page) && ingredients == old(ingredients) && activeIds == old(activeIds)
    {
      if shiftKey {
        var currentSelection := selectedIds;
        if ingredientId in currentSelection {
          selectedIds := RemoveAll(currentSelection, ingredientId);
        } else {
          selectedIds := currentSelection + [ingredientId];
        }
      } else {
        selectedIds := [ingredientId];
      }
    }

    /** The keyboard handler: Delete or Backspace removes the selected shapes. */
    method KeyDown(key: string)
      modifies this
      ensures (key == "Delete" || key == "Backspace") && |old(selectedIds)| > 0 ==>
        page == RemoveShapes(old(page), old(selectedIds))
      ensures !((key == "Delete" || key == "Backspace") && |old(selectedIds)| > 0) ==> page == old(page)
      ensures ingredients == old(ingredients) && selectedIds == old(selectedIds) && activeIds == old(activeIds)
    {
      if (key == "Delete" || key == "Backspace") && |selectedIds| > 0 {
        page := RemoveShapes(page, selectedIds);
      }
    }
  }
}
