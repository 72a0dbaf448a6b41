/**
 * The older floating ingredients panel (`components/IngredientsPanel.tsx`): the same
 * newest-first projection, a drag-resizable width clamped to [250, 800], a collapse
 * toggle, in-place title editing and a fallback title for untitled cards.
 */
module LegacyIngredientsPanel {
  import opened Wrappers
  import opened JsText
  import opened Canvas
  import opened Projection
  import IngredientsPanel

  const MinPanelWidth: int := 250
  const MaxPanelWidth: int := 800
  /** The panel's left offset on the page, subtracted from the cursor position. */
  const LeftOffset: int := 16
  const InitialWidth: int := 320

  /** `Math.max(250, Math.min(800, clientX - 16))`. */
  function ClampPanelWidth(clientX: int): (r: int)
    ensures MinPanelWidth <= r <= MaxPanelWidth
    ensures MinPanelWidth <= clientX - LeftOffset <= MaxPanelWidth ==> r == clientX - LeftOffset
  {
    var newWidth := clientX - LeftOffset;
    var upper := if MaxPanelWidth < newWidth then MaxPanelWidth else newWidth;
    if MinPanelWidth > upper then MinPanelWidth else upper
  }

  /** The clamped width is the allowed width closest to the cursor, and it follows the
      cursor monotonically. */
  lemma ClampPanelWidthNearest(clientX: int, w: int)
    requires MinPanelWidth <= w <= MaxPanelWidth
    ensures var d := clientX - LeftOffset; var r := ClampPanelWidth(clientX);
      (if r >= d then r - d else d - r) <= (if w >= d then w - d else d - w)
  {
  }

  lemma ClampPanelWidthMonotone(x: int, y: int)
    requires x <= y
    ensures ClampPanelWidth(x) <= ClampPanelWidth(y)
  {
  }

  /** `ingredient.props.title || \`Ingredient ${index}\``, `index` counting from 0. */
  function DisplayTitle(title: Option<string>, index: nat): (r: string)
    ensures r != ""
    ensures Truthy(title) ==> r == title.value
    ensures !Truthy(title) ==> r == "Ingredient " + NatToString(index)
  {
    if Truthy(title) then title.value else "Ingredient " + NatToString(index)
  }

  /** Two untitled cards at different positions never show the same fallback title. */
  lemma FallbackTitlesDistinct(i: nat, j: nat)
    requires i != j
    ensures DisplayTitle(None, i) != DisplayTitle(None, j)
  {
    var p := "Ingredient ";
    if DisplayTitle(None, i) == DisplayTitle(None, j) {
      assert (p + NatToString(i))[|p|..] == NatToString(i);
      assert (p + NatToString(j))[|p|..] == NatToString(j);
      NatToStringInjective(i, j);
    }
  }

  /** The page after `handleTitleChange(id, newTitle)`: the cards with that id get the title. */
  function SetTitle(page: seq<Shape>, id: ShapeId, newTitle: string): (r: seq<Shape>)
    ensures |r| == |page|
    ensures forall k :: 0 <= k < |page| ==>
      r[k] == if page[k].id == id then page[k].(props := page[k].props.(title := Some(newTitle))) else page[k]
  {
    if page == [] then []
    else [if page[0].id == id then page[0].(props := page[0].props.(title := Some(newTitle))) else page[0]]
         + SetTitle(page[1..], id, newTitle)
  }

  /** Renaming keeps every ingredient card an ingredient with the same age, so the card
      stays in the displayed list at the same rank; renaming twice is renaming once. */
  lemma SetTitleKeepsIngredients(page: seq<Shape>, id: ShapeId, newTitle: string)
    ensures forall k :: 0 <= k < |page| && IsIngredient(page[k]) ==>
      IsIngredient(SetTitle(page, id, newTitle)[k])
      && CreatedAtKey(SetTitle(page, id, newTitle)[k]) == CreatedAtKey(page[k])
    ensures SetTitle(SetTitle(page, id, newTitle), id, newTitle) == SetTitle(page, id, newTitle)
  {
  }

  class Panel {
    var page: seq<Shape>
    var ingredients: seq<Shape>
    var selectedIds: seq<ShapeId>
    var editingTitleId: Option<ShapeId>
    var isExpanded: bool
    var width: int
    var isResizing: bool

    /** Mounting: expanded, 320 wide, not resizing, not editing, then the first refresh. */
    constructor(page0: seq<Shape>, selection: seq<ShapeId>)
      ensures page == page0 && selectedIds == selection
      ensures ingredients == IngredientsPanel.DisplayOrder(page0)
      ensures editingTitleId == None && isExpanded && width == InitialWidth && !isResizing
      ensures Valid()
    {
      page := page0;
      selectedIds := selection;
      ingredients := IngredientsPanel.DisplayOrder(page0);
      editingTitleId := None;
      isExpanded := true;
      width := InitialWidth;
      isResizing := false;
    }

    /** The invariant every handler keeps: the width lies in the clamp range (it starts at
        320 and only `Resize` assigns it). */
    predicate Valid()
      reads this
    {
      MinPanelWidth <= width <= MaxPanelWidth
    }

    /** The width the panel is drawn with. */
    function RenderedWidth(): (r: int)
      reads this
      requires Valid()
      ensures MinPanelWidth <= r <= MaxPanelWidth
      ensures isExpanded ==> r == width
      ensures !isExpanded ==> r == InitialWidth
    {
      if isExpanded then width else InitialWidth
    }

    method UpdateIngredients()
      modifies this
      ensures ingredients == IngredientsPanel.DisplayOrder(page)
      ensures page == old(page) && selectedIds == old(selectedIds) && editingTitleId == old(editingTitleId)
      ensures isExpanded == old(isExpanded) && width == old(width) && isResizing == old(isResizing)
    {
      ingredients := IngredientsPanel.DisplayOrder(page);
    }

    method ResizeStart()
      modifies this
      ensures isResizing
      ensures page == old(page) && ingredients == old(ingredients) && selectedIds == old(selectedIds)
      ensures editingTitleId == old(editingTitleId) && isExpanded == old(isExpanded) && width == old(width)
    {
      isResizing := true;
    }

    /** `handleResize`: a mouse move sets the clamped width, but only while resizing. */
    method Resize(clientX: int)
      requires Valid()
      modifies this
      ensures Valid()
      ensures old(isResizing) ==> width == ClampPanelWidth(clientX)
      ensures !old(isResizing) ==> width == old(width)
      ensures isResizing == old(isResizing)
      ensures page == old(page) && ingredients == old(ingredients) && selectedIds == old(selectedIds)
      ensures editingTitleId == old(editingTitleId) && isExpanded == old(isExpanded)
    {
      if !isResizing {
        return;
      }
      width := ClampPanelWidth(clientX);
    }

    method ResizeEnd()
      modifies this
      ensures !isResizing
      ensures page == old(page) && ingredients == old(ingredients) && selectedIds == old(selectedIds)
      ensures editingTitleId == old(editingTitleId) && isExpanded == old(isExpanded) && width == old(width)
    {
      isResizing := false;
    }

    method ToggleExpanded()
      modifies this
      ensures isExpanded == !old(isExpanded)
      ensures page == old(page) && ingredients == old(ingredients) && selectedIds == old(selectedIds)
      ensures editingTitleId == old(editingTitleId) && width == old(width) && isResizing == old(isResizing)
    {
      isExpanded := !isExpanded;
    }

    method TitleDoubleClick(id: ShapeId)
      modifies this
      ensures editingTitleId == Some(id)
      ensures page == old(page) && ingredients == old(ingredients) && selectedIds == old(selectedIds)
      ensures isExpanded == old(isExpanded) && width == old(width) && isResizing == old(isResizing)
    {
      editingTitleId := Some(id);
    }

    /** `handleTitleChange` (blur or Enter): store the title and leave editing. */
    method TitleChange(id: ShapeId, newTitle: string)
      modifies this
      ensures page == SetTitle(old(page), id, newTitle) && editingTitleId == None
      ensures ingredients == old(ingredients) && selectedIds == old(selectedIds)
      ensures isExpanded == old(isExpanded) && width == old(width) && isResizing == old(isResizing)
    {
      page := SetTitle(page, id, newTitle);
      editingTitleId := None;
    }

    /** Escape in the title field leaves editing without storing anything. */
    method TitleEscape()
      modifies this
      ensures editingTitleId == None
      ensures page == old(page) && ingredients == old(ingredients) && selectedIds == old(selectedIds)
      ensures isExpanded == old(isExpanded) && width == old(width) && isResizing == old(isResizing)
    {
      editingTitleId := None;
    }

    /** A click on a row selects exactly that card (the zoom is not modelled). */
    method RowClick(id: ShapeId)
      modifies this
      ensures selectedIds == [id]
      ensures page == old(page) && ingredients == old(ingredients) && editingTitleId == old(editingTitleId)
      ensures isExpanded == old(isExpanded) && width == old(width) && isResizing == old(isResizing)
    {
      selectedIds := [id];
    }

    /** Delete or Backspace removes the selected shapes from the page. */
    method KeyDown(key: string)
      modifies this
      ensures (key == "Delete" || key == "Backspace") && |old(selectedIds)| > 0 ==>
        page == IngredientsPanel.RemoveShapes(old(page), old(selectedIds))
      ensures !((key == "Delete" || key == "Backspace") && |old(selectedIds)| > 0) ==> page == old(page)
      ensures ingredients == old(ingredients) && selectedIds == old(selectedIds) && editingTitleId == old(editingTitleId)
      ensures isExpanded == old(isExpanded) && width == old(width) && isResizing == old(isResizing)
    {
      if (key == "Delete" || key == "Backspace") && |selectedIds| > 0 {
        page := IngredientsPanel.RemoveShapes(page, selectedIds);
      }
    }
  }
}
