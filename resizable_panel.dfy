/**
 * The drag handle of `ResizablePanel`: while a drag is on, each mouse move reports to the
 * parent the start width moved by the cursor's travel (added on a left panel,
 * subtracted on a right one), clamped to [minWidth, maxWidth].
 */
module ResizablePanel {
  import opened Wrappers

  const DefaultMinWidth: int := 200
  const DefaultMaxWidth: int := 600

  /** Which edge of the page the panel is docked to. */
  datatype Side = Left | Right

  /** `Math.min(Math.max(w, minWidth), maxWidth)`. */
  function Clamp(w: int, minWidth: int, maxWidth: int): int {
    var lower := if w > minWidth then w else minWidth;
    if lower < maxWidth then lower else maxWidth
  }

  /** The width before clamping. */
  function UnclampedWidth(side: Side, startWidth: int, delta: int): int {
    if side == Left then startWidth + delta else startWidth - delta
  }

  /** `newWidth` in `handleMouseMove`. */
  function NewWidth(side: Side, startWidth: int, delta: int, minWidth: int, maxWidth: int): int {
    Clamp(UnclampedWidth(side, startWidth, delta), minWidth, maxWidth)
  }

  /** Within range when the range is not empty, never above the maximum, the unclamped width
      itself when that is in range, and otherwise the bound it overshoots. */
  lemma NewWidthSpec(side: Side, startWidth: int, delta: int, minWidth: int, maxWidth: int)
    ensures var r := NewWidth(side, startWidth, delta, minWidth, maxWidth);
      var w := UnclampedWidth(side, startWidth, delta);
      && r <= maxWidth
      && (minWidth <= maxWidth ==> minWidth <= r)
      && (minWidth <= w <= maxWidth ==> r == w)
      && (w < minWidth && minWidth <= maxWidth ==> r == minWidth)
      && (w > maxWidth ==> r == maxWidth)
  {
  }

  /** Dragging further right widens a left panel and narrows a right one. */
  lemma NewWidthFollowsCursor(startWidth: int, d1: int, d2: int, minWidth: int, maxWidth: int)
    requires d1 <= d2
    ensures NewWidth(Left, startWidth, d1, minWidth, maxWidth) <= NewWidth(Left, startWidth, d2, minWidth, maxWidth)
    ensures NewWidth(Right, startWidth, d2, minWidth, maxWidth) <= NewWidth(Right, startWidth, d1, minWidth, maxWidth)
  {
  }

  /** A drag that returns to where it started reports the start width, when that is in
      range. */
  lemma NoTravelKeepsWidth(side: Side, startWidth: int, minWidth: int, maxWidth: int)
    requires minWidth <= startWidth <= maxWidth
    ensures NewWidth(side, startWidth, 0, minWidth, maxWidth) == startWidth
  {
  }

  class Panel {
    /** The `width` prop the parent passes in. */
    var width: int
    var minWidth: int
    var maxWidth: int
    var side: Side
    var isResizing: bool
    var startX: int
    var startWidth: int
    /** Every value passed to `onWidthChange`, in order. */
    var reported: seq<int>

    /** Every width reported so far is in range, when the range is not empty. */
    predicate Valid()
      reads this
    {
      minWidth <= maxWidth ==> forall k :: 0 <= k < |reported| ==> minWidth <= reported[k] <= maxWidth
    }

    /** Mounting: the optional bounds default to 200 and 600; no drag is on. */
    constructor(width0: int, minWidthProp: Option<int>, maxWidthProp: Option<int>, side0: Side)
      ensures width == width0 && side == side0
      ensures minWidth == minWidthProp.GetOr(DefaultMinWidth) && maxWidth == maxWidthProp.GetOr(DefaultMaxWidth)
      ensures !isResizing && startX == 0 && startWidth == width0 && reported == []
      ensures Valid()
    {
      width := width0;
      minWidth := minWidthProp.GetOr(DefaultMinWidth);
      maxWidth := maxWidthProp.GetOr(DefaultMaxWidth);
      side := side0;
      isResizing := false;
      startX := 0;
      startWidth := width0;
      reported := [];
    }

    /** The parent re-renders with a new `width` prop. */
    method SetWidth(w: int)
      modifies this
      ensures width == w
      ensures minWidth == old(minWidth) && maxWidth == old(maxWidth) && side == old(side)
      ensures isResizing == old(isResizing) && startX == old(startX) && startWidth == old(startWidth)
      ensures reported == old(reported)
    {
      width := w;
    }

    /** `handleMouseDown`: start a drag from the cursor and the current width. */
    method MouseDown(pageX: int)
      modifies this
      ensures isResizing && startX == pageX && startWidth == old(width)
      ensures width == old(width) && minWidth == old(minWidth) && maxWidth == old(maxWidth) && side == old(side)
      ensures reported == old(reported)
    {
      isResizing := true;
      startX := pageX;
      startWidth := width;
    }

    /** `handleMouseMove`: report the new width, only while dragging. */
    method MouseMove(pageX: int)
      requires Valid()
      modifies this
      ensures Valid()
      ensures old(isResizing) ==>
        reported == old(reported) + [NewWidth(side, startWidth, pageX - startX, minWidth, maxWidth)]
      ensures !old(isResizing) ==> reported == old(reported)
      ensures width == old(width) && minWidth == old(minWidth) && maxWidth == old(maxWidth) && side == old(side)
      ensures isResizing == old(isResizing) && startX == old(startX) && startWidth == old(startWidth)
    {
      if !isResizing {
        return;
      }
      var delta := pageX - startX;
      var newWidth := NewWidth(side, startWidth, delta, minWidth, maxWidth);
      NewWidthSpec(side, startWidth, delta, minWidth, maxWidth);
      reported := reported + [newWidth];
    }

    /** `handleMouseUp`: the drag ends. */
    method MouseUp()
      modifies this
      ensures !isResizing
      ensures width == old(width) && minWidth == old(minWidth) && maxWidth == old(maxWidth) && side == old(side)
      ensures startX == old(startX) && startWidth == old(startWidth) && reported == old(reported)
    {
      isResizing := false;
    }
  }
}
