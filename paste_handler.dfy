/**
 * The global paste handler (`pasteHandler.ts`): with nothing selected, a paste creates
 * an image card from the first image file on the clipboard, or else a text card from
 * non-blank clipboard text; the module-level counters name the cards "Image n" and
 * "Text n".  Reading the file (`FileReader`) yields its data URL, and decoding that URL
 * (`Image.onload`) is the input `decode`.
 */
module PasteHandler {
  import opened Wrappers
  import opened JsText
  import opened Canvas
  import opened Fit

  const ImagePrefix: string := "Image "
  const TextPrefix: string := "Text "
  const ImageMime: string := "image/"

  /** A clipboard item: its MIME type and, when `getAsFile` returns a file, its data URL. */
  datatype ClipboardItem = ClipboardItem(mimeType: string, file: Option<string>)

  /** `e.clipboardData`: its items and `getData('text')`. */
  datatype ClipboardData = ClipboardData(items: seq<ClipboardItem>, text: string)

  /** One paste event: how many shapes are selected, the clipboard (absent when the event
      has none), the placement point and the values the editor and clock supply. */
  datatype PasteEvent = PasteEvent(selectedCount: nat, clipboard: Option<ClipboardData>, point: Point, ids: Fresh)

  /** The module-level counters and the page. */
  datatype PasteState = PasteState(imageCount: nat, textCount: nat, page: seq<Shape>)

  predicate IsImageFile(item: ClipboardItem) {
    StartsWith(item.mimeType, ImageMime) && item.file.Some?
  }

  /** Item `k` is the first image file of the list. */
  predicate IsFirstImageFile(items: seq<ClipboardItem>, k: int) {
    0 <= k < |items| && IsImageFile(items[k]) && forall j :: 0 <= j < k ==> !IsImageFile(items[j])
  }

  /** The data URL of the first item the `for ... of` loop acts on. */
  function FirstImageFile(items: seq<ClipboardItem>): (r: Option<string>)
    ensures r.None? <==> forall k :: 0 <= k < |items| ==> !IsImageFile(items[k])
    ensures r.Some? ==> exists k :: IsFirstImageFile(items, k) && items[k].file == r
  {
    if items == [] then None
    else if IsImageFile(items[0]) then
      assert IsFirstImageFile(items, 0);
      items[0].file
    else
      var r := FirstImageFile(items[1..]);
      assert r.Some? ==> exists k :: IsFirstImageFile(items, k) && items[k].file == r by {
        if r.Some? {
          var k :| IsFirstImageFile(items[1..], k) && items[1..][k].file == r;
          forall j | 0 <= j < k + 1 ensures !IsImageFile(items[j]) {
            if j > 0 {
              assert items[j] == items[1..][j - 1];
            }
          }
          assert IsFirstImageFile(items, k + 1);
        }
      }
      r
  }

  function ImageShape(dataUrl: string, point: Point, dims: Dims, n: nat, ids: Fresh): Shape {
    Shape(ids.shapeId, ImageIngredientShape, point.x, point.y,
      Props(Some(ImagePrefix + NatToString(n)), None, Some(dataUrl), None, Some(dims.width), Some(dims.height)),
      Meta(None, None))
  }

  function TextShape(text: string, point: Point, n: nat, ids: Fresh): Shape {
    Shape(ids.shapeId, TextIngredientShape, point.x, point.y,
      Props(Some(TextPrefix + NatToString(n)), Some(text), None, None, None, None),
      Meta(None, None))
  }

  /** `addImageIngredient`: when the image loads, count it and add the card. */
  function ImageAdded(st: PasteState, dataUrl: string, point: Point, loaded: Option<PositiveDims>, ids: Fresh): PasteState {
    match loaded
    case None => st
    case Some(natural) =>
      st.(imageCount := st.imageCount + 1,
          page := st.page + [ImageShape(dataUrl, point, FitWithin(natural), st.imageCount + 1, ids)])
  }

  /** `addTextIngredient`: count the text and add the card. */
  function TextAdded(st: PasteState, text: string, point: Point, ids: Fresh): PasteState {
    st.(textCount := st.textCount + 1, page := st.page + [TextShape(text, point, st.textCount + 1, ids)])
  }

  /** `handleGlobalPaste`. */
  function Paste(st: PasteState, e: PasteEvent, decode: string -> Option<PositiveDims>): PasteState {
    if e.selectedCount > 0 then st
    else match e.clipboard
      case None => st
      case Some(cb) =>
        match FirstImageFile(cb.items)
        case Some(url) => ImageAdded(st, url, e.point, decode(url), e.ids)
        case None => if IsBlank(cb.text) then st else TextAdded(st, cb.text, e.point, e.ids)
  }

  /** What one paste does: nothing while shapes are selected; the first image file wins over
      any text and adds at most one image card; otherwise non-blank text, untrimmed, becomes
      one text card; each card is named by its own pre-incremented counter. */
  lemma PasteSpec(st: PasteState, e: PasteEvent, decode: string -> Option<PositiveDims>)
    ensures var r := Paste(st, e, decode);
      && (e.selectedCount > 0 || e.clipboard.None? ==> r == st)
      && (e.selectedCount == 0 && e.clipboard.Some? && FirstImageFile(e.clipboard.value.items).Some? ==>
            var url := FirstImageFile(e.clipboard.value.items).value;
            r.textCount == st.textCount
            && (decode(url).None? ==> r == st)
            && (decode(url).Some? ==>
                  r.imageCount == st.imageCount + 1
                  && r.page == st.page + [ImageShape(url, e.point, FitWithin(decode(url).value), r.imageCount, e.ids)]))
      && (e.selectedCount == 0 && e.clipboard.Some? && FirstImageFile(e.clipboard.value.items).None? ==>
            var text := e.clipboard.value.text;
            r.imageCount == st.imageCount
            && (IsBlank(text) ==> r == st)
            && (!IsBlank(text) ==>
                  r.textCount == st.textCount + 1
                  && r.page == st.page + [TextShape(text, e.point, r.textCount, e.ids)]
                  && r.page[|st.page|].props.text == Some(text)))
  {
  }

  /** The image card has the clamped size of the decoded image. */
  lemma ImageShapeFits(dataUrl: string, point: Point, natural: PositiveDims, n: nat, ids: Fresh)
    ensures var s := ImageShape(dataUrl, point, FitWithin(natural), n, ids);
      0.0 < s.props.w.value <= MaxWidth && 0.0 < s.props.h.value <= MaxHeight
      && s.props.w.value * natural.height == s.props.h.value * natural.width
      && (natural.width <= MaxWidth && natural.height <= MaxHeight ==>
            s.props.w == Some(natural.width) && s.props.h == Some(natural.height))
  {
    FitWithinSpec(natural);
  }

  /** The titles of the cards of one kind, in page order. */
  function TitlesOf(shapes: seq<Shape>, kind: ShapeType): seq<string> {
    if shapes == [] then []
    else
      var last := shapes[|shapes| - 1];
      TitlesOf(shapes[..|shapes| - 1], kind) + (if last.kind == kind then [last.props.title.GetOr("")] else [])
  }

  /** `[prefix + (lo + 1), ..., prefix + hi]`. */
  function Numbered(prefix: string, lo: nat, hi: nat): seq<string>
    requires lo <= hi
    decreases hi
  {
    if lo == hi then [] else Numbered(prefix, lo, hi - 1) + [prefix + NatToString(hi)]
  }

  lemma {:induction false} TitlesOfAppend(a: seq<Shape>, b: seq<Shape>, kind: ShapeType)
    ensures TitlesOf(a + b, kind) == TitlesOf(a, kind) + TitlesOf(b, kind)
    decreases |b|
  {
    if b == [] {
      assert a + b == a;
    } else {
      var init := b[..|b| - 1];
      var last := b[|b| - 1];
      assert (a + b)[..|a + b| - 1] == a + init;
      TitlesOfAppend(a, init, kind);
      ConcatAssoc(TitlesOf(a, kind), TitlesOf(init, kind), if last.kind == kind then [last.props.title.GetOr("")] else []);
    }
  }

  lemma {:induction false} NumberedAppend(prefix: string, a: nat, b: nat, c: nat)
    requires a <= b <= c
    ensures Numbered(prefix, a, b) + Numbered(prefix, b, c) == Numbered(prefix, a, c)
    decreases c
  {
    if b == c {
      assert Numbered(prefix, b, c) == [];
    } else {
      NumberedAppend(prefix, a, b, c - 1);
      ConcatAssoc(Numbered(prefix, a, b), Numbered(prefix, b, c - 1), [prefix + NatToString(c)]);
    }
  }

  /** The numbering a paste keeps: the page only grows, and the titles of the cards it adds
      continue the "Text n" and "Image n" sequences from the counters. */
  predicate Continues(st: PasteState, r: PasteState) {
    && st.imageCount <= r.imageCount && st.textCount <= r.textCount
    && |st.page| <= |r.page| && r.page[..|st.page|] == st.page
    && TitlesOf(r.page[|st.page|..], TextIngredientShape) == Numbered(TextPrefix, st.textCount, r.textCount)
    && TitlesOf(r.page[|st.page|..], ImageIngredientShape) == Numbered(ImagePrefix, st.imageCount, r.imageCount)
  }

  lemma PasteContinues(st: PasteState, e: PasteEvent, decode: string -> Option<PositiveDims>)
    ensures Continues(st, Paste(st, e, decode))
  {
    var r := Paste(st, e, decode);
    var n := |st.page|;
    PasteSpec(st, e, decode);
    if r == st {
      assert r.page[n..] == [];
    } else {
      var s := r.page[n];
      assert r.page[n..] == [s] && [s][..0] == [];
      assert r.page[..n] == st.page;
      if s.kind == TextIngredientShape {
        assert r.imageCount == st.imageCount && r.textCount == st.textCount + 1;
        assert TitlesOf([s], TextIngredientShape) == [TextPrefix + NatToString(r.textCount)];
        assert TitlesOf([s], ImageIngredientShape) == [];
      } else {
        assert r.textCount == st.textCount && r.imageCount == st.imageCount + 1;
        assert TitlesOf([s], ImageIngredientShape) == [ImagePrefix + NatToString(r.imageCount)];
        assert TitlesOf([s], TextIngredientShape) == [];
      }
    }
  }

  /** A session of pastes, in order. */
  function PasteAll(st: PasteState, events: seq<PasteEvent>, decode: string -> Option<PositiveDims>): PasteState {
    if events == [] then st else Paste(PasteAll(st, events[..|events| - 1], decode), events[|events| - 1], decode)
  }

  /** Over any session the cards the handler adds are numbered consecutively per kind: from
      fresh counters, the n-th text card is titled "Text n" and the n-th image card "Image n". */
  lemma {:induction false} PasteAllNumbering(st: PasteState, events: seq<PasteEvent>, decode: string -> Option<PositiveDims>)
    ensures Continues(st, PasteAll(st, events, decode))
  {
    if events == [] {
      assert st.page[|st.page|..] == [];
    } else {
      var mid := PasteAll(st, events[..|events| - 1], decode);
      var r := PasteAll(st, events, decode);
      PasteAllNumbering(st, events[..|events| - 1], decode);
      PasteContinues(mid, events[|events| - 1], decode);
      var n := |st.page|;
      var m := |mid.page|;
      assert r.page[..m] == mid.page;
      assert r.page[..n] == st.page by {
        assert r.page[..n] == r.page[..m][..n];
      }
      assert r.page[n..] == mid.page[n..] + r.page[m..] by {
        assert r.page[n..] == r.page[n..m] + r.page[m..];
        assert r.page[n..m] == mid.page[n..];
      }
      TitlesOfAppend(mid.page[n..], r.page[m..], TextIngredientShape);
      TitlesOfAppend(mid.page[n..], r.page[m..], ImageIngredientShape);
      NumberedAppend(TextPrefix, st.textCount, mid.textCount, r.textCount);
      NumberedAppend(ImagePrefix, st.imageCount, mid.imageCount, r.imageCount);
    }
  }

  /** The `for ... of` over the clipboard items: the file of the first item whose type
      starts with `image/` and that yields a file. */
  method FindImageFile(items: seq<ClipboardItem>) returns (file: Option<string>)
    ensures file == FirstImageFile(items)
  {
    var i := 0;
    while i < |items|
      invariant 0 <= i <= |items|
      invariant FirstImageFile(items) == FirstImageFile(items[i..])
    {
      var item := items[i];
      if StartsWith(item.mimeType, ImageMime) {
        if item.file.Some? {
          return item.file;
        }
      }
      assert items[i..][1..] == items[i + 1..];
      i := i + 1;
    }
    return None;
  }

  /** The handler with its module-level counters and the page it creates cards on. */
  class Handler {
    var imageCount: nat
    var textCount: nat
    var page: seq<Shape>

    /** Module load: both counters start at 0. */
    constructor(page0: seq<Shape>)
      ensures imageCount == 0 && textCount == 0 && page == page0
    {
      imageCount := 0;
      textCount := 0;
      page := page0;
    }

    function State(): PasteState
      reads this
    {
      PasteState(imageCount, textCount, page)
    }

    method AddImageIngredient(dataUrl: string, point: Point, loaded: Option<PositiveDims>, ids: Fresh)
      modifies this
      ensures State() == ImageAdded(old(State()), dataUrl, point, loaded, ids)
    {
      if loaded.None? {
        return;
      }
      var width, height := GetDimensions(loaded.value.width, loaded.value.height);
      imageCount := imageCount + 1;
      var title := ImagePrefix + NatToString(imageCount);
      page := page + [Shape(ids.shapeId, ImageIngredientShape, point.x, point.y,
        Props(Some(title), None, Some(dataUrl), None, Some(width), Some(height)), Meta(None, None))];
    }

    method AddTextIngredient(text: string, point: Point, ids: Fresh)
      modifies this
      ensures State() == TextAdded(old(State()), text, point, ids)
    {
      textCount := textCount + 1;
      var title := TextPrefix + NatToString(textCount);
      page := page + [Shape(ids.shapeId, TextIngredientShape, point.x, point.y,
        Props(Some(title), Some(text), None, None, None, None), Meta(None, None))];
    }

    /** `handleGlobalPaste`: an image file found by the `for ... of` is added and ends the
        handler; otherwise the clipboard text is considered. */
    method HandleGlobalPaste(e: PasteEvent, decode: string -> Option<PositiveDims>)
      modifies this
      ensures State() == Paste(old(State()), e, decode)
    {
      if e.selectedCount > 0 {
        return;
      }
      if e.clipboard.None? {
        return;
      }
      var file := FindImageFile(e.clipboard.value.items);
      if file.Some? {
        AddImageIngredient(file.value, e.point, decode(file.value), e.ids);
        return;
      }
      var text := e.clipboard.value.text;
      if !IsBlank(text) {
        AddTextIngredient(text, e.point, e.ids);
      }
    }
  }
}
