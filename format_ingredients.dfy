/**
 * The serialisers of the active ingredients: the content list sent to the agent
 * (`formatIngredientsForLLM`) and the Markdown text copied to the clipboard
 * (`formatIngredientsForClipboard`).
 */
module FormatIngredients {
  import opened Wrappers
  import opened JsText
  import opened Canvas
  import opened Projection

  /** An item of the agent's content list: `input_text` or `input_image`. */
  datatype ContentItem = InputText(text: string) | InputImage(imageUrl: string, detail: string)

  const Preamble: string := "Here are the ingredients in the workspace:"
  const ImageDetail: string := "auto"
  const LlmAiTag: string := " (AI)"
  const ClipboardHeader: string := "# Ingredients in the workspace\n\n"
  const ClipboardAiTag: string := " _(AI)_"
  const Separator: string := "\n---\n\n"

  /** `props.title || 'Untitled'`. */
  function TitleOf(p: Props): (r: string)
    ensures r != ""
    ensures Truthy(p.title) ==> r == p.title.value
    ensures !Truthy(p.title) ==> r == "Untitled"
  {
    if Truthy(p.title) then p.title.value else "Untitled"
  }

  /** `props.comments || []`. */
  function CommentsOf(p: Props): seq<Comment> {
    p.comments.GetOr([])
  }

  /** `comments.map((c, i) => `${i + 1}. ${c.text}${c.isAI ? tag : ''}`)`, numbering from `first`. */
  function NumberedComments(cs: seq<Comment>, first: nat, aiTag: string): (r: seq<string>)
    ensures |r| == |cs|
    ensures forall i :: 0 <= i < |cs| ==>
      r[i] == NatToString(first + i) + ". " + cs[i].text + (if cs[i].isAI then aiTag else "")
  {
    if cs == [] then []
    else [NatToString(first) + ". " + cs[0].text + (if cs[0].isAI then aiTag else "")]
         + NumberedComments(cs[1..], first + 1, aiTag)
  }

  /** The comment block of an agent item: empty without comments. */
  function LlmCommentText(cs: seq<Comment>): (r: string)
    ensures r == "" <==> cs == []
    ensures cs != [] ==> StartsWith(r, "\nComments:\n")
  {
    if |cs| > 0 then "\nComments:\n" + JoinWith(NumberedComments(cs, 1, LlmAiTag), "\n") else ""
  }

  /** The items one active ingredient contributes. */
  function ShapeItems(s: Shape): seq<ContentItem> {
    var title := TitleOf(s.props);
    var commentText := LlmCommentText(CommentsOf(s.props));
    if s.kind == TextIngredientShape then
      [InputText("Ingredient: " + title + "\nContent: " + OrEmpty(s.props.text) + commentText)]
    else if s.kind == ImageIngredientShape && Truthy(s.props.imageUrl) then
      [InputText("Ingredient: " + title + commentText), InputImage(s.props.imageUrl.value, ImageDetail)]
    else []
  }

  /** The items of a list of ingredients, concatenated in order. */
  function ItemsOf(shapes: seq<Shape>): seq<ContentItem> {
    if shapes == [] then [] else ItemsOf(shapes[..|shapes| - 1]) + ShapeItems(shapes[|shapes| - 1])
  }

  lemma ItemsOfPrefix(shapes: seq<Shape>, i: nat)
    requires i < |shapes|
    ensures ItemsOf(shapes[..i + 1]) == ItemsOf(shapes[..i]) + ShapeItems(shapes[i])
  {
    assert shapes[..i + 1][..i] == shapes[..i];
  }

  /** The content list `formatIngredientsForLLM` returns for a page. */
  function LlmItems(page: seq<Shape>): seq<ContentItem> {
    var active := ActiveIngredientShapes(page);
    if |active| > 0 then [InputText(Preamble)] + ItemsOf(active) else []
  }

  method FormatIngredientsForLLM(shapes: seq<Shape>) returns (contentItems: seq<ContentItem>)
    ensures contentItems == LlmItems(shapes)
  {
    var ingredientShapes := ActiveIngredientShapes(shapes);
    contentItems := [];
    if |ingredientShapes| > 0 {
      contentItems := contentItems + [InputText(Preamble)];
    }
    contentItems := PushAllItems(contentItems, ingredientShapes);
    if |ingredientShapes| == 0 {
      assert ItemsOf(ingredientShapes) == [];
    }
  }

  /** The `for` loop over the active ingredients. */
  method PushAllItems(items: seq<ContentItem>, ingredientShapes: seq<Shape>) returns (r: seq<ContentItem>)
    ensures r == items + ItemsOf(ingredientShapes)
  {
    r := items;
    var i := 0;
    while i < |ingredientShapes|
      invariant 0 <= i <= |ingredientShapes|
      invariant r == items + ItemsOf(ingredientShapes[..i])
    {
      var shape := ingredientShapes[i];
      r := PushShapeItems(r, shape);
      ItemsOfPrefix(ingredientShapes, i);
      ConcatAssoc(items, ItemsOf(ingredientShapes[..i]), ShapeItems(shape));
      i := i + 1;
    }
    assert ingredientShapes[..i] == ingredientShapes;
  }

  /** One iteration of the loop: push the items of `shape`. */
  method PushShapeItems(items: seq<ContentItem>, shape: Shape) returns (r: seq<ContentItem>)
    ensures r == items + ShapeItems(shape)
  {
    r := items;
    var title := TitleOf(shape.props);
    var commentText := LlmCommentText(CommentsOf(shape.props));
    if shape.kind == TextIngredientShape {
      r := r + [InputText("Ingredient: " + title + "\nContent: " + OrEmpty(shape.props.text) + commentText)];
    } else if shape.kind == ImageIngredientShape && Truthy(shape.props.imageUrl) {
      r := r + [InputText("Ingredient: " + title + commentText)];
      r := r + [InputImage(shape.props.imageUrl.value, ImageDetail)];
    }
  }

  /** The list is empty exactly when no shape of the page is an active ingredient, and
      otherwise opens with the preamble. */
  lemma LlmItemsEmptyIff(page: seq<Shape>)
    ensures LlmItems(page) == [] <==> forall s :: s in page ==> !IsActiveIngredient(s)
    ensures LlmItems(page) != [] ==> LlmItems(page)[0] == InputText(Preamble)
  {
    var active := ActiveIngredientShapes(page);
    ActiveIngredientShapesMembers(page);
    if |active| > 0 {
      assert active[0] in active;
    }
  }

  function CountText(shapes: seq<Shape>): nat {
    if shapes == [] then 0
    else CountText(shapes[..|shapes| - 1]) + (if shapes[|shapes| - 1].kind == TextIngredientShape then 1 else 0)
  }

  function CountImagesWithUrl(shapes: seq<Shape>): nat {
    if shapes == [] then 0
    else
      var last := shapes[|shapes| - 1];
      CountImagesWithUrl(shapes[..|shapes| - 1])
      + (if last.kind == ImageIngredientShape && Truthy(last.props.imageUrl) then 1 else 0)
  }

  lemma {:induction false} ItemsOfLength(shapes: seq<Shape>)
    ensures |ItemsOf(shapes)| == CountText(shapes) + 2 * CountImagesWithUrl(shapes)
  {
    if shapes != [] {
      ItemsOfLength(shapes[..|shapes| - 1]);
    }
  }

  /** The length is 0, or 1 + (text ingredients) + 2 * (image ingredients with a URL). */
  lemma LlmItemsLength(page: seq<Shape>)
    ensures var active := ActiveIngredientShapes(page);
      |LlmItems(page)| == if active == [] then 0 else 1 + CountText(active) + 2 * CountImagesWithUrl(active)
  {
    ItemsOfLength(ActiveIngredientShapes(page));
  }

  lemma {:induction false} ItemsOfImages(shapes: seq<Shape>)
    ensures forall k :: 0 <= k < |ItemsOf(shapes)| && ItemsOf(shapes)[k].InputImage? ==>
      ItemsOf(shapes)[k].detail == ImageDetail && ItemsOf(shapes)[k].imageUrl != ""
  {
    if shapes != [] {
      ItemsOfImages(shapes[..|shapes| - 1]);
    }
  }

  /** Every image item carries `detail: 'auto'` and a non-empty URL. */
  lemma LlmImagesAreAuto(page: seq<Shape>)
    ensures forall item :: item in LlmItems(page) && item.InputImage? ==> item.detail == "auto" && item.imageUrl != ""
  {
    var active := ActiveIngredientShapes(page);
    ItemsOfImages(active);
    if |active| > 0 {
      forall item | item in LlmItems(page) && item.InputImage?
        ensures item.detail == "auto" && item.imageUrl != ""
      {
        var k :| 0 <= k < |LlmItems(page)| && LlmItems(page)[k] == item;
        assert ItemsOf(active)[k - 1] == item;
      }
    }
  }

  /** A shape that is not an active ingredient contributes nothing. */
  lemma InactiveShapeIgnored(page: seq<Shape>, s: Shape)
    requires !IsActiveIngredient(s)
    ensures LlmItems(page + [s]) == LlmItems(page)
    ensures ClipboardText(page + [s]) == ClipboardText(page)
  {
    ActiveIngredientShapesAppend(page, [s]);
    assert ActiveIngredientShapes([s]) == [];
    assert ActiveIngredientShapes(page + [s]) == ActiveIngredientShapes(page);
  }

  /** The clipboard comment block: empty without comments. */
  function ClipboardCommentText(cs: seq<Comment>): (r: string)
    ensures r == "" <==> cs == []
  {
    if |cs| > 0 then "\n" + JoinWith(NumberedComments(cs, 1, ClipboardAiTag), "\n") else ""
  }

  /** The Markdown block of one active ingredient. */
  function ClipboardBlock(s: Shape): string {
    var title := TitleOf(s.props);
    var commentText := ClipboardCommentText(CommentsOf(s.props));
    if s.kind == TextIngredientShape then
      "# " + title + "\n" + (if Truthy(s.props.text) then "Content: " + s.props.text.value + "\n" else "")
      + commentText + Separator
    else if s.kind == ImageIngredientShape && Truthy(s.props.imageUrl) then
      "# " + title + "\n![" + title + "](" + s.props.imageUrl.value + ")\n" + commentText + Separator
    else ""
  }

  /** A block is empty exactly when the ingredient is neither text nor an image with a
      URL; otherwise it opens with the heading `# {title}` and closes with the separator. */
  lemma ClipboardBlockShape(s: Shape)
    ensures var r := ClipboardBlock(s);
      (r == "" <==> !(s.kind == TextIngredientShape || (s.kind == ImageIngredientShape && Truthy(s.props.imageUrl))))
      && (r != "" ==> StartsWith(r, "# " + TitleOf(s.props) + "\n") && EndsWith(r, Separator))
  {
    var title := TitleOf(s.props);
    var commentText := ClipboardCommentText(CommentsOf(s.props));
    if s.kind == TextIngredientShape {
      var content := if Truthy(s.props.text) then "Content: " + s.props.text.value + "\n" else "";
      TextBlockSplit(title, content, commentText);
      Framed("# " + title + "\n", content + commentText);
    } else if s.kind == ImageIngredientShape && Truthy(s.props.imageUrl) {
      ImageBlockSplit(title, s.props.imageUrl.value, commentText);
      Framed("# " + title + "\n", "![" + title + "](" + s.props.imageUrl.value + ")\n" + commentText);
    }
  }

  lemma TextBlockSplit(title: string, content: string, commentText: string)
    ensures "# " + title + "\n" + content + commentText + Separator
         == ("# " + title + "\n") + (content + commentText) + Separator
  {
  }

  lemma ImageBlockSplit(title: string, url: string, commentText: string)
    ensures "# " + title + "\n![" + title + "](" + url + ")\n" + commentText + Separator
         == ("# " + title + "\n") + ("![" + title + "](" + url + ")\n" + commentText) + Separator
  {
  }

  /** A heading, a body and the separator: the block opens with the heading and closes
      with the separator. */
  lemma Framed(heading: string, body: string)
    ensures StartsWith(heading + body + Separator, heading) && EndsWith(heading + body + Separator, Separator)
  {
    assert (heading + body + Separator)[..|heading|] == heading;
    assert (heading + body + Separator)[|heading + body|..] == Separator;
  }

  function BlocksOf(shapes: seq<Shape>): string {
    if shapes == [] then "" else BlocksOf(shapes[..|shapes| - 1]) + ClipboardBlock(shapes[|shapes| - 1])
  }

  lemma BlocksOfPrefix(shapes: seq<Shape>, i: nat)
    requires i < |shapes|
    ensures BlocksOf(shapes[..i + 1]) == BlocksOf(shapes[..i]) + ClipboardBlock(shapes[i])
  {
    assert shapes[..i + 1][..i] == shapes[..i];
  }

  /** The Markdown text `formatIngredientsForClipboard` returns for a page. */
  function ClipboardText(page: seq<Shape>): string {
    ClipboardHeader + BlocksOf(ActiveIngredientShapes(page))
  }

  method FormatIngredientsForClipboard(shapes: seq<Shape>) returns (formattedText: string)
    ensures formattedText == ClipboardText(shapes)
  {
    var ingredientShapes := ActiveIngredientShapes(shapes);
    formattedText := ClipboardHeader;
    var i := 0;
    while i < |ingredientShapes|
      invariant 0 <= i <= |ingredientShapes|
      invariant formattedText == ClipboardHeader + BlocksOf(ingredientShapes[..i])
    {
      var shape := ingredientShapes[i];
      formattedText := AppendBlock(formattedText, shape);
      BlocksOfPrefix(ingredientShapes, i);
      ConcatAssoc(ClipboardHeader, BlocksOf(ingredientShapes[..i]), ClipboardBlock(shape));
      i := i + 1;
    }
    assert ingredientShapes[..i] == ingredientShapes;
  }

  /** One iteration of the loop: `formattedText += ...` for `shape`. */
  method AppendBlock(text: string, shape: Shape) returns (r: string)
    ensures r == text + ClipboardBlock(shape)
  {
    r := text;
    var title := TitleOf(shape.props);
    var commentText := ClipboardCommentText(CommentsOf(shape.props));
    if shape.kind == TextIngredientShape {
      var content := if Truthy(shape.props.text) then "Content: " + shape.props.text.value + "\n" else "";
      r := r + ("# " + title + "\n" + content + commentText + Separator);
    } else if shape.kind == ImageIngredientShape && Truthy(shape.props.imageUrl) {
      r := r + ("# " + title + "\n![" + title + "](" + shape.props.imageUrl.value + ")\n" + commentText + Separator);
    }
  }

  lemma {:induction false} BlocksOfEnd(shapes: seq<Shape>)
    ensures BlocksOf(shapes) == "" || EndsWith(BlocksOf(shapes), Separator)
  {
    if shapes != [] {
      BlocksOfEnd(shapes[..|shapes| - 1]);
      var prev := BlocksOf(shapes[..|shapes| - 1]);
      var b := ClipboardBlock(shapes[|shapes| - 1]);
      ClipboardBlockShape(shapes[|shapes| - 1]);
      if b == "" {
        assert prev + b == prev;
      } else {
        EndsWithAppend(prev, b, Separator);
      }
    }
  }

  /** The clipboard text always opens with the heading, is exactly the heading when no
      ingredient is active, and otherwise ends with the block separator of the last block. */
  lemma ClipboardShape(page: seq<Shape>)
    ensures StartsWith(ClipboardText(page), ClipboardHeader)
    ensures ActiveIngredientShapes(page) == [] ==> ClipboardText(page) == ClipboardHeader
    ensures ClipboardText(page) == ClipboardHeader || EndsWith(ClipboardText(page), Separator)
  {
    var b := BlocksOf(ActiveIngredientShapes(page));
    BlocksOfEnd(ActiveIngredientShapes(page));
    assert StartsWith(ClipboardHeader, ClipboardHeader);
    StartsWithAppend(ClipboardHeader, b, ClipboardHeader);
    if b != "" {
      EndsWithAppend(ClipboardHeader, b, Separator);
    }
  }
}
