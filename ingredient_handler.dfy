/**
 * The summarising ingredient creators (`ingredientHandler.ts`): a new image or text card
 * takes its title and first comment from the summary service, or is titled "Error" when
 * the summary fails.  The summary call is an input: a `Result` of the service.
 */
module IngredientHandler {
  import opened Wrappers
  import opened Canvas
  import opened Fit
  import opened Projection
  import opened FormatIngredients

  const ErrorTitle: string := "Error"

  /** What the summary service returns: a title and a description. */
  datatype Summary = Summary(title: string, description: string)

  /** The props of a new card: the summary's title and one AI comment with its description
      on success; the title "Error" and no comments on failure. The other props come from
      `base`. */
  function SummaryProps(base: Props, summary: Result<Summary>, commentId: string, now: int): Props {
    match summary
    case Success(sm) => base.(title := Some(sm.title), comments := Some([Comment(commentId, sm.description, now, true)]))
    case Failure(_) => base.(title := Some(ErrorTitle), comments := None)
  }

  /** `addImageIngredient` once the image has decoded to `natural`. */
  function ImageIngredientShape(dataUrl: string, point: Point, natural: PositiveDims,
                                summary: Result<Summary>, ids: Fresh): Shape {
    var dims := FitWithin(natural);
    var base := Props(None, None, Some(dataUrl), None, Some(dims.width), Some(dims.height));
    Shape(ids.shapeId, Canvas.ImageIngredientShape, point.x, point.y,
      SummaryProps(base, summary, ids.commentId, ids.now), Meta(None, None))
  }

  /** The page after `addImageIngredient`: nothing happens until the image loads. */
  function AddImageIngredient(page: seq<Shape>, dataUrl: string, point: Point, loaded: Option<PositiveDims>,
                              summary: Result<Summary>, ids: Fresh): seq<Shape> {
    match loaded
    case None => page
    case Some(natural) => page + [ImageIngredientShape(dataUrl, point, natural, summary, ids)]
  }

  /** The card `addTextIngredient` creates. */
  function TextIngredientShape(text: string, point: Point, summary: Result<Summary>, ids: Fresh): Shape {
    var base := Props(None, Some(text), None, None, None, None);
    Shape(ids.shapeId, Canvas.TextIngredientShape, point.x, point.y,
      SummaryProps(base, summary, ids.commentId, ids.now), Meta(None, None))
  }

  function AddTextIngredient(page: seq<Shape>, text: string, point: Point, summary: Result<Summary>, ids: Fresh): seq<Shape> {
    page + [TextIngredientShape(text, point, summary, ids)]
  }

  /** Both outcomes: the title and the comments follow the summary; the position, the text
      or image and the size follow the inputs; the card is an ingredient that is not
      active. */
  lemma SummaryPropsSpec(base: Props, summary: Result<Summary>, commentId: string, now: int)
    ensures var p := SummaryProps(base, summary, commentId, now);
      && (summary.Success? ==>
            p.title == Some(summary.value.title)
            && p.comments == Some([Comment(commentId, summary.value.description, now, true)]))
      && (summary.Failure? ==> p.title == Some(ErrorTitle) && p.comments == None && CommentsOf(p) == [])
      && p.text == base.text && p.imageUrl == base.imageUrl && p.w == base.w && p.h == base.h
  {
  }

  lemma ImageIngredientShapeSpec(dataUrl: string, point: Point, natural: PositiveDims,
                                 summary: Result<Summary>, ids: Fresh)
    ensures var s := ImageIngredientShape(dataUrl, point, natural, summary, ids);
      && s.kind == Canvas.ImageIngredientShape && IsIngredient(s) && !IsActiveIngredient(s)
      && s.x == point.x && s.y == point.y && s.props.imageUrl == Some(dataUrl)
      && s.props.w.Some? && s.props.h.Some?
      && 0.0 < s.props.w.value <= MaxWidth && 0.0 < s.props.h.value <= MaxHeight
      && s.props.w.value * natural.height == s.props.h.value * natural.width
      && (summary.Success? <==> |CommentsOf(s.props)| == 1)
  {
    FitWithinSpec(natural);
  }

  lemma TextIngredientShapeSpec(text: string, point: Point, summary: Result<Summary>, ids: Fresh)
    ensures var s := TextIngredientShape(text, point, summary, ids);
      && s.kind == Canvas.TextIngredientShape && IsIngredient(s) && !IsActiveIngredient(s)
      && s.x == point.x && s.y == point.y && s.props.text == Some(text)
      && (summary.Success? <==> |CommentsOf(s.props)| == 1)
  {
  }

  /** Neither creator sets `meta.isActive`, so until the card is toggled on it is not sent to
      the agent and not copied to the clipboard. */
  lemma NewIngredientsAreInactive(page: seq<Shape>, text: string, dataUrl: string, point: Point,
                                  loaded: Option<PositiveDims>, summary: Result<Summary>, ids: Fresh)
    ensures LlmItems(AddTextIngredient(page, text, point, summary, ids)) == LlmItems(page)
    ensures LlmItems(AddImageIngredient(page, dataUrl, point, loaded, summary, ids)) == LlmItems(page)
    ensures ClipboardText(AddTextIngredient(page, text, point, summary, ids)) == ClipboardText(page)
    ensures ClipboardText(AddImageIngredient(page, dataUrl, point, loaded, summary, ids)) == ClipboardText(page)
  {
    InactiveShapeIgnored(page, TextIngredientShape(text, point, summary, ids));
    if loaded.Some? {
      InactiveShapeIgnored(page, ImageIngredientShape(dataUrl, point, loaded.value, summary, ids));
    }
  }
}
