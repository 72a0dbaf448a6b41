/**
 * The two rules of the agent image handler: the default instruction added to a
 * visualisation request without typed text (`callVisualizeApi`), and the image card
 * created for an artifact the agent returns (`addAgentImageOutput`).
 */
module ChatHandler {
  import opened Wrappers
  import opened JsText
  import opened Canvas
  import opened Fit
  import opened Projection
  import opened FormatIngredients

  const DefaultInstruction: string := "visualize this as a web or mobile mockup"
  const AgentTitle: string := "AI Generated"

  /** `apiContentItems.some(item => item.type === 'input_text' && item.text.trim() !== '')`. */
  predicate HasUserInputText(items: seq<ContentItem>) {
    exists k :: 0 <= k < |items| && items[k].InputText? && !IsBlank(items[k].text)
  }

  /** The content items actually sent. */
  function WithDefaultInstruction(items: seq<ContentItem>): seq<ContentItem> {
    if HasUserInputText(items) then items else items + [InputText(DefaultInstruction)]
  }

  /** The request always carries typed text; the given items are kept, in order, as its
      prefix; the instruction is added exactly when no item has non-blank text. */
  lemma WithDefaultInstructionSpec(items: seq<ContentItem>)
    ensures var r := WithDefaultInstruction(items);
      HasUserInputText(r)
      && r[..|items|] == items
      && (r == items <==> HasUserInputText(items))
      && (r != items ==> r == items + [InputText(DefaultInstruction)])
  {
    var r := WithDefaultInstruction(items);
    if !HasUserInputText(items) {
      assert DefaultInstruction[0] == 'v' && !IsWhitespace(DefaultInstruction[0]);
      IsBlankIffAllWhitespace(DefaultInstruction);
      assert r[|items|] == InputText(DefaultInstruction);
      assert |r| != |items|;
    }
  }

  /** Adding the instruction is idempotent: a request that went through the rule once is
      sent unchanged. */
  lemma WithDefaultInstructionIdempotent(items: seq<ContentItem>)
    ensures WithDefaultInstruction(WithDefaultInstruction(items)) == WithDefaultInstruction(items)
  {
    WithDefaultInstructionSpec(items);
  }

  /** The `ImageDesignArtifact` record; `title` and `notes` may be missing in the reply. */
  datatype ImageDesignArtifact = ImageDesignArtifact(title: Option<string>, notes: Option<string>, imageUrl: string)

  /** `artifact.notes?.trim()` is truthy. */
  predicate HasNotes(a: ImageDesignArtifact) {
    a.notes.Some? && !IsBlank(a.notes.value)
  }

  /** The comments of the new card: one AI comment holding the untrimmed notes, if any.
      `commentTime` is the clock reading taken for the comment. */
  function AgentComments(a: ImageDesignArtifact, commentId: string, commentTime: int): seq<Comment> {
    if HasNotes(a) then [Comment(commentId, a.notes.value, commentTime, true)] else []
  }

  /** The record `editor.createShape` receives for an artifact whose image decoded to the
      natural size `natural`. */
  function AgentImageShape(a: ImageDesignArtifact, point: Point, natural: PositiveDims, ids: Fresh, commentTime: int): Shape {
    var dims := FitWithin(natural);
    Shape(ids.shapeId, ImageIngredientShape, point.x, point.y,
      Props(Some(if Truthy(a.title) then a.title.value else AgentTitle), None, Some(a.imageUrl),
        Some(AgentComments(a, ids.commentId, commentTime)), Some(dims.width), Some(dims.height)),
      Meta(Some(true), Some(ids.now)))
  }

  /** The page after `addAgentImageOutput`: the card is added when the image loads; a load
      error is caught and logged, and the page stays as it was. */
  function AddAgentImageOutput(page: seq<Shape>, a: ImageDesignArtifact, point: Point,
                               loaded: Option<PositiveDims>, ids: Fresh, commentTime: int): seq<Shape> {
    match loaded
    case None => page
    case Some(natural) => page + [AgentImageShape(a, point, natural, ids, commentTime)]
  }

  /** The card is an active image ingredient at the given point, created now, titled by the
      artifact or "AI Generated", showing the artifact's image within 600 x 600 at its own
      aspect ratio, with an AI comment exactly when the notes are not blank. */
  lemma AgentImageShapeSpec(a: ImageDesignArtifact, point: Point, natural: PositiveDims, ids: Fresh, commentTime: int)
    ensures var s := AgentImageShape(a, point, natural, ids, commentTime);
      && IsActiveIngredient(s) && s.kind == ImageIngredientShape
      && s.x == point.x && s.y == point.y && s.meta.createdAt == Some(ids.now)
      && TitleOf(s.props) == (if Truthy(a.title) then a.title.value else AgentTitle)
      && s.props.imageUrl == Some(a.imageUrl)
      && s.props.w.Some? && s.props.h.Some?
      && 0.0 < s.props.w.value <= MaxWidth && 0.0 < s.props.h.value <= MaxHeight
      && s.props.w.value * natural.height == s.props.h.value * natural.width
      && (|CommentsOf(s.props)| == 1 <==> HasNotes(a))
      && (|CommentsOf(s.props)| != 1 ==> CommentsOf(s.props) == [])
      && (HasNotes(a) ==> CommentsOf(s.props)[0] == Comment(ids.commentId, a.notes.value, commentTime, true))
  {
    FitWithinSpec(natural);
  }

  /** A created card is active, so the next request to the agent and the next clipboard copy
      carry it, after the ingredients already on the page. */
  lemma AgentImageIsSent(page: seq<Shape>, a: ImageDesignArtifact, point: Point, natural: PositiveDims, ids: Fresh, commentTime: int)
    ensures var s := AgentImageShape(a, point, natural, ids, commentTime);
      ActiveIngredientShapes(AddAgentImageOutput(page, a, point, Some(natural), ids, commentTime))
        == ActiveIngredientShapes(page) + [s]
  {
    var s := AgentImageShape(a, point, natural, ids, commentTime);
    ActiveIngredientShapesAppend(page, [s]);
    assert ActiveIngredientShapes([s]) == [s];
  }
}
