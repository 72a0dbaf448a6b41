/**
 * `handleSubmit` of the agent chat (`Chat/ChatPanel.tsx`): the guard, the request sent to
 * the agent, the user message and the streaming placeholder, the fold of the agent's
 * events over the message list (with the canvas cards a visualization adds), the apology
 * when the stream fails, and the loading flag.  The stream itself, the cursor position
 * and the image loads are inputs.
 */
module ChatPanel {
  import opened Wrappers
  import opened JsText
  import opened Canvas
  import opened Fit
  import opened FormatIngredients
  import opened ChatHandler
  import opened ChatMessages

  /** The horizontal step between the cards of one visualization. */
  const ArtifactSpacing: real := 620.0

  /** The content of one input message of the request. */
  datatype RequestContent = Items(items: seq<ContentItem>) | ArtifactList(artifacts: seq<ImageDesignArtifact>)

  datatype RequestMessage = RequestMessage(role: Role, content: RequestContent)

  /** An earlier message as the request carries it: text wrapped in one `input_text` item,
      an artifact list passed through. */
  function FormatPrevious(m: Message): RequestMessage {
    match m.content
    case Text(s) => RequestMessage(m.role, Items([InputText(s)]))
    case Artifacts(a) => RequestMessage(m.role, ArtifactList(a))
  }

  function FormatAll(msgs: seq<Message>): (r: seq<RequestMessage>)
    ensures |r| == |msgs|
    ensures forall k :: 0 <= k < |msgs| ==> r[k] == FormatPrevious(msgs[k])
  {
    if msgs == [] then [] else FormatAll(msgs[..|msgs| - 1]) + [FormatPrevious(msgs[|msgs| - 1])]
  }

  /** `requestBody.input`: the new user message first, then the earlier ones. */
  function BuildRequest(msgs: seq<Message>, ingredients: seq<ContentItem>, input: string): seq<RequestMessage> {
    [RequestMessage(User, Items(ingredients + [InputText(input)]))] + FormatAll(msgs)
  }

  /** The request opens with the ingredient items and the typed text as its last item, and
      carries every earlier message after it, in order and with its role, its text or its
      artifacts. */
  lemma BuildRequestSpec(msgs: seq<Message>, ingredients: seq<ContentItem>, input: string)
    ensures var r := BuildRequest(msgs, ingredients, input);
      && |r| == |msgs| + 1
      && r[0].role == User && r[0].content.Items?
      && r[0].content.items[..|ingredients|] == ingredients
      && |r[0].content.items| == |ingredients| + 1
      && r[0].content.items[|ingredients|] == InputText(input)
      && (forall k :: 0 <= k < |msgs| ==> r[k + 1].role == msgs[k].role)
      && (forall k :: 0 <= k < |msgs| && msgs[k].content.Text? ==>
            r[k + 1].content == Items([InputText(msgs[k].content.s)]))
      && (forall k :: 0 <= k < |msgs| && msgs[k].content.Artifacts? ==>
            r[k + 1].content == ArtifactList(msgs[k].content.items))
  {
  }

  /** What the page gives to one artifact: its image load and the fresh values of its card. */
  datatype Placement = Placement(loaded: Option<PositiveDims>, ids: Fresh, commentTime: int)

  /** The page after the first `n` artifacts, the `k`-th one placed `620 * k` to the right of
      the base point. */
  function PlacedPage(page: seq<Shape>, artifacts: seq<ImageDesignArtifact>, placements: seq<Placement>,
                      base: Point, n: nat): seq<Shape>
    requires n <= |artifacts| == |placements|
  {
    if n == 0 then page
    else
      var p := placements[n - 1];
      AddAgentImageOutput(PlacedPage(page, artifacts, placements, base, n - 1), artifacts[n - 1],
        Point(base.x + ArtifactSpacing * (n - 1) as real, base.y), p.loaded, p.ids, p.commentTime)
  }

  /** How many of the first `n` images load. */
  function LoadedCount(placements: seq<Placement>, n: nat): nat
    requires n <= |placements|
  {
    if n == 0 then 0 else LoadedCount(placements, n - 1) + (if placements[n - 1].loaded.Some? then 1 else 0)
  }

  /** At most one card per artifact, and one per artifact exactly when every image loads. */
  lemma {:induction false} LoadedCountSpec(placements: seq<Placement>, n: nat)
    requires n <= |placements|
    ensures LoadedCount(placements, n) <= n
    ensures LoadedCount(placements, n) == n <==> forall k :: 0 <= k < n ==> placements[k].loaded.Some?
  {
    if n > 0 {
      LoadedCountSpec(placements, n - 1);
    }
  }

  /** The page keeps its shapes and gains one card per image that loads. */
  lemma {:induction false} PlacedPageGrows(page: seq<Shape>, artifacts: seq<ImageDesignArtifact>, placements: seq<Placement>,
                                           base: Point, n: nat)
    requires n <= |artifacts| == |placements|
    ensures var r := PlacedPage(page, artifacts, placements, base, n);
      |r| == |page| + LoadedCount(placements, n) && r[..|page|] == page
  {
    if n > 0 {
      PlacedPageGrows(page, artifacts, placements, base, n - 1);
      var prev := PlacedPage(page, artifacts, placements, base, n - 1);
      var r := PlacedPage(page, artifacts, placements, base, n);
      assert r[..|prev|] == prev;
      assert r[..|page|] == prev[..|page|];
    }
  }

  /** The card placed for the `k`-th artifact once its image loads. */
  function PlacedCard(artifacts: seq<ImageDesignArtifact>, placements: seq<Placement>, base: Point, k: nat): Shape
    requires k < |artifacts| == |placements| && placements[k].loaded.Some?
  {
    AgentImageShape(artifacts[k], Point(base.x + ArtifactSpacing * k as real, base.y),
      placements[k].loaded.value, placements[k].ids, placements[k].commentTime)
  }

  /** One more artifact whose image loads adds its card at the end. */
  lemma PlacedPageStep(page: seq<Shape>, artifacts: seq<ImageDesignArtifact>, placements: seq<Placement>,
                       base: Point, n: nat)
    requires 0 < n <= |artifacts| == |placements| && placements[n - 1].loaded.Some?
    ensures PlacedPage(page, artifacts, placements, base, n)
      == PlacedPage(page, artifacts, placements, base, n - 1) + [PlacedCard(artifacts, placements, base, n - 1)]
  {
  }

  /** When every image loads there is one card per artifact, in order, the `k`-th at
      `x + 620 * k`. */
  lemma {:induction false} PlacedPageAllLoaded(page: seq<Shape>, artifacts: seq<ImageDesignArtifact>, placements: seq<Placement>,
                                               base: Point, n: nat)
    requires n <= |artifacts| == |placements|
    requires forall k :: 0 <= k < n ==> placements[k].loaded.Some?
    ensures var r := PlacedPage(page, artifacts, placements, base, n);
      && |r| == |page| + n
      && forall k :: 0 <= k < n ==> r[|page| + k] == PlacedCard(artifacts, placements, base, k)
  {
    if n > 0 {
      PlacedPageAllLoaded(page, artifacts, placements, base, n - 1);
      PlacedPageStep(page, artifacts, placements, base, n);
      var prev := PlacedPage(page, artifacts, placements, base, n - 1);
      var r := PlacedPage(page, artifacts, placements, base, n);
      forall k | 0 <= k < n
        ensures r[|page| + k] == PlacedCard(artifacts, placements, base, k)
      {
        if k < n - 1 {
          assert r[|page| + k] == prev[|page| + k];
        }
      }
    }
  }

  /** The `k`-th card is the agent's card for the `k`-th artifact, `620 * k` to the right of
      the base point and level with it. */
  lemma PlacedCardSpec(artifacts: seq<ImageDesignArtifact>, placements: seq<Placement>, base: Point, k: nat)
    requires k < |artifacts| == |placements| && placements[k].loaded.Some?
    ensures var s := PlacedCard(artifacts, placements, base, k);
      && s.x == base.x + ArtifactSpacing * k as real && s.y == base.y
      && IsActiveIngredient(s) && s.props.imageUrl == Some(artifacts[k].imageUrl)
  {
  }

  /** What the page supplies at one event: the cursor position and, for a visualization,
      one placement per artifact. */
  datatype CanvasInput = CanvasInput(base: Point, placements: seq<Placement>)

  predicate Fits(e: ChatEvent, env: CanvasInput) {
    e.ToolOutput? && e.output.Some? ==> |env.placements| == |e.output.value|
  }

  predicate AllFit(events: seq<ChatEvent>, envs: seq<CanvasInput>) {
    |events| == |envs| && forall k :: 0 <= k < |events| ==> Fits(events[k], envs[k])
  }

  /** The page after one event: only an array payload adds cards. */
  function PageAfter(page: seq<Shape>, e: ChatEvent, env: CanvasInput): seq<Shape>
    requires Fits(e, env)
  {
    if e.ToolOutput? && e.output.Some? then
      PlacedPage(page, e.output.value, env.placements, env.base, |e.output.value|)
    else page
  }

  function PageAfterAll(page: seq<Shape>, events: seq<ChatEvent>, envs: seq<CanvasInput>): seq<Shape>
    requires AllFit(events, envs)
  {
    if events == [] then page
    else
      var n := |events| - 1;
      assert AllFit(events[..n], envs[..n]) by {
        assert forall k :: 0 <= k < n ==> events[..n][k] == events[k] && envs[..n][k] == envs[k];
      }
      PageAfter(PageAfterAll(page, events[..n], envs[..n]), events[n], envs[n])
  }

  /** The backward scan of the event handlers. */
  method FindLast(msgs: seq<Message>, textOnly: bool) returns (i: int)
    ensures i == LastTarget(msgs, textOnly)
  {
    i := |msgs| - 1;
    while i >= 0 && !IsTarget(msgs[i], textOnly)
      invariant -1 <= i < |msgs|
      invariant forall k :: i < k < |msgs| ==> !IsTarget(msgs[k], textOnly)
      decreases i + 1
    {
      i := i - 1;
    }
  }

  /** `for (const artifact of artifacts)`: each card is placed 620 further right than the
      previous artifact, whether or not that one's image loaded. */
  method PlaceArtifacts(page0: seq<Shape>, artifacts: seq<ImageDesignArtifact>, placements: seq<Placement>, base: Point)
    returns (page: seq<Shape>)
    requires |artifacts| == |placements|
    ensures page == PlacedPage(page0, artifacts, placements, base, |artifacts|)
  {
    page := page0;
    var currentX := base.x;
    for k := 0 to |artifacts|
      invariant currentX == base.x + ArtifactSpacing * k as real
      invariant page == PlacedPage(page0, artifacts, placements, base, k)
    {
      var p := placements[k];
      page := AddAgentImageOutput(page, artifacts[k], Point(currentX, base.y), p.loaded, p.ids, p.commentTime);
      currentX := currentX + ArtifactSpacing;
    }
  }

  /** User messages hold the text that was typed. */
  predicate UsersHoldText(msgs: seq<Message>) {
    forall k :: 0 <= k < |msgs| && msgs[k].role == User ==> msgs[k].content.Text?
  }

  lemma UsersHoldTextAppend(a: seq<Message>, b: seq<Message>)
    requires UsersHoldText(a) && UsersHoldText(b)
    ensures UsersHoldText(a + b)
  {
    assert forall k :: |a| <= k < |a + b| ==> (a + b)[k] == b[k - |a|];
  }

  /** The events never turn a user message into anything else, and add only assistant
      messages, so user messages keep holding text. */
  lemma FoldKeepsUsersHoldText(msgs: seq<Message>, events: seq<ChatEvent>)
    requires UsersHoldText(msgs)
    ensures UsersHoldText(Fold(msgs, events))
  {
    FoldFrame(msgs, events);
    FoldAddsAssistants(msgs, events);
  }

  class Panel {
    var messages: seq<Message>
    var input: string
    var isLoading: bool
    /** The shapes of the editor's current page. */
    var page: seq<Shape>

    /** User messages hold the text that was typed. */
    predicate Valid()
      reads this
    {
      UsersHoldText(messages)
    }

    constructor(page0: seq<Shape>)
      ensures messages == [] && input == "" && !isLoading && page == page0
      ensures Valid()
    {
      messages := [];
      input := "";
      isLoading := false;
      page := page0;
    }

    /** The text box changes. */
    method SetInput(text: string)
      modifies this
      ensures input == text
      ensures messages == old(messages) && isLoading == old(isLoading) && page == old(page)
    {
      input := text;
    }

    /** The part of `handleSubmit` before the stream opens: returns the request, or `None`
        when the text is blank or a reply is still loading, and then nothing changes. */
    method Submit() returns (request: Option<seq<RequestMessage>>)
      requires Valid()
      modifies this
      ensures Valid() && page == old(page)
      ensures IsBlank(old(input)) || old(isLoading) ==>
        request == None && messages == old(messages) && input == old(input) && isLoading == old(isLoading)
      ensures !IsBlank(old(input)) && !old(isLoading) ==>
        && request == Some(BuildRequest(old(messages), LlmItems(page), old(input)))
        && messages == old(messages) + [UserMessage(old(input)), Placeholder]
        && input == "" && isLoading
    {
      if IsBlank(input) || isLoading {
        return None;
      }
      var sent := Accept();
      request := Some(sent);
    }

    /** The accepted submission: the request from the ingredient items, the typed text and
        the earlier messages; then the user message and the placeholder are shown. */
    method Accept() returns (request: seq<RequestMessage>)
      requires Valid()
      modifies this
      ensures Valid() && page == old(page)
      ensures request == BuildRequest(old(messages), LlmItems(page), old(input))
      ensures messages == old(messages) + [UserMessage(old(input)), Placeholder]
      ensures input == "" && isLoading
    {
      var ingredients := FormatIngredientsForLLM(page);
      var typed := input;
      request := BuildRequest(messages, ingredients, typed);
      var withUser := messages + [UserMessage(typed)];
      var withPlaceholder := withUser + [Placeholder];
      UsersHoldTextAppend(messages, [UserMessage(typed), Placeholder]);
      assert withPlaceholder == messages + [UserMessage(typed), Placeholder];
      messages := withPlaceholder;
      input := "";
      isLoading := true;
    }

    /** One event of the stream: messages follow `Step`, and an array payload first puts
        its cards on the page. */
    method HandleEvent(e: ChatEvent, env: CanvasInput)
      requires Fits(e, env)
      modifies this
      ensures messages == Step(old(messages), e) && page == PageAfter(old(page), e, env)
      ensures input == old(input) && isLoading == old(isLoading)
    {
      match e {
        case Delta(c) =>
          var i := FindLast(messages, false);
          if i >= 0 {
            messages := messages[i := messages[i].(content := Text(AsString(messages[i].content) + OrEmpty(c)))];
          } else {
            messages := messages + [Message(Assistant, Text(OrEmpty(c)), None, true)];
          }
        case ToolCall(c) =>
          if Truthy(c) {
            messages := messages + [Message(Assistant, Text(c.value), Some(ToolCallKind), false)];
          }
        case AgentUpdate(c) =>
          if Truthy(c) {
            messages := messages + [Message(Assistant, Text(c.value), Some(AgentUpdateKind), false)];
          }
        case ToolOutput(output, c) =>
          if output.Some? {
            var artifacts := output.value;
            page := PlaceArtifacts(page, artifacts, env.placements, env.base);
            var i := FindLast(messages, false);
            if i >= 0 {
              messages := messages[i := messages[i].(content := Artifacts(artifacts), kind := Some(Visualization))];
            } else {
              messages := messages + [Message(Assistant, Artifacts(artifacts), Some(Visualization), false)];
            }
          } else if Truthy(c) {
            var j := FindLast(messages, true);
            if j >= 0 {
              messages := messages[j := messages[j].(content := Text(messages[j].content.s + ToolOutputSeparator + c.value))];
            } else {
              messages := messages + [Message(Assistant, Text(c.value), None, false)];
            }
          }
        case Final(c) =>
          var i := FindLast(messages, false);
          if i >= 0 {
            messages := messages[i := Finalized(messages[i], OrEmpty(c))];
          } else {
            messages := messages + [Message(Assistant, Text(OrEmpty(c)), None, false)];
          }
        case Unknown =>
      }
    }

    /** `for await (const evt of callChatStream(requestBody))` over the events that arrive,
        then the apology when the stream raises (`failed`), and the loading flag cleared. */
    method Stream(events: seq<ChatEvent>, envs: seq<CanvasInput>, failed: bool)
      requires AllFit(events, envs) && Valid()
      modifies this
      ensures messages == Fold(old(messages), events) + (if failed then [ApologyMessage] else [])
      ensures page == PageAfterAll(old(page), events, envs)
      ensures !isLoading && input == old(input)
      ensures Valid()
    {
      ghost var messages0 := messages;
      ghost var page0 := page;
      for k := 0 to |events|
        invariant messages == Fold(messages0, events[..k])
        invariant page == PageAfterAll(page0, events[..k], envs[..k])
        invariant input == old(input)
      {
        assert events[..k + 1][..k] == events[..k] && envs[..k + 1][..k] == envs[..k];
        HandleEvent(events[k], envs[k]);
      }
      assert events[..|events|] == events && envs[..|envs|] == envs;
      FoldKeepsUsersHoldText(messages0, events);
      if failed {
        UsersHoldTextAppend(messages, [ApologyMessage]);
        messages := messages + [ApologyMessage];
      }
      isLoading := false;
    }

    /** The whole of `handleSubmit`: nothing when the guard refuses; otherwise the user
        message and the placeholder, then the events, then the apology if the stream
        failed, and loading ends. */
    method HandleSubmit(events: seq<ChatEvent>, envs: seq<CanvasInput>, failed: bool)
      returns (request: Option<seq<RequestMessage>>)
      requires AllFit(events, envs) && Valid()
      modifies this
      ensures Valid()
      ensures request.None? <==> IsBlank(old(input)) || old(isLoading)
      ensures request.None? ==>
        messages == old(messages) && input == old(input) && isLoading == old(isLoading) && page == old(page)
      ensures request.Some? ==>
        && request.value == BuildRequest(old(messages), LlmItems(old(page)), old(input))
        && messages == Fold(old(messages) + [UserMessage(old(input)), Placeholder], events)
                       + (if failed then [ApologyMessage] else [])
        && page == PageAfterAll(old(page), events, envs)
        && input == "" && !isLoading
    {
      request := Submit();
      if request.Some? {
        Stream(events, envs, failed);
      }
    }
  }

  /** A submission keeps the earlier messages' user turns and its own user message where
      they were, and the events add at most one message each after the placeholder. */
  lemma SubmissionKeepsUserTurns(msgs: seq<Message>, input: string, events: seq<ChatEvent>)
    ensures var start := msgs + [UserMessage(input), Placeholder]; var r := Fold(start, events);
      && |start| <= |r| <= |start| + |events|
      && r[|msgs|] == UserMessage(input)
      && forall k :: 0 <= k < |msgs| && msgs[k].role == User ==> r[k] == msgs[k]
  {
    var start := msgs + [UserMessage(input), Placeholder];
    FoldFrame(start, events);
    assert start[|msgs|] == UserMessage(input);
    assert forall k :: 0 <= k < |msgs| ==> start[k] == msgs[k];
  }

  /** A reply that streams only deltas into the placeholder shows their concatenation in
      the message after the user's, still streaming until a final message arrives. */
  lemma DeltasFillPlaceholder(msgs: seq<Message>, input: string, cs: seq<string>)
    ensures Fold(msgs + [UserMessage(input), Placeholder], Deltas(cs))
      == msgs + [UserMessage(input), Placeholder.(content := Text(Concat(cs)))]
  {
    var start := msgs + [UserMessage(input), Placeholder];
    DeltasConcatenate(start, cs);
    assert start[..|start| - 1] == msgs + [UserMessage(input)];
    assert "" + Concat(cs) == Concat(cs);
  }
}
