/**
 * `handleSubmit` of the earlier chat panel (`components/ChatPanel.tsx`): the reply is one
 * stream of text chunks, accumulated into the last message while it streams, and the
 * last message stops streaming when the stream ends.  The response status, its body and
 * the decoded chunks are inputs.
 */
module LegacyChatPanel {
  import opened Wrappers
  import opened JsText
  import opened Canvas
  import opened FormatIngredients
  import opened ChatMessages

  /** One item of the outgoing user message: an ingredient item, or the typed text. */
  datatype LegacyItem = Ingredient(item: ContentItem) | TypedText(text: string)

  /** `string | ContentItem[]`. */
  datatype LegacyContent = Plain(s: string) | Items(items: seq<LegacyItem>)

  /** A message of this panel; a missing `isStreaming` is `false`. */
  datatype LegacyMessage = LegacyMessage(role: Role, content: LegacyContent, isStreaming: bool)

  /** What `fetch` resolves to: `response.ok` and whether `response.body` has a reader. */
  datatype Response = Response(ok: bool, hasBody: bool)

  const LegacyPlaceholder: LegacyMessage := LegacyMessage(Assistant, Plain(""), true)
  const LegacyApology: LegacyMessage := LegacyMessage(Assistant, Plain(Apology), false)

  function Ingredients(items: seq<ContentItem>): (r: seq<LegacyItem>)
    ensures |r| == |items|
    ensures forall k :: 0 <= k < |items| ==> r[k] == Ingredient(items[k])
  {
    if items == [] then [] else Ingredients(items[..|items| - 1]) + [Ingredient(items[|items| - 1])]
  }

  /** `userMessage`: the formatted ingredients, then the typed text as the last item. */
  function OutgoingUserMessage(page: seq<Shape>, input: string): LegacyMessage {
    LegacyMessage(User, Items(Ingredients(LlmItems(page)) + [TypedText(input)]), false)
  }

  /** The user message carries one item per ingredient item, in order, and the typed text
      last. */
  lemma OutgoingUserMessageSpec(page: seq<Shape>, input: string)
    ensures var m := OutgoingUserMessage(page, input); var items := LlmItems(page);
      && m.role == User && m.content.Items? && |m.content.items| == |items| + 1
      && m.content.items[|items|] == TypedText(input)
      && forall k :: 0 <= k < |items| ==> m.content.items[k] == Ingredient(items[k])
  {
  }

  /** `lastMessage.content = text` when the last message streams; otherwise nothing. */
  function SetLastContent(msgs: seq<LegacyMessage>, text: string): seq<LegacyMessage> {
    if msgs != [] && msgs[|msgs| - 1].isStreaming then msgs[|msgs| - 1 := msgs[|msgs| - 1].(content := Plain(text))]
    else msgs
  }

  /** `lastMessage.isStreaming = false` when the last message streams; otherwise nothing. */
  function ClearLastStreaming(msgs: seq<LegacyMessage>): seq<LegacyMessage> {
    if msgs != [] && msgs[|msgs| - 1].isStreaming then msgs[|msgs| - 1 := msgs[|msgs| - 1].(isStreaming := false)]
    else msgs
  }

  /** Only the last message can change, and only while it streams: it takes the text and
      keeps streaming. */
  lemma SetLastContentSpec(msgs: seq<LegacyMessage>, text: string)
    ensures var r := SetLastContent(msgs, text);
      && |r| == |msgs| && (msgs != [] ==> r[..|msgs| - 1] == msgs[..|msgs| - 1])
      && (msgs != [] && msgs[|msgs| - 1].isStreaming ==>
            r[|msgs| - 1].content == Plain(text) && r[|msgs| - 1].isStreaming
            && r[|msgs| - 1].role == msgs[|msgs| - 1].role)
      && (msgs == [] || !msgs[|msgs| - 1].isStreaming ==> r == msgs)
  {
  }

  /** Each chunk replaces the whole accumulated text, so only the latest update matters. */
  lemma SetLastContentTwice(msgs: seq<LegacyMessage>, a: string, b: string)
    ensures SetLastContent(SetLastContent(msgs, a), b) == SetLastContent(msgs, b)
  {
    if msgs != [] && msgs[|msgs| - 1].isStreaming {
      var n := |msgs| - 1;
      assert SetLastContent(msgs, a)[n].isStreaming;
      assert SetLastContent(SetLastContent(msgs, a), b)[n] == SetLastContent(msgs, b)[n];
    }
  }

  /** The end of the stream stops only the last message, keeping its text; earlier
      messages, streaming or not, are untouched; a second clearing changes nothing. */
  lemma ClearLastStreamingSpec(msgs: seq<LegacyMessage>)
    ensures var r := ClearLastStreaming(msgs);
      && |r| == |msgs| && (msgs != [] ==> r[..|msgs| - 1] == msgs[..|msgs| - 1])
      && (msgs != [] ==>
            !r[|msgs| - 1].isStreaming && r[|msgs| - 1].content == msgs[|msgs| - 1].content
            && r[|msgs| - 1].role == msgs[|msgs| - 1].role)
      && ClearLastStreaming(r) == r
  {
  }

  /** The list after the chunks read so far. */
  function AfterChunks(msgs: seq<LegacyMessage>, chunks: seq<string>): seq<LegacyMessage> {
    if chunks == [] then msgs else SetLastContent(msgs, Concat(chunks))
  }

  /** After the first `k` chunks the streaming last message shows their concatenation, and
      nothing else is touched. */
  lemma AfterChunksSpec(msgs: seq<LegacyMessage>, chunks: seq<string>, k: nat)
    requires k <= |chunks| && msgs != [] && msgs[|msgs| - 1].isStreaming
    ensures var r := AfterChunks(msgs, chunks[..k]);
      && |r| == |msgs| && r[..|msgs| - 1] == msgs[..|msgs| - 1]
      && r[|msgs| - 1] == msgs[|msgs| - 1].(content := if k == 0 then msgs[|msgs| - 1].content else Plain(Concat(chunks[..k])))
  {
  }

  /** The outcome of one submission, from the list after the user message is shown: a
      reply that never opens (`response` is `None` when `fetch` rejects) gets the apology;
      one that opens gets the placeholder, the chunks, and then either the end of streaming
      or, when a read fails, the apology. */
  function Outcome(msgs: seq<LegacyMessage>, response: Option<Response>, chunks: seq<string>, readFails: bool): seq<LegacyMessage> {
    if response.None? || !response.value.ok || !response.value.hasBody then msgs + [LegacyApology]
    else
      var streamed := AfterChunks(msgs + [LegacyPlaceholder], chunks);
      if readFails then streamed + [LegacyApology] else ClearLastStreaming(streamed)
  }

  /** The placeholder appears exactly when the response is ok and has a body; then a clean
      stream leaves one finished assistant message holding all chunks, and a failure adds
      exactly one apology, last. */
  lemma OutcomeSpec(msgs: seq<LegacyMessage>, response: Option<Response>, chunks: seq<string>, readFails: bool)
    ensures var r := Outcome(msgs, response, chunks, readFails);
      var isOpen := response.Some? && response.value.ok && response.value.hasBody;
      && r[..|msgs|] == msgs
      && (!isOpen ==> r == msgs + [LegacyApology])
      && (isOpen && !readFails ==>
            r == msgs + [LegacyMessage(Assistant, Plain(Concat(chunks)), false)])
      && (isOpen && readFails ==>
            |r| == |msgs| + 2 && r[|msgs|].role == Assistant && r[|msgs| + 1] == LegacyApology)
  {
    var isOpen := response.Some? && response.value.ok && response.value.hasBody;
    if isOpen {
      var start := msgs + [LegacyPlaceholder];
      assert chunks[..|chunks|] == chunks;
      AfterChunksSpec(start, chunks, |chunks|);
      assert start[..|start| - 1] == msgs;
      if chunks == [] {
        assert AfterChunks(start, chunks) == start;
        assert Concat(chunks) == "";
      }
    }
  }

  class Panel {
    var messages: seq<LegacyMessage>
    var input: string
    var isLoading: bool
    /** The shapes of the editor's current page. */
    var page: seq<Shape>

    constructor(page0: seq<Shape>)
      ensures messages == [] && input == "" && !isLoading && page == page0
    {
      messages := [];
      input := "";
      isLoading := false;
      page := page0;
    }

    /** The text box changes. */
    method SetInput(text: string)
      modifies this
      ensures input == text
      ensures messages == old(messages) && isLoading == old(isLoading) && page == old(page)
    {
      input := text;
    }

    /** `while (true)` over `reader.read()`: each chunk is added to `assistantMessage`, which
        then becomes the streaming last message's text. */
    method ReadChunks(chunks: seq<string>)
      modifies this
      ensures messages == AfterChunks(old(messages), chunks)
      ensures input == old(input) && isLoading == old(isLoading) && page == old(page)
    {
      ghost var messages0 := messages;
      var assistantMessage := "";
      var i := 0;
      while i < |chunks|
        invariant 0 <= i <= |chunks|
        invariant assistantMessage == Concat(chunks[..i])
        invariant messages == AfterChunks(messages0, chunks[..i])
        invariant input == old(input) && isLoading == old(isLoading) && page == old(page)
      {
        var text := chunks[i];
        assert chunks[..i + 1][..i] == chunks[..i];
        assistantMessage := assistantMessage + text;
        if i > 0 {
          SetLastContentTwice(messages0, Concat(chunks[..i]), assistantMessage);
        }
        messages := SetLastContent(messages, assistantMessage);
        i := i + 1;
      }
      assert chunks[..i] == chunks;
    }

    /** The whole of `handleSubmit`. Returns the message list sent to the chat function, or
        `None` when the text is blank or a reply is loading, and then nothing changes. */
    method HandleSubmit(response: Option<Response>, chunks: seq<string>, readFails: bool)
      returns (sent: Option<seq<LegacyMessage>>)
      modifies this
      ensures sent.None? <==> IsBlank(old(input)) || old(isLoading)
      ensures sent.None? ==>
        messages == old(messages) && input == old(input) && isLoading == old(isLoading) && page == old(page)
      ensures sent.Some? ==>
        && sent.value == old(messages) + [OutgoingUserMessage(old(page), old(input))]
        && messages == Outcome(old(messages) + [LegacyMessage(User, Plain(old(input)), false)], response, chunks, readFails)
        && input == "" && !isLoading && page == old(page)
    {
      if IsBlank(input) || isLoading {
        return None;
      }
      var body := Accept(response, chunks, readFails);
      sent := Some(body);
    }

    /** An accepted submission: the message list sent, the user's text shown, the reply,
        and loading cleared in the `finally` block. */
    method Accept(response: Option<Response>, chunks: seq<string>, readFails: bool) returns (sent: seq<LegacyMessage>)
      modifies this
      ensures sent == old(messages) + [OutgoingUserMessage(old(page), old(input))]
      ensures messages == Outcome(old(messages) + [LegacyMessage(User, Plain(old(input)), false)], response, chunks, readFails)
      ensures input == "" && !isLoading && page == old(page)
    {
      var contentItems := FormatIngredientsForLLM(page);
      var userMessage := LegacyMessage(User, Items(Ingredients(contentItems) + [TypedText(input)]), false);
      sent := messages + [userMessage];
      messages := messages + [LegacyMessage(User, Plain(input), false)];
      input := "";
      isLoading := true;
      Reply(response, chunks, readFails);
      isLoading := false;
    }

    /** The `try` block and its `catch`: the placeholder once the response is ok and has a
        body, the chunks, the end of streaming; the apology on any failure. */
    method Reply(response: Option<Response>, chunks: seq<string>, readFails: bool)
      modifies this
      ensures messages == Outcome(old(messages), response, chunks, readFails)
      ensures input == old(input) && isLoading == old(isLoading) && page == old(page)
    {
      if response.None? || !response.value.ok || !response.value.hasBody {
        messages := messages + [LegacyApology];
      } else {
        messages := messages + [LegacyPlaceholder];
        ReadChunks(chunks);
        if readFails {
          messages := messages + [LegacyApology];
        } else {
          messages := ClearLastStreaming(messages);
        }
      }
    }
  }
}
