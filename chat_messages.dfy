/**
 * The message list of the agent chat (`Chat/ChatPanel.tsx`) and the rule by which each
 * event of the agent's stream updates it.  Most events work on the latest assistant
 * message that is still streaming, found by scanning from the end; when there is none,
 * the event appends a new message instead.
 */
module ChatMessages {
  import opened Wrappers
  import opened JsText
  import opened Canvas
  import opened ChatHandler

  datatype Role = User | Assistant

  /** The `type` tag some assistant messages carry. */
  datatype MessageKind = ToolCallKind | AgentUpdateKind | Visualization

  /** `string | ImageDesignMockup[]`. */
  datatype Content = Text(s: string) | Artifacts(items: seq<ImageDesignArtifact>)

  /** A chat message; a missing `isStreaming` is `false`. */
  datatype Message = Message(role: Role, content: Content, kind: Option<MessageKind>, isStreaming: bool)

  /** One event of the agent stream, by its `event` name; `ToolOutput.output` is `None`
      when the payload is not an array.  Events with other names are `Unknown`. */
  datatype ChatEvent =
    | Delta(content: Option<string>)
    | ToolCall(content: Option<string>)
    | AgentUpdate(content: Option<string>)
    | ToolOutput(output: Option<seq<ImageDesignArtifact>>, content: Option<string>)
    | Final(content: Option<string>)
    | Unknown

  const Apology: string := "Sorry, something went wrong. Please try again."
  const ToolOutputSeparator: string := "\n\nTool output: "
  /** What `String(obj)` gives for a plain object. */
  const ObjectString: string := "[object Object]"

  function UserMessage(text: string): Message {
    Message(User, Text(text), None, false)
  }

  /** The empty assistant message shown while the reply streams in. */
  const Placeholder: Message := Message(Assistant, Text(""), None, true)

  const ApologyMessage: Message := Message(Assistant, Text(Apology), None, false)

  /** The message an event looks for: a streaming assistant message, holding text when
      `textOnly`. */
  predicate IsTarget(m: Message, textOnly: bool) {
    m.role == Assistant && m.isStreaming && (!textOnly || m.content.Text?)
  }

  /** The index the backward scan stops at, or -1 when it finds nothing. */
  function LastTarget(msgs: seq<Message>, textOnly: bool): (r: int)
    ensures -1 <= r < |msgs|
    ensures r >= 0 ==> IsTarget(msgs[r], textOnly)
    ensures forall k :: r < k < |msgs| ==> !IsTarget(msgs[k], textOnly)
  {
    if msgs == [] then -1
    else if IsTarget(msgs[|msgs| - 1], textOnly) then |msgs| - 1
    else LastTarget(msgs[..|msgs| - 1], textOnly)
  }

  /** A streaming text message is a streaming message, so the scan for text stops no later
      than the plain scan; it stops earlier exactly when the latest streaming message holds
      artifacts. */
  lemma LastTargetText(msgs: seq<Message>)
    ensures LastTarget(msgs, true) <= LastTarget(msgs, false)
    ensures LastTarget(msgs, false) >= 0 && msgs[LastTarget(msgs, false)].content.Text? ==>
      LastTarget(msgs, true) == LastTarget(msgs, false)
  {
  }

  /** `String(artifacts)`: the array's elements converted and joined by commas. */
  function ArtifactsToString(n: nat): string {
    JoinWith(seq(n, _ => ObjectString), ",")
  }

  /** `(msg.content as string || '')`: an array is truthy, so it is converted as it is. */
  function AsString(c: Content): string {
    match c
    case Text(s) => s
    case Artifacts(a) => ArtifactsToString(|a|)
  }

  /** `msg.type !== 'visualization'` keeps the final text; the message stops streaming
      either way. */
  function Finalized(m: Message, text: string): Message {
    (if m.kind != Some(Visualization) then m.(content := Text(text)) else m).(isStreaming := false)
  }

  /** The list after one event. */
  function Step(msgs: seq<Message>, e: ChatEvent): seq<Message> {
    match e
    case Delta(c) =>
      var i := LastTarget(msgs, false);
      if i >= 0 then msgs[i := msgs[i].(content := Text(AsString(msgs[i].content) + OrEmpty(c)))]
      else msgs + [Message(Assistant, Text(OrEmpty(c)), None, true)]
    case ToolCall(c) =>
      if Truthy(c) then msgs + [Message(Assistant, Text(c.value), Some(ToolCallKind), false)] else msgs
    case AgentUpdate(c) =>
      if Truthy(c) then msgs + [Message(Assistant, Text(c.value), Some(AgentUpdateKind), false)] else msgs
    case ToolOutput(output, c) =>
      if output.Some? then
        var i := LastTarget(msgs, false);
        if i >= 0 then msgs[i := msgs[i].(content := Artifacts(output.value), kind := Some(Visualization))]
        else msgs + [Message(Assistant, Artifacts(output.value), Some(Visualization), false)]
      else if Truthy(c) then
        var j := LastTarget(msgs, true);
        if j >= 0 then msgs[j := msgs[j].(content := Text(msgs[j].content.s + ToolOutputSeparator + c.value))]
        else msgs + [Message(Assistant, Text(c.value), None, false)]
      else msgs
    case Final(c) =>
      var i := LastTarget(msgs, false);
      if i >= 0 then msgs[i := Finalized(msgs[i], OrEmpty(c))]
      else msgs + [Message(Assistant, Text(OrEmpty(c)), None, false)]
    case Unknown => msgs
  }

  /** The list after a run of events, in order. */
  function Fold(msgs: seq<Message>, events: seq<ChatEvent>): seq<Message> {
    if events == [] then msgs else Step(Fold(msgs, events[..|events| - 1]), events[|events| - 1])
  }

  /** Whatever the event: at most one message is appended, and it is an assistant message;
      at most one existing message changes, and it is a streaming assistant message; so the
      user messages never change. */
  lemma StepFrame(msgs: seq<Message>, e: ChatEvent)
    ensures var r := Step(msgs, e);
      && |msgs| <= |r| <= |msgs| + 1
      && (|r| == |msgs| + 1 ==> r[..|msgs|] == msgs && r[|msgs|].role == Assistant)
      && (forall k :: 0 <= k < |msgs| && r[k] != msgs[k] ==> IsTarget(msgs[k], false) && r[k].role == Assistant)
      && (forall k, k' :: 0 <= k < k' < |msgs| ==> r[k] == msgs[k] || r[k'] == msgs[k'])
  {
  }

  /** A delta adds its text to the latest streaming message, which keeps streaming, and
      leaves every other message as it was; without one it opens a new streaming message. */
  lemma DeltaSpec(msgs: seq<Message>, c: Option<string>)
    ensures var r := Step(msgs, Delta(c)); var i := LastTarget(msgs, false);
      && (i >= 0 ==>
            |r| == |msgs| && r[i].content == Text(AsString(msgs[i].content) + OrEmpty(c))
            && IsTarget(r[i], true) && LastTarget(r, false) == i
            && forall k :: 0 <= k < |msgs| && k != i ==> r[k] == msgs[k])
      && (i < 0 ==> r == msgs + [Message(Assistant, Text(OrEmpty(c)), None, true)] && LastTarget(r, false) == |msgs|)
  {
  }

  /** The deltas of a run, as events. */
  function Deltas(cs: seq<string>): (r: seq<ChatEvent>)
    ensures |r| == |cs|
    ensures forall k :: 0 <= k < |cs| ==> r[k] == Delta(Some(cs[k]))
  {
    if cs == [] then [] else Deltas(cs[..|cs| - 1]) + [Delta(Some(cs[|cs| - 1]))]
  }

  /** Deltas c1 .. cn on a streaming text message at the end of the list leave it holding
      its text followed by c1 ++ ... ++ cn, still streaming, and touch nothing before it;
      on the empty placeholder that is exactly the concatenation. */
  lemma {:induction false} DeltasConcatenate(msgs: seq<Message>, cs: seq<string>)
    requires msgs != [] && IsTarget(msgs[|msgs| - 1], true)
    ensures Fold(msgs, Deltas(cs)) ==
      msgs[..|msgs| - 1] + [msgs[|msgs| - 1].(content := Text(msgs[|msgs| - 1].content.s + Concat(cs)))]
  {
    var n := |msgs| - 1;
    var last := msgs[n];
    if cs == [] {
      assert last.content.s + "" == last.content.s;
      assert msgs == msgs[..n] + [last];
    } else {
      var init := cs[..|cs| - 1];
      var c := cs[|cs| - 1];
      assert Deltas(cs)[..|cs| - 1] == Deltas(init);
      DeltasConcatenate(msgs, init);
      var before := msgs[..n] + [last.(content := Text(last.content.s + Concat(init)))];
      assert Fold(msgs, Deltas(cs)) == Step(before, Delta(Some(c)));
      assert LastTarget(before, false) == n;
      ConcatAssoc(last.content.s, Concat(init), c);
      assert Step(before, Delta(Some(c))) == msgs[..n] + [last.(content := Text(last.content.s + Concat(cs)))];
    }
  }

  /** A `tool_call` or `agent_update` appends one non-streaming message tagged with its kind
      exactly when its content is not empty, and otherwise changes nothing. */
  lemma StatusEventSpec(msgs: seq<Message>, e: ChatEvent)
    requires e.ToolCall? || e.AgentUpdate?
    ensures var r := Step(msgs, e);
      && (r == msgs <==> !Truthy(e.content))
      && (Truthy(e.content) ==>
            |r| == |msgs| + 1 && r[..|msgs|] == msgs && r[|msgs|].content == Text(e.content.value)
            && r[|msgs|].kind == Some(if e.ToolCall? then ToolCallKind else AgentUpdateKind)
            && !r[|msgs|].isStreaming)
  {
    if Truthy(e.content) {
      assert |Step(msgs, e)| != |msgs|;
    }
  }

  /** An array payload turns the latest streaming message into a visualization holding the
      artifacts, which still streams (a later delta or final message finds it again); without
      one, a non-streaming visualization message is appended. */
  lemma ToolOutputArraySpec(msgs: seq<Message>, artifacts: seq<ImageDesignArtifact>, c: Option<string>)
    ensures var r := Step(msgs, ToolOutput(Some(artifacts), c)); var i := LastTarget(msgs, false);
      && (i >= 0 ==>
            |r| == |msgs| && r[i].content == Artifacts(artifacts) && r[i].kind == Some(Visualization)
            && LastTarget(r, false) == i && forall k :: 0 <= k < |msgs| && k != i ==> r[k] == msgs[k])
      && (i < 0 ==> r == msgs + [Message(Assistant, Artifacts(artifacts), Some(Visualization), false)])
  {
  }

  /** A text payload is added, after the separator, to the latest streaming message that
      holds text, passing over a streaming visualization after it; without one it becomes a
      new message.  An empty payload changes nothing. */
  lemma ToolOutputTextSpec(msgs: seq<Message>, c: Option<string>)
    ensures var r := Step(msgs, ToolOutput(None, c)); var j := LastTarget(msgs, true);
      && (!Truthy(c) ==> r == msgs)
      && (Truthy(c) && j >= 0 ==>
            |r| == |msgs| && r[j].content == Text(msgs[j].content.s + ToolOutputSeparator + c.value)
            && EndsWith(r[j].content.s, c.value) && r[j].isStreaming
            && forall k :: 0 <= k < |msgs| && k != j ==> r[k] == msgs[k])
      && (Truthy(c) && j < 0 ==> r == msgs + [Message(Assistant, Text(c.value), None, false)])
  {
    var j := LastTarget(msgs, true);
    if Truthy(c) && j >= 0 {
      EndsWithAppend(msgs[j].content.s + ToolOutputSeparator, c.value, c.value);
    }
  }

  /** The final message stops the latest streaming message, replacing its text unless it is
      a visualization, so the next scan stops before it; without one it is appended as a
      finished message. */
  lemma FinalSpec(msgs: seq<Message>, c: Option<string>)
    ensures var r := Step(msgs, Final(c)); var i := LastTarget(msgs, false);
      && (i >= 0 ==>
            |r| == |msgs| && !r[i].isStreaming && LastTarget(r, false) < i
            && (msgs[i].kind != Some(Visualization) ==> r[i].content == Text(OrEmpty(c)))
            && (msgs[i].kind == Some(Visualization) ==> r[i].content == msgs[i].content)
            && forall k :: 0 <= k < |msgs| && k != i ==> r[k] == msgs[k])
      && (i < 0 ==> r == msgs + [Message(Assistant, Text(OrEmpty(c)), None, false)])
  {
    var i := LastTarget(msgs, false);
    if i >= 0 {
      var r := Step(msgs, Final(c));
      assert forall k :: i <= k < |r| ==> !IsTarget(r[k], false);
    }
  }

  /** Over a run of events the list grows by at most one message per event, the messages
      before never shrink away, and user messages are never changed. */
  lemma {:induction false} FoldFrame(msgs: seq<Message>, events: seq<ChatEvent>)
    ensures var r := Fold(msgs, events);
      && |msgs| <= |r| <= |msgs| + |events|
      && forall k :: 0 <= k < |msgs| && msgs[k].role == User ==> r[k] == msgs[k]
  {
    if events != [] {
      var init := events[..|events| - 1];
      FoldFrame(msgs, init);
      StepFrame(Fold(msgs, init), events[|events| - 1]);
    }
  }

  /** New user messages appear only at submission: every message an event run adds is an
      assistant message. */
  lemma {:induction false} FoldAddsAssistants(msgs: seq<Message>, events: seq<ChatEvent>)
    ensures var r := Fold(msgs, events);
      |msgs| <= |r| && forall k :: |msgs| <= k < |r| ==> r[k].role == Assistant
  {
    if events != [] {
      var init := events[..|events| - 1];
      FoldAddsAssistants(msgs, init);
      FoldFrame(msgs, init);
      StepFrame(Fold(msgs, init), events[|events| - 1]);
    }
  }
}
