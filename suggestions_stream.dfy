/**
 * The frame loop of `fetchSuggestionsStream`: decoded chunks of a server-sent event
 * stream are appended to a buffer, complete frames (ended by a blank line) are cut off
 * the front, and the content of every `delta` event is yielded in arrival order.
 * JSON parsing is an input: `None` stands for `JSON.parse` throwing.
 */
module SuggestionsStream {
  import opened Wrappers
  import opened JsText
  import opened Canvas

  const Boundary: string := "\n\n"
  const DataPrefix: string := "data:"

  /** The fields of a parsed `SuggestionStreamEvent` the loop reads. */
  datatype SuggestionEvent = SuggestionEvent(event: Option<string>, content: Option<string>)

  datatype Drained = Drained(frames: seq<string>, rest: string)

  /** The inner `while`: cut every complete frame off the front of the buffer. The frames
      come back as cut, before trimming; the buffer keeps the incomplete tail. */
  function Drain(buffer: string): (r: Drained)
    ensures IndexOf(r.rest, Boundary) == -1
    decreases |buffer|
  {
    var boundary := IndexOf(buffer, Boundary);
    if boundary == -1 then Drained([], buffer)
    else
      var d := Drain(buffer[boundary + 2..]);
      Drained([buffer[..boundary]] + d.frames, d.rest)
  }

  /** The frames written back with their terminating blank line. */
  function Terminated(frames: seq<string>): string {
    if frames == [] then "" else frames[0] + Boundary + Terminated(frames[1..])
  }

  /** Nothing is lost or reordered: the frames, each with its blank line, followed by the tail
      give back the buffer, and no frame contains a blank line. */
  lemma {:induction false} DrainReassembles(buffer: string)
    ensures Terminated(Drain(buffer).frames) + Drain(buffer).rest == buffer
    ensures forall k :: 0 <= k < |Drain(buffer).frames| ==> IndexOf(Drain(buffer).frames[k], Boundary) == -1
    decreases |buffer|
  {
    var boundary := IndexOf(buffer, Boundary);
    if boundary != -1 {
      var tail := buffer[boundary + 2..];
      var d := Drain(tail);
      var frame := buffer[..boundary];
      DrainReassembles(tail);
      IndexOfSplit(buffer, Boundary);
      IndexOfPrefixFree(buffer, Boundary);
      ConcatAssoc(frame + Boundary, Terminated(d.frames), d.rest);
      assert Drain(buffer).frames == [frame] + d.frames;
    }
  }

  /** Draining `s + c` is draining `s` and then draining what `s` left, with `c` appended. */
  lemma {:induction false} DrainAppend(s: string, c: string)
    ensures Drain(s + c).frames == Drain(s).frames + Drain(Drain(s).rest + c).frames
    ensures Drain(s + c).rest == Drain(Drain(s).rest + c).rest
    decreases |s|
  {
    var boundary := IndexOf(s, Boundary);
    if boundary == -1 {
      assert Drain(s) == Drained([], s);
    } else {
      var tail := s[boundary + 2..];
      DrainFirstFrame(s, c);
      DrainAppend(tail, c);
      ConcatAssoc([s[..boundary]], Drain(tail).frames, Drain(Drain(tail).rest + c).frames);
    }
  }

  /** When `s` holds a complete frame, so does `s + c`: the same one, followed by the rest of
      `s` with `c` appended. */
  lemma DrainFirstFrame(s: string, c: string)
    requires IndexOf(s, Boundary) != -1
    ensures var boundary := IndexOf(s, Boundary);
      Drain(s + c) == Drained([s[..boundary]] + Drain(s[boundary + 2..] + c).frames, Drain(s[boundary + 2..] + c).rest)
  {
    var boundary := IndexOf(s, Boundary);
    IndexOfAppend(s, c, Boundary);
    assert (s + c)[..boundary] == s[..boundary];
    assert (s + c)[boundary + 2..] == s[boundary + 2..] + c;
  }

  /** What one cut frame contributes: the `content` of a `delta` event with non-empty
      content. Other frames, empty payloads, unparseable JSON, `error` events (their throw is
      caught inside the loop) and `complete` events contribute nothing. */
  function FrameOutput(raw: string, parse: string -> Option<SuggestionEvent>): seq<string> {
    var rawEvent := Trim(raw);
    if !StartsWith(rawEvent, DataPrefix) then []
    else
      var jsonStr := Trim(rawEvent[5..]);
      if jsonStr == "" then []
      else
        EventOutput(parse(jsonStr))
  }

  /** What a parse result contributes: the content of a `delta` event, when truthy. */
  function EventOutput(parsed: Option<SuggestionEvent>): seq<string> {
    match parsed
    case None => []
    case Some(e) => if e.event == Some("delta") && Truthy(e.content) then [e.content.value] else []
  }

  /** A frame yields at most one string, and only the non-empty content of a `delta` event
      parsed from the payload after `data:`. */
  lemma FrameOutputIsDelta(raw: string, parse: string -> Option<SuggestionEvent>)
    ensures |FrameOutput(raw, parse)| <= 1
    ensures FrameOutput(raw, parse) != [] ==>
      var rawEvent := Trim(raw);
      StartsWith(rawEvent, DataPrefix)
      && parse(Trim(rawEvent[5..])) == Some(SuggestionEvent(Some("delta"), Some(FrameOutput(raw, parse)[0])))
      && FrameOutput(raw, parse)[0] != ""
  {
  }

  function FramesOutput(frames: seq<string>, parse: string -> Option<SuggestionEvent>): seq<string> {
    if frames == [] then [] else FrameOutput(frames[0], parse) + FramesOutput(frames[1..], parse)
  }

  lemma {:induction false} FramesOutputAppend(a: seq<string>, b: seq<string>, parse: string -> Option<SuggestionEvent>)
    ensures FramesOutput(a + b, parse) == FramesOutput(a, parse) + FramesOutput(b, parse)
  {
    if a == [] {
      assert a + b == b;
    } else {
      assert (a + b)[0] == a[0] && (a + b)[1..] == a[1..] + b;
      FramesOutputAppend(a[1..], b, parse);
      ConcatAssoc(FrameOutput(a[0], parse), FramesOutput(a[1..], parse), FramesOutput(b, parse));
    }
  }

  /** What the loop has yielded, and the buffer it holds, after a number of chunks. */
  datatype StreamState = StreamState(yielded: seq<string>, buffer: string)

  /** The reader loop: append each decoded chunk to the buffer and drain it. */
  function Consume(chunks: seq<string>, parse: string -> Option<SuggestionEvent>): (r: StreamState)
    ensures IndexOf(r.buffer, Boundary) == -1
  {
    if chunks == [] then StreamState([], "")
    else
      var st := Consume(chunks[..|chunks| - 1], parse);
      var d := Drain(st.buffer + chunks[|chunks| - 1]);
      StreamState(st.yielded + FramesOutput(d.frames, parse), d.rest)
  }

  /** The stream as one piece: every complete frame of the whole text, drained at once. */
  function ConsumeAll(text: string, parse: string -> Option<SuggestionEvent>): StreamState {
    StreamState(FramesOutput(Drain(text).frames, parse), Drain(text).rest)
  }

  /** How the network splits the stream into chunks does not matter: the yielded strings and
      the buffer are those of the concatenated text drained at once. */
  lemma {:induction false} ChunkingInvariance(chunks: seq<string>, parse: string -> Option<SuggestionEvent>)
    ensures Consume(chunks, parse) == ConsumeAll(Concat(chunks), parse)
  {
    if chunks != [] {
      var init := chunks[..|chunks| - 1];
      var c := chunks[|chunks| - 1];
      var prefix := Concat(init);
      ChunkingInvariance(init, parse);
      DrainAppend(prefix, c);
      FramesOutputAppend(Drain(prefix).frames, Drain(Drain(prefix).rest + c).frames, parse);
    }
  }

  /** The tail left in the buffer when the stream ends holds no blank line, and the text is
      exactly the complete frames followed by that discarded tail. */
  lemma LeftoverIsIncompleteTail(chunks: seq<string>, parse: string -> Option<SuggestionEvent>)
    ensures IndexOf(Consume(chunks, parse).buffer, Boundary) == -1
    ensures Terminated(Drain(Concat(chunks)).frames) + Consume(chunks, parse).buffer == Concat(chunks)
  {
    ChunkingInvariance(chunks, parse);
    DrainReassembles(Concat(chunks));
  }

  /** The yielded strings of `fetchSuggestionsStream` for a body that arrives as `chunks`;
      the tail still in the buffer at the end is dropped. */
  function Yields(chunks: seq<string>, parse: string -> Option<SuggestionEvent>): seq<string> {
    Consume(chunks, parse).yielded
  }

  /** One turn of the inner loop: cutting the first frame off leaves the rest to drain. */
  lemma DrainStep(buffer: string, parse: string -> Option<SuggestionEvent>)
    requires IndexOf(buffer, Boundary) != -1
    ensures var boundary := IndexOf(buffer, Boundary);
      FramesOutput(Drain(buffer).frames, parse)
        == FrameOutput(buffer[..boundary], parse) + FramesOutput(Drain(buffer[boundary + 2..]).frames, parse)
      && Drain(buffer).rest == Drain(buffer[boundary + 2..]).rest
  {
    var frames := Drain(buffer).frames;
    assert frames[0] == buffer[..IndexOf(buffer, Boundary)];
    assert frames[1..] == Drain(buffer[IndexOf(buffer, Boundary) + 2..]).frames;
  }

  method FetchSuggestionsStream(chunks: seq<string>, parse: string -> Option<SuggestionEvent>)
    returns (yielded: seq<string>)
    ensures yielded == Yields(chunks, parse)
  {
    yielded := [];
    var buffer := "";
    var i := 0;
    while i < |chunks|
      invariant 0 <= i <= |chunks|
      invariant StreamState(yielded, buffer) == Consume(chunks[..i], parse)
    {
      assert chunks[..i + 1][..i] == chunks[..i];
      buffer := buffer + chunks[i];
      yielded, buffer := DrainFrames(yielded, buffer, parse);
      i := i + 1;
    }
    assert chunks[..i] == chunks;
  }

  /** The inner `while`: cut and process every complete frame of the buffer. */
  method DrainFrames(yielded0: seq<string>, buffer0: string, parse: string -> Option<SuggestionEvent>)
    returns (yielded: seq<string>, buffer: string)
    ensures yielded == yielded0 + FramesOutput(Drain(buffer0).frames, parse)
    ensures buffer == Drain(buffer0).rest
  {
    yielded, buffer := yielded0, buffer0;
    while IndexOf(buffer, Boundary) != -1
      invariant yielded + FramesOutput(Drain(buffer).frames, parse) == yielded0 + FramesOutput(Drain(buffer0).frames, parse)
      invariant Drain(buffer).rest == Drain(buffer0).rest
      decreases |buffer|
    {
      var boundary := IndexOf(buffer, Boundary);
      var frame := buffer[..boundary];
      ghost var out := yielded;
      DrainStep(buffer, parse);
      buffer := buffer[boundary + 2..];
      yielded := ProcessFrame(yielded, frame, parse);
      ConcatAssoc(out, FrameOutput(frame, parse), FramesOutput(Drain(buffer).frames, parse));
    }
    assert Drain(buffer).frames == [];
  }

  /** The body of the inner loop for the cut text `frame`: the trim, the `continue`s and
      the `try` around the parse. */
  method ProcessFrame(yielded: seq<string>, frame: string, parse: string -> Option<SuggestionEvent>)
    returns (r: seq<string>)
    ensures r == yielded + FrameOutput(frame, parse)
  {
    r := yielded;
    assert yielded + [] == yielded;
    var rawEvent := Trim(frame);
    if !StartsWith(rawEvent, DataPrefix) {
      assert FrameOutput(frame, parse) == [];
      return;
    }
    var jsonStr := Trim(rawEvent[5..]);
    if jsonStr == "" {
      assert FrameOutput(frame, parse) == [];
      return;
    }
    assert FrameOutput(frame, parse) == EventOutput(parse(jsonStr));
    r := ProcessPayload(yielded, jsonStr, parse);
  }

  /** The `try` block for a non-empty payload: a parsed `delta` with content is yielded;
      anything else, a parse failure included, is logged and skipped. */
  method ProcessPayload(yielded: seq<string>, jsonStr: string, parse: string -> Option<SuggestionEvent>)
    returns (r: seq<string>)
    ensures r == yielded + EventOutput(parse(jsonStr))
  {
    r := yielded;
    var parsed := parse(jsonStr);
    if parsed.Some? {
      var event := parsed.value;
      if event.event == Some("delta") && Truthy(event.content) {
        r := r + [event.content.value];
      }
    }
  }
}
