/**
 * The key-point extraction edge function: it checks that the request carries a
 * transcript, writes the prompt (transcript and a numbered list of the supporting
 * sources), and relays the language model's streamed reply to the client as
 * server-sent events.
 *
 * The relay reads the reply chunk by chunk (chunks are modelled as already decoded
 * text), carries the text after the last line feed over to the next chunk, and turns
 * each complete line into at most one event.  The JSON parsing of a line is a
 * parameter: the text at `candidates[0].content.parts[0].text`, or None when the line
 * does not parse or has no such text.
 */
module ExtractKeyPoints {
  import opened JsText
  import opened Sources
  import opened Numbering

  // ---------------------------------------------------------------------------
  // The prompt

  const SourcesHeading := "\n\nSupporting Sources:\n"
  const ExtractRequest := "Please extract the key points from this interview transcript:\n\n"
  const BulletRequest := "\n\nReturn 5-10 bullet points that would be most valuable for writing an article. Focus on unique insights, important quotes, and main themes."

  /** How a source is listed: a link by its address, any other source by its name, or
      "Document" when it has none. */
  function SourceLabel(src: SupportingSource): string {
    if src.kind == "url" then src.value
    else if src.name != "" then src.name
    else "Document"
  }

  /** The label of every source, in order. */
  function Labels(sources: seq<SupportingSource>): (r: seq<string>)
    ensures |r| == |sources|
    ensures forall k :: 0 <= k < |sources| ==> r[k] == SourceLabel(sources[k])
  {
    seq(|sources|, k requires 0 <= k < |sources| => SourceLabel(sources[k]))
  }

  /** `sourcesContext`: empty without sources, otherwise a heading and the numbered
      labels, one per line. */
  function SourcesContext(sources: seq<SupportingSource>): string {
    if |sources| > 0 then SourcesHeading + NumberedList(Labels(sources)) else ""
  }

  /** The context is empty exactly when there are no sources; otherwise, when no label
      holds a line feed, the lines after the heading read back as the labels, in the
      order of the sources. */
  lemma SourcesContextLayout(sources: seq<SupportingSource>)
    ensures SourcesContext(sources) == "" <==> sources == []
    ensures sources != [] ==> StartsWith(SourcesContext(sources), SourcesHeading)
    ensures sources != [] && (forall k :: 0 <= k < |sources| ==> '\n' !in SourceLabel(sources[k])) ==>
              var lines := JsSplitLines(SourcesContext(sources)[|SourcesHeading|..]);
              |lines| == |sources|
              && forall k :: 0 <= k < |sources| ==> Items(lines)[k] == Some(SourceLabel(sources[k]))
  {
    if sources != [] {
      var labels := Labels(sources);
      StartsWithConcat(SourcesHeading, NumberedList(labels));
      if forall k :: 0 <= k < |sources| ==> '\n' !in SourceLabel(sources[k]) {
        NumberedListRoundTrip(labels);
      }
    }
  }

  /** The text sent to the language model. */
  function Prompt(transcript: string, sources: seq<SupportingSource>): string {
    ExtractRequest + transcript + SourcesContext(sources) + BulletRequest
  }

  /** The prompt holds the whole transcript right after the request, then the sources
      context, and ends with the bullet-point request; without sources nothing stands
      between the transcript and that request. */
  lemma PromptLayout(transcript: string, sources: seq<SupportingSource>)
    ensures var p := Prompt(transcript, sources);
            var at := |ExtractRequest|;
            StartsWith(p, ExtractRequest)
            && p[at..at + |transcript|] == transcript
            && p[at + |transcript|..|p| - |BulletRequest|] == SourcesContext(sources)
            && p[|p| - |BulletRequest|..] == BulletRequest
            && (sources == [] ==> p == ExtractRequest + transcript + BulletRequest)
  {
    var context := SourcesContext(sources);
    FourParts(ExtractRequest, transcript, context, BulletRequest);
    if sources == [] {
      assert context == [];
      assert ExtractRequest + transcript + context == ExtractRequest + transcript;
    }
  }

  // ---------------------------------------------------------------------------
  // One line of the reply

  const DataPrefix := "data: "
  const DoneMarker := "[DONE]"

  /** What the relay sends: the text of a parsed line, the raw leftover at the end of the
      stream, the closing `[DONE]` event, or `controller.error`, which puts the stream in
      its error state after the events already sent. */
  datatype Event = TextEvent(text: string) | RawEvent(data: string) | DoneEvent | StreamError

  /** The reply body as its reader delivers it: the decoded chunks of the successful
      `read()` calls, in order, and whether the read after the last of them rejects
      (`failed`) instead of reporting `done`. */
  datatype Body = Body(chunks: seq<string>, failed: bool)

  /** `line.replace(/^data: /, '').trim()`: one leading "data: " removed, then trimmed. */
  function Payload(line: string): string {
    Trim(if StartsWith(line, DataPrefix) then line[|DataPrefix|..] else line)
  }

  /** The events of one line: none for a blank line, for an empty or `[DONE]` payload, for
      a payload that does not parse or has no text, and for an empty text; otherwise one
      event with the text. */
  function LineEvents(line: string, extract: string -> Option<string>): seq<Event> {
    if Trim(line) == "" then []
    else
      var payload := Payload(line);
      if payload != "" && payload != DoneMarker && extract(payload).Some?
         && extract(payload).value != ""
      then [TextEvent(extract(payload).value)]
      else []
  }

  /** A blank line has an empty payload: it cannot start with "data: ". */
  lemma BlankPayload(line: string)
    requires Trim(line) == ""
    ensures Payload(line) == ""
  {
    TrimStrips(line);
  }

  /** A line gives an event exactly when its payload is neither empty nor `[DONE]` and
      parses to a non-empty text, which the event carries; the test for a blank line
      decides nothing on its own. */
  lemma LineEventsExactly(line: string, extract: string -> Option<string>)
    ensures var payload := Payload(line);
            LineEvents(line, extract) != []
            <==> payload != "" && payload != DoneMarker && extract(payload).Some?
                 && extract(payload).value != ""
    ensures var payload := Payload(line);
            LineEvents(line, extract) != [] ==>
              LineEvents(line, extract) == [TextEvent(extract(payload).value)]
  {
    if Trim(line) == "" {
      BlankPayload(line);
    }
  }

  // ---------------------------------------------------------------------------
  // The stream

  /** The chunks received so far, as one text. */
  function Concat(chunks: seq<string>): string {
    if chunks == [] then "" else Concat(chunks[..|chunks| - 1]) + chunks[|chunks| - 1]
  }

  /** The events of a run of lines, in order. */
  function LinesEvents(lines: seq<string>, extract: string -> Option<string>): seq<Event> {
    if lines == [] then []
    else LinesEvents(lines[..|lines| - 1], extract) + LineEvents(lines[|lines| - 1], extract)
  }

  lemma {:induction false} LinesEventsAppend(a: seq<string>, b: seq<string>,
                                             extract: string -> Option<string>)
    ensures LinesEvents(a + b, extract) == LinesEvents(a, extract) + LinesEvents(b, extract)
    decreases |b|
  {
    if b == [] {
      assert a + b == a;
    } else {
      var c := b[..|b| - 1];
      var x := b[|b| - 1];
      assert (a + b)[..|a + b| - 1] == a + c;
      LinesEventsAppend(a, c, extract);
      ConcatAssociative(LinesEvents(a, extract), LinesEvents(c, extract), LineEvents(x, extract));
    }
  }

  /** Every event of a run of lines carries a non-empty text. */
  lemma {:induction false} LinesEventsAreTexts(lines: seq<string>, extract: string -> Option<string>)
    ensures forall i :: 0 <= i < |LinesEvents(lines, extract)| ==>
              LinesEvents(lines, extract)[i].TextEvent? && LinesEvents(lines, extract)[i].text != ""
  {
    if lines != [] {
      LinesEventsAreTexts(lines[..|lines| - 1], extract);
    }
  }

  /** The event for the text left after the last line feed: sent raw, unless blank. */
  function Leftover(buffer: string): seq<Event> {
    if Trim(buffer) != "" then [RawEvent(buffer)] else []
  }

  /** The events the relay sends for a reply body (None: the reply has no body, and the
      stream is closed at once): the events of every complete line of the text read, then
      the leftover and `[DONE]` when the reads end with `done`, or only the stream error
      when a read rejects. */
  function Relayed(body: Option<Body>, extract: string -> Option<string>): seq<Event> {
    match body
    case None => []
    case Some(b) =>
      var (lines, rest) := SplitLines(Concat(b.chunks));
      LinesEvents(lines, extract)
      + (if b.failed then [StreamError] else Leftover(rest) + [DoneEvent])
  }

  /** `buffer += chunk; lines = buffer.split('\n'); buffer = lines.pop() || ''`: the complete
      lines, and the text after the last line feed, which holds no line feed; together
      they are the old buffer and the chunk, with no character lost. */
  method FeedChunk(buffer: string, chunk: string) returns (lines: seq<string>, rest: string)
    ensures (lines, rest) == SplitLines(buffer + chunk)
    ensures Unlines(lines) + rest == buffer + chunk && '\n' !in rest
  {
    var pieces := JsSplitLines(buffer + chunk);
    lines := pieces[..|pieces| - 1];
    rest := pieces[|pieces| - 1];
  }

  /** The inner `for (const line of lines)` loop: the events of each line, in order. */
  method EmitLines(lines: seq<string>, extract: string -> Option<string>)
    returns (events: seq<Event>)
    ensures events == LinesEvents(lines, extract)
  {
    events := [];
    for j := 0 to |lines|
      invariant events == LinesEvents(lines[..j], extract)
    {
      assert lines[..j + 1][..j] == lines[..j];
      events := events + LineEvents(lines[j], extract);
    }
    assert lines[..|lines|] == lines;
  }

  /** The `start()` of the relayed stream: read every chunk, send the events of each
      complete line, then the leftover and `[DONE]`. */
  method Relay(body: Option<Body>, extract: string -> Option<string>)
    returns (events: seq<Event>)
    ensures events == Relayed(body, extract)
  {
    events := [];
    if body.None? {
      return;
    }
    var chunks := body.value.chunks;
    var buffer := "";
    ghost var processed: seq<string> := [];
    var k := 0;
    while k < |chunks|
      invariant k <= |chunks|
      invariant (processed, buffer) == SplitLines(Concat(chunks[..k]))
      invariant events == LinesEvents(processed, extract)
    {
      var lines, rest := FeedChunk(buffer, chunks[k]);
      RelayStep(chunks, k, lines, rest);
      var emitted := EmitLines(lines, extract);
      LinesEventsAppend(processed, lines, extract);
      events := events + emitted;
      processed := processed + lines;
      buffer := rest;
      k := k + 1;
    }
    assert chunks[..k] == chunks;
    if body.value.failed {
      events := events + [StreamError];
    } else {
      events := events + Leftover(buffer) + [DoneEvent];
    }
  }

  /** One round of the read loop: splitting the carried buffer plus the next chunk
      continues the split of everything read so far. */
  lemma RelayStep(chunks: seq<string>, k: nat, lines: seq<string>, rest: string)
    requires k < |chunks|
    requires (lines, rest) == SplitLines(SplitLines(Concat(chunks[..k])).1 + chunks[k])
    ensures SplitLines(Concat(chunks[..k + 1]))
            == (SplitLines(Concat(chunks[..k])).0 + lines, rest)
  {
    assert chunks[..k + 1][..k] == chunks[..k];
    SplitLinesAppend(Concat(chunks[..k]), chunks[k]);
  }

  /** With a body, the stream ends with exactly one `[DONE]`, the last event; the event
      before it is the raw leftover exactly when the leftover is not blank, and every
      other event carries a non-empty text. */
  lemma RelayedShape(chunks: seq<string>, extract: string -> Option<string>)
    ensures var r := Relayed(Some(Body(chunks, false)), extract);
            var rest := SplitLines(Concat(chunks)).1;
            var n := |LinesEvents(SplitLines(Concat(chunks)).0, extract)|;
            |r| >= 1 && r[|r| - 1] == DoneEvent
            && (forall i :: 0 <= i < |r| - 1 ==> r[i] != DoneEvent)
            && (Trim(rest) != "" ==> |r| == n + 2 && r[n] == RawEvent(rest))
            && (Trim(rest) == "" ==> |r| == n + 1)
            && (forall i :: 0 <= i < n ==> r[i].TextEvent? && r[i].text != "")
  {
    var split := SplitLines(Concat(chunks));
    var texts := LinesEvents(split.0, extract);
    assert Relayed(Some(Body(chunks, false)), extract) == texts + (Leftover(split.1) + [DoneEvent]);
    LinesEventsAreTexts(split.0, extract);
    TailShape(texts, split.1);
  }

  /** Text events followed by the leftover and `[DONE]`: `[DONE]` is last and only last,
      and the leftover stands right before it when it is not blank. */
  lemma TailShape(texts: seq<Event>, rest: string)
    requires forall i :: 0 <= i < |texts| ==> texts[i].TextEvent? && texts[i].text != ""
    ensures var r := texts + (Leftover(rest) + [DoneEvent]);
            var n := |texts|;
            |r| >= 1 && r[|r| - 1] == DoneEvent
            && (forall i :: 0 <= i < |r| - 1 ==> r[i] != DoneEvent)
            && (Trim(rest) != "" ==> |r| == n + 2 && r[n] == RawEvent(rest))
            && (Trim(rest) == "" ==> |r| == n + 1)
            && (forall i :: 0 <= i < n ==> r[i].TextEvent? && r[i].text != "")
  {
    var tail := Leftover(rest) + [DoneEvent];
    var r := texts + tail;
    assert forall i :: 0 <= i < |texts| ==> r[i] == texts[i];
    assert forall i :: |texts| <= i < |r| ==> r[i] == tail[i - |texts|];
  }

  /** "Exactly one `[DONE]`" counts event values: a reply that is a single non-blank text
      with no line feed is relayed as that raw leftover and then the closing `DoneEvent`,
      whatever the text says; a leftover reading `[DONE]` thus reaches the client as a
      second `data: [DONE]` line. */
  lemma UnterminatedReplySentRaw(text: string, extract: string -> Option<string>)
    requires '\n' !in text && Trim(text) != ""
    ensures Relayed(Some(Body([text], false)), extract) == [RawEvent(text), DoneEvent]
  {
    var chunks := [text];
    assert chunks[..0] == [];
    assert Concat(chunks) == Concat([]) + text;
    assert Concat(chunks) == text;
    SplitLinesNoNewline(text);
    var split := SplitLines(Concat(chunks));
    assert split == ([], text);
    assert LinesEvents(split.0, extract) == [];
    assert Leftover(split.1) == [RawEvent(text)];
  }

  /** When a read rejects, the client has the events of the lines completed before the
      failure and then the stream error: no raw leftover and no `[DONE]`.  Those events
      are the ones a stream of the same chunks that ended normally starts with. */
  lemma FailedRelayedShape(chunks: seq<string>, extract: string -> Option<string>)
    ensures var r := Relayed(Some(Body(chunks, true)), extract);
            |r| >= 1 && r[|r| - 1] == StreamError
            && (forall i :: 0 <= i < |r| - 1 ==> r[i].TextEvent? && r[i].text != "")
            && r[..|r| - 1] <= Relayed(Some(Body(chunks, false)), extract)
  {
    var split := SplitLines(Concat(chunks));
    var lines, rest := split.0, split.1;
    var texts := LinesEvents(lines, extract);
    var r := texts + [StreamError];
    assert Relayed(Some(Body(chunks, true)), extract) == r;
    assert Relayed(Some(Body(chunks, false)), extract) == texts + (Leftover(rest) + [DoneEvent]);
    LinesEventsAreTexts(lines, extract);
    assert r[..|r| - 1] == texts;
  }

  /** How the reply is cut into chunks does not matter: the events are those of the whole
      text read as one chunk, whether the reads end normally or with a failure. */
  lemma ChunkingIrrelevant(chunks: seq<string>, failed: bool, extract: string -> Option<string>)
    ensures Relayed(Some(Body(chunks, failed)), extract)
            == Relayed(Some(Body([Concat(chunks)], failed)), extract)
  {
    assert [Concat(chunks)][..0] == [];
    assert Concat([Concat(chunks)]) == "" + Concat(chunks);
    assert "" + Concat(chunks) == Concat(chunks);
  }

  // ---------------------------------------------------------------------------
  // The handler

  /** What the call to the language model came to: it threw with a message, the reply
      was not OK, or an OK reply with its body (None when it has none). */
  datatype StreamReply =
    | Failed(message: string)
    | NotOk
    | Streaming(body: Option<Body>)

  /** What the function answers. */
  datatype ExtractResponse =
    | Rejected(status: nat, error: string)
    | Streamed(events: seq<Event>)

  const TranscriptError := "Transcript is required"
  const ExtractError := "Failed to extract key points"

  /** 400 without a transcript; 500 when the call fails or its reply is not OK; otherwise
      the relayed events. */
  function Response(transcript: string, sources: seq<SupportingSource>,
                    model: string -> StreamReply, extract: string -> Option<string>)
    : (r: ExtractResponse)
    ensures r.Rejected? && r.status == 400 <==> transcript == ""
    ensures r.Rejected? ==> r.status == 400 || r.status == 500
    ensures r.Streamed? <==> transcript != "" && model(Prompt(transcript, sources)).Streaming?
  {
    if transcript == "" then Rejected(400, TranscriptError)
    else match model(Prompt(transcript, sources))
      case Failed(message) => Rejected(500, message)
      case NotOk => Rejected(500, ExtractError)
      case Streaming(body) => Streamed(Relayed(body, extract))
  }

  /** The body of the `serve` handler after the request has been parsed. */
  method ExtractKeyPoints(transcript: string, sources: seq<SupportingSource>,
                          model: string -> StreamReply, extract: string -> Option<string>)
    returns (response: ExtractResponse)
    ensures response == Response(transcript, sources, model, extract)
  {
    if transcript == "" {
      return Rejected(400, TranscriptError);
    }
    var sourcesContext := "";
    if |sources| > 0 {
      sourcesContext := SourcesHeading + NumberedList(Labels(sources));
    }
    var reply := model(ExtractRequest + transcript + sourcesContext + BulletRequest);
    match reply
    case Failed(message) =>
      response := Rejected(500, message);
    case NotOk =>
      response := Rejected(500, ExtractError);
    case Streaming(body) =>
      var events := Relay(body, extract);
      response := Streamed(events);
  }
}
