/**
 * The chat relay endpoint (src/app/api/chat/route.ts). A POST carrying a
 * message opens a stream to the upstream weather agent, decodes its
 * newline-delimited `<prefix>:<json>` records, and re-emits the text tokens
 * as `start` / `chunk` / `complete` events, or an `error` event when the
 * upstream fails. The upstream is a `Fetch.Outcome`: the reads it delivers,
 * or the way it fails. The output stream is a `Controller` holding the
 * events enqueued so far.
 */
module Relay {
  import opened Common
  import opened Text
  import opened Json
  import opened Fetch

  datatype EventType = Start | Chunk | Complete | Error

  /** One server-sent event record `{type, content}` (the timestamp is not modelled). */
  datatype Event = Event(kind: EventType, content: Value)

  const ErrorPrefix: string := "Sorry, I encountered an error: "
  const StartEvent: Event := Event(Start, Str(""))
  const CompleteEvent: Event := Event(Complete, Str(""))

  function ErrorEvent(message: string): Event
  {
    Event(Error, Str(ErrorPrefix + message))
  }

  predicate Terminal(e: Event)
  {
    e.kind == Complete || e.kind == Error
  }

  // ---------------------------------------------------------------------------
  // Decoding upstream lines (:179-202, :132-148, :151-165)
  // ---------------------------------------------------------------------------

  /**
   * parseMastraStreamLine: split at the first colon, parse the payload, and
   * return it only for the text prefix "0"; `None` stands for every `null` return.
   */
  function ParseStreamLine(line: string, parse: Parser): (r: Option<Value>)
    ensures r.Some? <==> StartsWith(line, "0:") && parse(line[2..]).Some?
    ensures r.Some? ==> r == parse(line[2..])
  {
    TextPrefixAt(line);
    var colon := IndexOf(line, ':');
    if colon == -1 then None
    else
      var prefix, data := line[..colon], line[colon + 1..];
      match parse(data)
      case None => None
      case Some(v) => if prefix == "0" then Some(v) else None
  }

  /** The chunk event one complete line (or the final leftover) turns into, if any. */
  function LineEvent(line: string, parse: Parser): (r: Option<Event>)
    ensures r.Some? ==> Trim(line) != "" && r.value.kind == Chunk && Truthy(r.value.content)
    ensures r.Some? ==> ParseStreamLine(line, parse) == Some(r.value.content)
  {
    if Trim(line) == "" then None
    else
      match ParseStreamLine(line, parse)
      case Some(v) => if Truthy(v) then Some(Event(Chunk, v)) else None
      case None => None
  }

  /** A line starts with the text prefix `0:` exactly when its first colon follows a lone "0". */
  lemma TextPrefixAt(line: string)
    ensures StartsWith(line, "0:") <==> IndexOf(line, ':') == 1 && line[..1] == "0"
  {
    var i := IndexOf(line, ':');
    if StartsWith(line, "0:") {
      assert line[..2] == "0:";
      assert line[0] == '0' && line[1] == ':';
      assert forall j :: 0 <= j < i ==> line[j] != ':';
      assert line[..1] == "0";
    }
    if i == 1 && line[..1] == "0" {
      assert line[..2] == line[..1] + [line[1]];
    }
  }

  /** LineEvent as a function value. */
  function Decoder(parse: Parser): string -> Option<Event>
  {
    line => LineEvent(line, parse)
  }

  /** The chunk events of a run of lines, in line order. */
  function LineEvents(lines: seq<string>, parse: Parser): seq<Event>
  {
    Collect(lines, Decoder(parse))
  }

  // ---------------------------------------------------------------------------
  // What the relay emits
  // ---------------------------------------------------------------------------

  /** The message of the exception streamWeatherAgent throws, if it throws (:99-105, :122). */
  function Thrown(up: Outcome): Option<string>
  {
    match up
    case Rejected(m) => Some(m)
    case NotOk(status, detail) => Some("HTTP " + NatToString(status) + ": " + detail)
    case NoBody => Some("ReadableStream not supported.")
    case Body(_, failure) => failure
  }

  /**
   * The events streamWeatherAgent enqueues itself: nothing before the upstream
   * is established; then `start`, a chunk per forwarded line, and `complete`
   * once the body ends. A failing read stops it before the leftover line.
   */
  function Emitted(up: Outcome, parse: Parser): seq<Event>
  {
    match up
    case Body(chunks, failure) =>
      var lines := Split(Concat(chunks), '\n');
      if failure.None? then [StartEvent] + LineEvents(lines, parse) + [CompleteEvent]
      else [StartEvent] + LineEvents(Init(lines), parse)
    case _ => []
  }

  /** The event stream of an accepted POST: the emitted events, then an `error` event if streaming threw. */
  function RelayEvents(up: Outcome, parse: Parser): seq<Event>
  {
    Emitted(up, parse) +
    match Thrown(up)
    case Some(m) => [ErrorEvent(m)]
    case None => []
  }

  // ---------------------------------------------------------------------------
  // Server-sent-event framing (:35-43, :111-119)
  // ---------------------------------------------------------------------------

  function TypeName(kind: EventType): string
  {
    match kind
    case Start => "start"
    case Chunk => "chunk"
    case Complete => "complete"
    case Error => "error"
  }

  /** The object `JSON.stringify` is applied to for one event. */
  function EventJson(e: Event): Value
  {
    Obj(map["type" := Str(TypeName(e.kind)), "content" := e.content])
  }

  /** `data: <json>` followed by a blank line. */
  function Frame(e: Event, stringify: Printer): string
  {
    "data: " + stringify(EventJson(e)) + "\n\n"
  }

  /** The text of a whole event stream. */
  function Wire(events: seq<Event>, stringify: Printer): string
  {
    if |events| == 0 then "" else Wire(events[..|events| - 1], stringify) + Frame(events[|events| - 1], stringify)
  }

  // ---------------------------------------------------------------------------
  // The stream controller and the relay itself
  // ---------------------------------------------------------------------------

  /** The ReadableStream controller: the events enqueued so far, and whether it was closed. */
  class Controller {
    var events: seq<Event>
    var closed: bool

    constructor ()
      ensures events == [] && !closed
    {
      events := [];
      closed := false;
    }

    method Enqueue(e: Event)
      requires !closed
      modifies this
      ensures events == old(events) + [e] && !closed
    {
      events := events + [e];
    }

    method Close()
      modifies this
      ensures closed && events == old(events)
    {
      closed := true;
    }
  }

  /** The inner loop over complete lines (:132-148), also applied to the leftover buffer (:151-165). */
  method ForwardLines(lines: seq<string>, parse: Parser, controller: Controller)
    requires !controller.closed
    modifies controller
    ensures !controller.closed
    ensures controller.events == old(controller.events) + LineEvents(lines, parse)
  {
    var j := 0;
    while j < |lines|
      invariant 0 <= j <= |lines|
      invariant !controller.closed
      invariant controller.events == old(controller.events) + LineEvents(lines[..j], parse)
    {
      assert lines[..j + 1][..j] == lines[..j];
      var line := lines[j];
      if Trim(line) != "" {
        var parsed := ParseStreamLine(line, parse);
        if parsed.Some? && Truthy(parsed.value) {
          controller.Enqueue(Event(Chunk, parsed.value));
        }
      }
      j := j + 1;
    }
    assert lines[..j] == lines;
  }

  /** The line buffer after the reads `chunks`, read by read (:125-130). */
  ghost function Pending(chunks: seq<string>): string
  {
    if |chunks| == 0 then ""
    else Last(Split(Pending(chunks[..|chunks| - 1]) + chunks[|chunks| - 1], '\n'))
  }

  /** The complete lines taken from the buffer during the reads `chunks`, read by read. */
  ghost function Taken(chunks: seq<string>): seq<string>
  {
    if |chunks| == 0 then []
    else Taken(chunks[..|chunks| - 1]) + Init(Split(Pending(chunks[..|chunks| - 1]) + chunks[|chunks| - 1], '\n'))
  }

  /**
   * The buffer loses nothing and invents nothing: however the body is cut
   * into reads, the lines taken are the complete lines of the whole body and
   * the buffer holds its unterminated rest.
   */
  lemma {:induction false} BufferedLines(chunks: seq<string>)
    ensures Pending(chunks) == Last(Split(Concat(chunks), '\n'))
    ensures Taken(chunks) == Init(Split(Concat(chunks), '\n'))
  {
    if |chunks| > 0 {
      var n := |chunks| - 1;
      BufferedLines(chunks[..n]);
      var whole := Split(Concat(chunks[..n]), '\n');
      var next := Split(Last(whole) + chunks[n], '\n');
      SplitAppend(Concat(chunks[..n]), chunks[n], '\n');
      assert Split(Concat(chunks), '\n') == Init(whole) + next;
      InitLastAppend(Init(whole), next);
    }
  }

  /**
   * One read (:124-149): append it to the buffer, forward the complete lines,
   * keep the rest. `earlier` are the reads before this one.
   */
  method Receive(ghost start: seq<Event>, ghost earlier: seq<string>, buffer: string, chunk: string,
                 parse: Parser, controller: Controller) returns (rest: string)
    requires !controller.closed
    requires buffer == Pending(earlier)
    requires controller.events == start + LineEvents(Taken(earlier), parse)
    modifies controller
    ensures !controller.closed
    ensures rest == Pending(earlier + [chunk])
    ensures controller.events == start + LineEvents(Taken(earlier + [chunk]), parse)
  {
    var lines := Split(buffer + chunk, '\n');
    rest := lines[|lines| - 1];
    ReceiveStep(start, earlier, chunk, Decoder(parse));
    ForwardLines(Init(lines), parse, controller);
  }

  /** One more read, in terms of the reads before it. */
  lemma PendingTakenStep(earlier: seq<string>, chunk: string)
    ensures Pending(earlier + [chunk]) == Last(Split(Pending(earlier) + chunk, '\n'))
    ensures Taken(earlier + [chunk]) == Taken(earlier) + Init(Split(Pending(earlier) + chunk, '\n'))
  {
    var all := earlier + [chunk];
    assert all[..|all| - 1] == earlier;
    assert all[|all| - 1] == chunk;
  }

  /** What Receive adds to the buffer and to the stream, read by read. */
  lemma ReceiveStep(start: seq<Event>, earlier: seq<string>, chunk: string, decode: string -> Option<Event>)
    ensures var lines := Split(Pending(earlier) + chunk, '\n');
            && Pending(earlier + [chunk]) == lines[|lines| - 1]
            && start + Collect(Taken(earlier), decode) + Collect(Init(lines), decode)
               == start + Collect(Taken(earlier + [chunk]), decode)
  {
    var lines := Init(Split(Pending(earlier) + chunk, '\n'));
    PendingTakenStep(earlier, chunk);
    CollectAppend(Taken(earlier), lines, decode);
    Regroup(start, Collect(Taken(earlier), decode), Collect(lines, decode));
  }

  /** The events of the body's lines, as the read loop and the leftover buffer forward them. */
  lemma DrainStep(chunks: seq<string>, decode: string -> Option<Event>)
    ensures Collect(Taken(chunks), decode) == Collect(Init(Split(Concat(chunks), '\n')), decode)
    ensures Collect(Taken(chunks), decode) + Collect([Pending(chunks)], decode)
            == Collect(Split(Concat(chunks), '\n'), decode)
  {
    BufferedLines(chunks);
    var lines := Split(Concat(chunks), '\n');
    InitLast(lines);
    CollectAppend(Init(lines), [Last(lines)], decode);
  }

  /** The read loop (:124-149): returns the unterminated rest of the body. */
  method ReadLoop(chunks: seq<string>, parse: Parser, controller: Controller) returns (buffer: string)
    requires !controller.closed
    modifies controller
    ensures !controller.closed
    ensures buffer == Pending(chunks)
    ensures controller.events == old(controller.events) + LineEvents(Taken(chunks), parse)
  {
    buffer := "";
    ghost var start := controller.events;
    var i := 0;
    while i < |chunks|
      invariant 0 <= i <= |chunks|
      invariant !controller.closed
      invariant buffer == Pending(chunks[..i])
      invariant controller.events == start + LineEvents(Taken(chunks[..i]), parse)
    {
      buffer := Receive(start, chunks[..i], buffer, chunks[i], parse, controller);
      assert chunks[..i] + [chunks[i]] == chunks[..i + 1];
      i := i + 1;
    }
    assert chunks[..|chunks|] == chunks;
  }

  /** The body part of streamWeatherAgent (:122-172): `start`, the forwarded lines, `complete`. */
  method StreamBody(chunks: seq<string>, failure: Option<string>, parse: Parser, controller: Controller)
    requires !controller.closed
    modifies controller
    ensures !controller.closed
    ensures controller.events == old(controller.events) + Emitted(Body(chunks, failure), parse)
  {
    controller.Enqueue(StartEvent);
    var buffer := ReadLoop(chunks, parse, controller);
    StreamBodyEvents(old(controller.events), chunks, failure, parse);
    if failure.Some? {
      return;
    }
    ForwardLines([buffer], parse, controller);
    controller.Enqueue(CompleteEvent);
  }

  /** The events StreamBody enqueues, grouped as Emitted groups them. */
  lemma StreamBodyEvents(start: seq<Event>, chunks: seq<string>, failure: Option<string>, parse: Parser)
    ensures failure.Some? ==>
              start + [StartEvent] + LineEvents(Taken(chunks), parse) == start + Emitted(Body(chunks, failure), parse)
    ensures failure.None? ==>
              start + [StartEvent] + LineEvents(Taken(chunks), parse) + LineEvents([Pending(chunks)], parse) + [CompleteEvent]
              == start + Emitted(Body(chunks, failure), parse)
  {
    var lines := Split(Concat(chunks), '\n');
    DrainStep(chunks, Decoder(parse));
    EmittedBody(chunks, failure, parse);
    Regroup(start, [StartEvent], LineEvents(Init(lines), parse));
    Regroup(start, [StartEvent], LineEvents(lines, parse));
    Regroup(start, [StartEvent] + LineEvents(lines, parse), [CompleteEvent]);
    Regroup(start + [StartEvent], LineEvents(Taken(chunks), parse), LineEvents([Pending(chunks)], parse));
  }

  lemma EmittedBody(chunks: seq<string>, failure: Option<string>, parse: Parser)
    ensures var lines := Split(Concat(chunks), '\n');
            Emitted(Body(chunks, failure), parse) ==
              if failure.None? then [StartEvent] + LineEvents(lines, parse) + [CompleteEvent]
              else [StartEvent] + LineEvents(Init(lines), parse)
  {
  }

  /** streamWeatherAgent (:66-177): establish the upstream, then relay its body line by line. */
  method StreamWeatherAgent(up: Outcome, parse: Parser, controller: Controller) returns (thrown: Option<string>)
    requires !controller.closed
    modifies controller
    ensures !controller.closed
    ensures thrown == Thrown(up)
    ensures controller.events == old(controller.events) + Emitted(up, parse)
  {
    match up {
      case Rejected(m) =>
        thrown := Some(m);
      case NotOk(status, detail) =>
        thrown := Some("HTTP " + NatToString(status) + ": " + detail);
      case NoBody =>
        thrown := Some("ReadableStream not supported.");
      case Body(chunks, failure) =>
        StreamBody(chunks, failure, parse, controller);
        thrown := failure;
    }
  }

  /** The request body as `request.json()` delivers it. */
  datatype Request = Unreadable(reason: string) | Parsed(body: Value)

  /** What POST answers: status 400, status 500 (with the error's message when known), or an event stream. */
  datatype Response = BadRequest | ServerError(details: Option<string>) | Streamed(events: seq<Event>, closed: bool)

  /** The message of a body POST accepts: a non-empty string under `message` (:22-26). */
  function AcceptedMessage(body: Value): Option<string>
  {
    match Member(body, "message")
    case Defined(Str(s)) => if s != "" then Some(s) else None
    case _ => None
  }

  /**
   * POST (:20-64): validate the body, run the relay, turn an exception into
   * one `error` event, and close the stream in every case.
   */
  method Post(request: Request, up: Outcome, parse: Parser) returns (response: Response)
    ensures request.Unreadable? ==> response == ServerError(Some(request.reason))
    ensures request.Parsed? && request.body.Null? ==> response == ServerError(None)
    ensures request.Parsed? && !request.body.Null? && AcceptedMessage(request.body).None? ==> response == BadRequest
    ensures request.Parsed? && AcceptedMessage(request.body).Some? ==> response == Streamed(RelayEvents(up, parse), true)
  {
    match request {
      case Unreadable(reason) =>
        response := ServerError(Some(reason));
      case Parsed(body) =>
        var message := Member(body, "message");
        if message.Throws? {
          response := ServerError(None);
          return;
        }
        if !(message.Defined? && message.value.Str? && message.value.s != "") {
          response := BadRequest;
          return;
        }
        var controller := new Controller();
        var thrown := StreamWeatherAgent(up, parse, controller);
        if thrown.Some? {
          controller.Enqueue(ErrorEvent(thrown.value));
        }
        controller.Close();
        response := Streamed(controller.events, controller.closed);
    }
  }

  // ---------------------------------------------------------------------------
  // Properties
  // ---------------------------------------------------------------------------

  lemma LineEventsAppend(a: seq<string>, b: seq<string>, parse: Parser)
    ensures LineEvents(a + b, parse) == LineEvents(a, parse) + LineEvents(b, parse)
  {
    CollectAppend(a, b, Decoder(parse));
  }

  /** Only chunk events come out of lines, and only with truthy content. */
  lemma {:induction false} LineEventsAreChunks(lines: seq<string>, parse: Parser)
    ensures |LineEvents(lines, parse)| <= |lines|
    ensures forall k :: 0 <= k < |LineEvents(lines, parse)| ==>
              LineEvents(lines, parse)[k].kind == Chunk && Truthy(LineEvents(lines, parse)[k].content)
  {
    if |lines| > 0 {
      LineEventsAreChunks(lines[..|lines| - 1], parse);
      assert LineEvents(lines, parse) == LineEvents(lines[..|lines| - 1], parse) +
        match LineEvent(lines[|lines| - 1], parse)
        case Some(e) => [e]
        case None => [];
    }
  }

  /** A line without a colon decodes to nothing. */
  lemma ParseWithoutColon(line: string, parse: Parser)
    requires ':' !in line
    ensures ParseStreamLine(line, parse) == None
  {
  }

  /** A text line decodes to its parsed payload, even when the payload holds colons itself. */
  lemma ParseTextLine(payload: string, parse: Parser)
    ensures ParseStreamLine("0:" + payload, parse) == parse(payload)
  {
    IndexOfAfter("0", ':', payload);
    assert "0:" + payload == "0" + [':'] + payload;
    assert ("0:" + payload)[..1] == "0";
    assert ("0:" + payload)[2..] == payload;
  }

  /** A line with any prefix other than "0" decodes to nothing, whatever its payload. */
  lemma ParseOtherPrefix(prefix: string, payload: string, parse: Parser)
    requires ':' !in prefix && prefix != "0"
    ensures ParseStreamLine(prefix + ":" + payload, parse) == None
  {
    IndexOfAfter(prefix, ':', payload);
    assert prefix + ":" + payload == prefix + [':'] + payload;
    assert (prefix + ":" + payload)[..|prefix|] == prefix;
  }

  /** The example text line `0:"Hello"` forwards `Hello`. */
  lemma ParseHelloLine(parse: Parser)
    requires parse("\"Hello\"") == Some(Str("Hello"))
    ensures ParseStreamLine("0:\"Hello\"", parse) == Some(Str("Hello"))
  {
    var payload := "\"Hello\"";
    ParseTextLine(payload, parse);
    assert "0:" + payload == "0:\"Hello\"";
  }

  /** A tool-call line such as `9:{}` forwards nothing. */
  lemma ParseToolCallLine(parse: Parser)
    ensures ParseStreamLine("9:{}", parse) == None
  {
    ParseOtherPrefix("9", "{}", parse);
    assert "9" + ":" + "{}" == "9:{}";
  }

  /** Blank lines and lines whose token is falsy (such as `0:""`) produce no event. */
  lemma SilentLines(line: string, parse: Parser)
    requires AllSpace(line) || (ParseStreamLine(line, parse).Some? && !Truthy(ParseStreamLine(line, parse).value))
    ensures LineEvent(line, parse) == None
  {
    TrimEmpty(line);
  }

  /**
   * Every event stream has the documented shape: a `start` first exactly when
   * the upstream was established, chunks in between, and one terminal event,
   * last: `complete` exactly when the upstream body ended normally.
   */
  lemma RelayShape(up: Outcome, parse: Parser)
    ensures var ev := RelayEvents(up, parse);
            && |ev| >= 1
            && (ev[0].kind == Start <==> up.Body?)
            && (ev[|ev| - 1].kind == Complete <==> up.Body? && up.failure.None?)
            && Terminal(ev[|ev| - 1])
            && (forall k :: 0 < k < |ev| - 1 ==> ev[k].kind == Chunk)
            && (!up.Body? ==> ev == [ErrorEvent(Thrown(up).value)])
  {
    var ev := RelayEvents(up, parse);
    if up.Body? {
      var lines := Split(Concat(up.chunks), '\n');
      var middle := if up.failure.None? then lines else Init(lines);
      LineEventsAreChunks(middle, parse);
      var last := if up.failure.None? then CompleteEvent else ErrorEvent(up.failure.value);
      assert ev == [StartEvent] + LineEvents(middle, parse) + [last];
      forall k | 0 < k < |ev| - 1
        ensures ev[k].kind == Chunk
      {
        assert ev[k] == LineEvents(middle, parse)[k - 1];
      }
    }
  }

  /**
   * Text lines joined by newlines, in one read or in any other chunking,
   * forward exactly their non-empty string tokens in order, between `start`
   * and `complete`.
   */
  lemma {:induction false} ForwardsTextLines(payloads: seq<string>, tokens: seq<string>, parse: Parser)
    requires |payloads| == |tokens|
    requires forall k :: 0 <= k < |payloads| ==> '\n' !in payloads[k]
    requires forall k :: 0 <= k < |payloads| ==> parse(payloads[k]) == Some(Str(tokens[k])) && tokens[k] != ""
    ensures LineEvents(TextLines(payloads), parse) == ChunkEvents(tokens)
  {
    if |payloads| > 0 {
      var n := |payloads| - 1;
      ForwardsTextLines(payloads[..n], tokens[..n], parse);
      var line := "0:" + payloads[n];
      assert TextLines(payloads)[..n] == TextLines(payloads[..n]);
      ParseTextLine(payloads[n], parse);
      assert line[0] == '0';
      TrimEmpty(line);
    }
  }

  /** `0:<payload>` for every payload. */
  function TextLines(payloads: seq<string>): (lines: seq<string>)
    ensures |lines| == |payloads|
  {
    seq(|payloads|, k requires 0 <= k < |payloads| => "0:" + payloads[k])
  }

  function ChunkEvents(tokens: seq<string>): seq<Event>
  {
    if |tokens| == 0 then [] else ChunkEvents(tokens[..|tokens| - 1]) + [Event(Chunk, Str(tokens[|tokens| - 1]))]
  }

  /** The whole relay on text lines: `start`, one chunk per token, `complete`. */
  lemma RelayForwardsText(chunks: seq<string>, payloads: seq<string>, tokens: seq<string>, parse: Parser)
    requires |payloads| >= 1 && |payloads| == |tokens|
    requires Concat(chunks) == Join(TextLines(payloads), "\n")
    requires forall k :: 0 <= k < |payloads| ==> '\n' !in payloads[k]
    requires forall k :: 0 <= k < |payloads| ==> parse(payloads[k]) == Some(Str(tokens[k])) && tokens[k] != ""
    ensures RelayEvents(Body(chunks, None), parse) == [StartEvent] + ChunkEvents(tokens) + [CompleteEvent]
  {
    var lines := TextLines(payloads);
    forall k | 0 <= k < |lines|
      ensures '\n' !in lines[k]
    {
      assert lines[k] == "0:" + payloads[k];
    }
    SplitJoin(lines, '\n');
    ForwardsTextLines(payloads, tokens, parse);
  }

  lemma HelloWorldLines(payloads: seq<string>)
    requires payloads == ["\"Hello\"", "\" world\""]
    ensures Join(TextLines(payloads), "\n") == "0:\"Hello\"\n0:\" world\""
  {
    var lines := TextLines(payloads);
    assert lines[0] == "0:\"Hello\"";
    assert lines[1] == "0:\" world\"";
    assert lines[1..] == ["0:\" world\""];
  }

  /** `0:"Hello"` then `0:" world"`, split across reads anywhere, relay as two chunks. */
  lemma HelloWorld(chunks: seq<string>, parse: Parser)
    requires Concat(chunks) == "0:\"Hello\"\n0:\" world\""
    requires parse("\"Hello\"") == Some(Str("Hello")) && parse("\" world\"") == Some(Str(" world"))
    ensures RelayEvents(Body(chunks, None), parse) ==
            [StartEvent, Event(Chunk, Str("Hello")), Event(Chunk, Str(" world")), CompleteEvent]
  {
    var payloads, tokens := ["\"Hello\"", "\" world\""], ["Hello", " world"];
    HelloWorldLines(payloads);
    HelloWorldPayloads(payloads, tokens, parse);
    HelloWorldChunks(tokens);
    RelayForwardsText(chunks, payloads, tokens, parse);
    var hello, world := Event(Chunk, Str("Hello")), Event(Chunk, Str(" world"));
    assert [StartEvent] + [hello, world] + [CompleteEvent] == [StartEvent, hello, world, CompleteEvent];
  }

  lemma HelloWorldPayloads(payloads: seq<string>, tokens: seq<string>, parse: Parser)
    requires payloads == ["\"Hello\"", "\" world\""] && tokens == ["Hello", " world"]
    requires parse("\"Hello\"") == Some(Str("Hello")) && parse("\" world\"") == Some(Str(" world"))
    ensures forall k :: 0 <= k < |payloads| ==> '\n' !in payloads[k]
    ensures forall k :: 0 <= k < |payloads| ==> parse(payloads[k]) == Some(Str(tokens[k])) && tokens[k] != ""
  {
    assert '\n' !in payloads[0] && '\n' !in payloads[1];
  }

  lemma HelloWorldChunks(tokens: seq<string>)
    requires tokens == ["Hello", " world"]
    ensures ChunkEvents(tokens) == [Event(Chunk, Str("Hello")), Event(Chunk, Str(" world"))]
  {
    var first: seq<string> := ["Hello"];
    assert tokens[..1] == first;
    assert first[..0] == [];
    assert ChunkEvents(first) == [Event(Chunk, Str("Hello"))];
  }
}
