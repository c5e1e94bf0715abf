/**
 * How sendMessage reads the relay's event stream
 * (src/hooks/use-chat-store.ts:283-426): every read is split on "\n" by
 * itself, with no buffer carried across reads; each `data: <json>` line is
 * parsed and acted on by its `type`. `Fold` says, for a run of actions, what
 * the agent message shows and whether the store is still streaming.
 */
module ClientStream {
  import opened Common
  import opened Text
  import opened Json
  import Fetch
  import Chat
  import Relay

  /** What one event line does to the agent message. */
  datatype Action =
    /** A `chunk` event with truthy content: append its text. */
    | Append(text: string)
    /** A `complete` event: stop streaming. */
    | Finish
    /** An `error` event: show its content and stop streaming. */
    | Fail(content: string)

  const DataPrefix: string := "data: "

  /** The event `type` each action answers to. */
  function EventName(a: Action): string
  {
    match a
    case Append(_) => "chunk"
    case Finish => "complete"
    case Fail(_) => "error"
  }

  /**
   * One line of a read (:309-378). Lines without the prefix, payloads that do
   * not parse, a `null` payload (reading `.type` throws into the same catch)
   * and unknown types do nothing. A missing `content` of an `error` event is
   * taken as the empty string.
   */
  function LineAction(line: string, parse: Parser): (r: Option<Action>)
    ensures r.Some? ==> StartsWith(line, DataPrefix) && parse(line[|DataPrefix|..]).Some?
    ensures r.Some? ==> Member(parse(line[|DataPrefix|..]).value, "type") == Defined(Str(EventName(r.value)))
  {
    if !StartsWith(line, DataPrefix) then None
    else match parse(line[|DataPrefix|..])
      case None => None
      case Some(data) =>
        var kind, content := Member(data, "type"), Member(data, "content");
        if kind.Throws? then None
        else if kind == Defined(Str("chunk")) && content.Defined? && Truthy(content.value) then
          Some(Append(ToText(content.value)))
        else if kind == Defined(Str("complete")) then Some(Finish)
        else if kind == Defined(Str("error")) then
          Some(Fail(if content.Defined? then ToText(content.value) else ""))
        else None
  }

  /** LineAction as a function value. */
  function Reader(parse: Parser): string -> Option<Action>
  {
    line => LineAction(line, parse)
  }

  /** The actions of a run of lines, in order. */
  function LineActions(lines: seq<string>, parse: Parser): seq<Action>
  {
    Collect(lines, Reader(parse))
  }

  /** The actions of a run of reads: each read is split on its own (:307-308). */
  function Actions(chunks: seq<string>, parse: Parser): seq<Action>
  {
    if |chunks| == 0 then []
    else Actions(chunks[..|chunks| - 1], parse) + LineActions(Split(chunks[|chunks| - 1], '\n'), parse)
  }

  /** The read loop's state: `accumulatedContent`, the agent message's content, and `isLoading`. */
  datatype Progress = Progress(accumulated: string, content: string, streaming: bool)

  /** Right after the exchange is posted: empty agent message, loading. */
  const Initial: Progress := Progress("", "", true)

  function Step(p: Progress, a: Action): Progress
  {
    match a
    case Append(t) => Progress(p.accumulated + t, p.accumulated + t, p.streaming)
    case Finish => p.(streaming := false)
    case Fail(c) => p.(content := c, streaming := false)
  }

  function Fold(p: Progress, actions: seq<Action>): Progress
  {
    if |actions| == 0 then p else Step(Fold(p, actions[..|actions| - 1]), actions[|actions| - 1])
  }

  /** The agent message after a thrown failure (:393). */
  function FailureText(message: string): string
  {
    "Sorry, I encountered an error: " + message + ". Please try again."
  }

  /** The message of the error sendMessage's try block throws, if it throws (:283-301, reads). */
  function Thrown(up: Fetch.Outcome): Option<string>
  {
    match up
    case Rejected(m) => Some(m)
    case NotOk(status, detail) => Some("HTTP " + NatToString(status) + ": " + detail)
    case NoBody => Some("ReadableStream not supported")
    case Body(_, failure) => failure
  }

  /** How a send ends: the user message's status, the agent message's content, and whether it is still loading. */
  datatype Settled = Settled(userStatus: Chat.Status, content: string, streaming: bool)

  /** What the store shows while the read loop is at `p`: the user message is delivered. */
  function Showing(p: Progress): Settled
  {
    Settled(Chat.Delivered, p.content, p.streaming)
  }

  function Settle(up: Fetch.Outcome, parse: Parser): Settled
  {
    match Thrown(up)
    case Some(m) => Settled(Chat.Failed, FailureText(m), false)
    case None => Showing(Fold(Initial, Actions(up.chunks, parse)))
  }

  // ---------------------------------------------------------------------------
  // Unfolding steps
  // ---------------------------------------------------------------------------

  lemma LineActionsStep(lines: seq<string>, j: nat, parse: Parser)
    requires j < |lines|
    ensures LineActions(lines[..j + 1], parse) == LineActions(lines[..j], parse) + Opt(LineAction(lines[j], parse))
  {
    assert lines[..j + 1][..j] == lines[..j];
  }

  lemma ActionsStep(chunks: seq<string>, i: nat, parse: Parser)
    requires i < |chunks|
    ensures Actions(chunks[..i + 1], parse) == Actions(chunks[..i], parse) + LineActions(Split(chunks[i], '\n'), parse)
  {
    assert chunks[..i + 1][..i] == chunks[..i];
  }

  lemma FoldSnoc(p: Progress, actions: seq<Action>, a: Action)
    ensures Fold(p, actions + [a]) == Step(Fold(p, actions), a)
  {
    assert (actions + [a])[..|actions|] == actions;
  }

  lemma {:induction false} FoldAppend(p: Progress, a: seq<Action>, b: seq<Action>)
    ensures Fold(p, a + b) == Fold(Fold(p, a), b)
  {
    if |b| == 0 {
      assert a + b == a;
    } else {
      var n := |b| - 1;
      FoldAppend(p, a, b[..n]);
      assert (a + b)[..|a + b| - 1] == a + b[..n];
    }
  }

  lemma LineActionsAppend(a: seq<string>, b: seq<string>, parse: Parser)
    ensures LineActions(a + b, parse) == LineActions(a, parse) + LineActions(b, parse)
  {
    CollectAppend(a, b, Reader(parse));
  }

  lemma LineActionsSingle(line: string, parse: Parser)
    ensures LineActions([line], parse) == Opt(LineAction(line, parse))
  {
    assert [line][..0] == [];
    assert Collect([line], Reader(parse)) == Collect([], Reader(parse)) + Opt(Reader(parse)(line));
  }

  /** A blank line does nothing. */
  lemma LineActionsBlank(lines: seq<string>, parse: Parser)
    ensures LineActions(lines + [""], parse) == LineActions(lines, parse)
  {
    assert (lines + [""])[..|lines|] == lines;
  }

  // ---------------------------------------------------------------------------
  // What the actions do
  // ---------------------------------------------------------------------------

  /** The texts of the appends among `actions`, concatenated in order. */
  function Appended(actions: seq<Action>): string
  {
    if |actions| == 0 then ""
    else Appended(actions[..|actions| - 1]) + match actions[|actions| - 1] case Append(t) => t case _ => ""
  }

  /** The accumulated text is every chunk's text in order, whatever completes or fails in between. */
  lemma {:induction false} Accumulates(p: Progress, actions: seq<Action>)
    ensures Fold(p, actions).accumulated == p.accumulated + Appended(actions)
  {
    if |actions| > 0 {
      Accumulates(p, actions[..|actions| - 1]);
    }
  }

  /** Loading stays on exactly until a `complete` or an `error` event. */
  lemma {:induction false} StreamingUntilTerminal(p: Progress, actions: seq<Action>)
    ensures Fold(p, actions).streaming <==> p.streaming && forall k :: 0 <= k < |actions| ==> actions[k].Append?
  {
    if |actions| > 0 {
      var n := |actions| - 1;
      StreamingUntilTerminal(p, actions[..n]);
      assert forall k :: 0 <= k < n ==> actions[..n][k] == actions[k];
    }
  }

  /** While only chunks arrive, the agent message shows the accumulated text (once there is one). */
  lemma {:induction false} ChunksShowAccumulated(p: Progress, actions: seq<Action>)
    requires |actions| > 0 && forall k :: 0 <= k < |actions| ==> actions[k].Append?
    ensures Fold(p, actions).content == p.accumulated + Appended(actions)
  {
    Accumulates(p, actions);
  }

  /** An `error` event's content replaces the agent message and stops loading. */
  lemma ErrorOverwrites(p: Progress, actions: seq<Action>, content: string)
    ensures Fold(p, actions + [Fail(content)]).content == content
    ensures !Fold(p, actions + [Fail(content)]).streaming
    ensures Fold(p, actions + [Fail(content)]).accumulated == Fold(p, actions).accumulated
  {
    FoldSnoc(p, actions, Fail(content));
  }

  /** A chunk after an error still shows the whole accumulated text. */
  lemma ChunkAfterError(p: Progress, actions: seq<Action>, content: string, t: string)
    ensures Fold(p, actions + [Fail(content), Append(t)]).content == Fold(p, actions).accumulated + t
    ensures !Fold(p, actions + [Fail(content), Append(t)]).streaming
  {
    assert actions + [Fail(content), Append(t)] == actions + [Fail(content)] + [Append(t)];
    FoldSnoc(p, actions + [Fail(content)], Append(t));
    FoldSnoc(p, actions, Fail(content));
  }

  /** Every thrown failure ends the send with the apology text, a failed user message and no loading. */
  lemma FailureSettles(up: Fetch.Outcome, parse: Parser)
    requires !up.Body? || up.failure.Some?
    ensures Settle(up, parse).userStatus == Chat.Failed && !Settle(up, parse).streaming
    ensures exists m :: Settle(up, parse).content == FailureText(m)
  {
    var m := Thrown(up).value;
    assert Settle(up, parse).content == FailureText(m);
  }

  // ---------------------------------------------------------------------------
  // Reading the relay's output
  // ---------------------------------------------------------------------------

  /** What the client does on one of the relay's events. */
  function EventAction(e: Relay.Event): Option<Action>
  {
    match e.kind
    case Start => None
    case Chunk => if Truthy(e.content) then Some(Append(ToText(e.content))) else None
    case Complete => Some(Finish)
    case Error => Some(Fail(ToText(e.content)))
  }

  function EventActions(events: seq<Relay.Event>): seq<Action>
  {
    if |events| == 0 then []
    else EventActions(events[..|events| - 1]) + Opt(EventAction(events[|events| - 1]))
  }

  /** `JSON.parse` reads back what `JSON.stringify` wrote for these events, and that text has no newline. */
  ghost predicate FramesReadBack(events: seq<Relay.Event>, stringify: Printer, parse: Parser)
  {
    forall k :: 0 <= k < |events| ==>
      var text := stringify(Relay.EventJson(events[k]));
      parse(text) == Some(Relay.EventJson(events[k])) && '\n' !in text
  }

  /** The lines of a run of frames: each frame is its data line and a blank line. */
  function FrameLines(events: seq<Relay.Event>, stringify: Printer): seq<string>
  {
    if |events| == 0 then []
    else FrameLines(events[..|events| - 1], stringify) + [DataPrefix + stringify(Relay.EventJson(events[|events| - 1])), ""]
  }

  lemma {:induction false} WireSplits(events: seq<Relay.Event>, stringify: Printer, parse: Parser)
    requires FramesReadBack(events, stringify, parse)
    ensures Split(Relay.Wire(events, stringify), '\n') == FrameLines(events, stringify) + [""]
  {
    if |events| > 0 {
      var n := |events| - 1;
      var before, e := events[..n], events[n];
      var text := stringify(Relay.EventJson(e));
      assert FramesReadBack(before, stringify, parse) by {
        assert forall k :: 0 <= k < n ==> before[k] == events[k];
      }
      WireSplits(before, stringify, parse);
      var w := Relay.Wire(before, stringify);
      var line := DataPrefix + text;
      var frame := Relay.Frame(e, stringify);
      assert frame == line + ['\n'] + ("" + ['\n'] + "");
      assert '\n' !in line;
      SplitAfterPiece(line, "" + ['\n'] + "", '\n');
      SplitAfterPiece("", "", '\n');
      assert Split(frame, '\n') == [line, "", ""];
      SplitAppend(w, frame, '\n');
      var q := FrameLines(before, stringify) + [""];
      assert Init(q) == FrameLines(before, stringify) && Last(q) == "";
      assert "" + frame == frame;
      assert Split(w + frame, '\n') == FrameLines(before, stringify) + [line, "", ""];
      Regroup(FrameLines(before, stringify), [line, ""], [""]);
    }
  }

  /** The data line of a frame yields the event's action. */
  lemma FrameLineAction(e: Relay.Event, stringify: Printer, parse: Parser)
    requires parse(stringify(Relay.EventJson(e))) == Some(Relay.EventJson(e))
    ensures LineAction(DataPrefix + stringify(Relay.EventJson(e)), parse) == EventAction(e)
  {
    var line := DataPrefix + stringify(Relay.EventJson(e));
    assert line[..|DataPrefix|] == DataPrefix;
    assert line[|DataPrefix|..] == stringify(Relay.EventJson(e));
  }

  lemma {:induction false} FrameLinesActions(events: seq<Relay.Event>, stringify: Printer, parse: Parser)
    requires FramesReadBack(events, stringify, parse)
    ensures LineActions(FrameLines(events, stringify), parse) == EventActions(events)
  {
    if |events| > 0 {
      var n := |events| - 1;
      var before, e := events[..n], events[n];
      assert FramesReadBack(before, stringify, parse) by {
        assert forall k :: 0 <= k < n ==> before[k] == events[k];
      }
      FrameLinesActions(before, stringify, parse);
      var line := DataPrefix + stringify(Relay.EventJson(e));
      var front := FrameLines(before, stringify);
      assert FrameLines(events, stringify) == front + [line] + [""];
      LineActionsBlank(front + [line], parse);
      LineActionsAppend(front, [line], parse);
      LineActionsSingle(line, parse);
      FrameLineAction(e, stringify, parse);
      assert EventActions(events) == EventActions(before) + Opt(EventAction(e));
    }
  }

  /**
   * The relay's whole output, received in one read, makes the client act on
   * every event in order, and on nothing else.
   */
  lemma WireActions(events: seq<Relay.Event>, stringify: Printer, parse: Parser)
    requires FramesReadBack(events, stringify, parse)
    ensures Actions([Relay.Wire(events, stringify)], parse) == EventActions(events)
  {
    var w := Relay.Wire(events, stringify);
    assert [w][..0] == [];
    WireSplits(events, stringify, parse);
    LineActionsAppend(FrameLines(events, stringify), [""], parse);
    FrameLinesActions(events, stringify, parse);
  }

  /**
   * The client keeps no buffer across reads: a frame whose first read ends
   * inside its `data: ` prefix is lost.
   */
  lemma SplitFrameIsLost(e: Relay.Event, stringify: Printer, parse: Parser, k: nat)
    requires 0 < k < |DataPrefix|
    requires '\n' !in stringify(Relay.EventJson(e))
    ensures var frame := Relay.Frame(e, stringify);
            Actions([frame[..k], frame[k..]], parse) == []
  {
    var text := stringify(Relay.EventJson(e));
    var frame := Relay.Frame(e, stringify);
    var line := DataPrefix[k..] + text;
    assert frame == DataPrefix + (text + "\n\n");
    PrefixSlices(DataPrefix, text + "\n\n", k);
    assert frame[k..] == line + "\n\n";
    assert !StartsWith(line, DataPrefix) by {
      assert line[0] == DataPrefix[k];
    }
    var first, second := frame[..k], frame[k..];
    assert first + "" == first;
    SilentRead(first, "", parse);
    SilentRead(line, "\n\n", parse);
    TwoReads(first, second, parse);
  }

  /** A read holding one line that is not a data line, then blank lines, does nothing. */
  lemma SilentRead(line: string, blanks: string, parse: Parser)
    requires '\n' !in line && !StartsWith(line, DataPrefix)
    requires blanks in ["", "\n\n"]
    ensures LineActions(Split(line + blanks, '\n'), parse) == []
  {
    LineActionsSingle(line, parse);
    if blanks == "" {
      assert line + blanks == line;
      SplitWithout(line, '\n');
    } else {
      assert line + blanks == line + ['\n'] + ("" + ['\n'] + "");
      SplitAfterPiece(line, "" + ['\n'] + "", '\n');
      SplitAfterPiece("", "", '\n');
      assert Split(line + blanks, '\n') == [line] + [""] + [""];
      LineActionsBlank([line], parse);
      LineActionsBlank([line] + [""], parse);
    }
  }

  lemma TwoReads(first: string, second: string, parse: Parser)
    ensures Actions([first, second], parse) ==
            LineActions(Split(first, '\n'), parse) + LineActions(Split(second, '\n'), parse)
  {
    var chunks := [first, second];
    assert chunks[..1] == [first];
    assert chunks[..1][..0] == [];
    ActionsStep(chunks, 0, parse);
    ActionsStep(chunks, 1, parse);
    assert chunks[..2] == chunks;
  }

  /**
   * End to end, with the relay's example: the text `0:"Hello"` then
   * `0:" world"`, split across upstream reads anywhere, reaches the client in
   * one read, and the agent message ends as "Hello world" with loading off.
   */
  lemma HelloWorldReply(chunks: seq<string>, parseUp: Parser, stringify: Printer, parse: Parser)
    requires Concat(chunks) == "0:\"Hello\"\n0:\" world\""
    requires parseUp("\"Hello\"") == Some(Str("Hello")) && parseUp("\" world\"") == Some(Str(" world"))
    requires FramesReadBack(Relay.RelayEvents(Fetch.Body(chunks, None), parseUp), stringify, parse)
    ensures Fold(Initial, Actions([Relay.Wire(Relay.RelayEvents(Fetch.Body(chunks, None), parseUp), stringify)], parse))
            == Progress("Hello world", "Hello world", false)
  {
    var events := Relay.RelayEvents(Fetch.Body(chunks, None), parseUp);
    Relay.HelloWorld(chunks, parseUp);
    WireActions(events, stringify, parse);
    HelloWorldActions();
    HelloWorldFold();
  }

  lemma HelloWorldFold()
    ensures Fold(Initial, [Append("Hello"), Append(" world"), Finish]) == Progress("Hello world", "Hello world", false)
  {
    var hello, world := Append("Hello"), Append(" world");
    assert Fold(Initial, [hello]) == Progress("Hello", "Hello", true) by {
      FoldSnoc(Initial, [], hello);
      assert [] + [hello] == [hello];
    }
    assert Fold(Initial, [hello, world]) == Progress("Hello world", "Hello world", true) by {
      FoldSnoc(Initial, [hello], world);
      assert [hello] + [world] == [hello, world];
      assert "Hello" + " world" == "Hello world";
    }
    FoldSnoc(Initial, [hello, world], Finish);
    assert [hello, world] + [Finish] == [hello, world, Finish];
  }

  lemma HelloWorldActions()
    ensures EventActions([Relay.StartEvent, Relay.Event(Relay.Chunk, Str("Hello")), Relay.Event(Relay.Chunk, Str(" world")), Relay.CompleteEvent])
            == [Append("Hello"), Append(" world"), Finish]
  {
    var hello, world := Relay.Event(Relay.Chunk, Str("Hello")), Relay.Event(Relay.Chunk, Str(" world"));
    var events := [Relay.StartEvent, hello, world, Relay.CompleteEvent];
    assert events[..3] == [Relay.StartEvent, hello, world];
    assert events[..3][..2] == [Relay.StartEvent, hello];
    assert events[..3][..2][..1] == [Relay.StartEvent];
    assert events[..3][..2][..1][..0] == [];
    assert EventActions([Relay.StartEvent]) == [];
    assert EventActions([Relay.StartEvent, hello]) == [Append("Hello")];
    assert EventActions([Relay.StartEvent, hello, world]) == [Append("Hello"), Append(" world")];
  }
}
