/**
 * The batch decoder of the weather agent's stream (parseMastraStream in
 * src/lib/weather-agent.ts): the whole response text is trimmed and split
 * into lines; each `<prefix>:<json>` line contributes a text token (prefix
 * "0"), a tool result ("a"), a metadata record ("f", "e", "d") or a tool call
 * ("9"); the text is the tokens joined with nothing between them.
 */
module WeatherAgent {
  import opened Common
  import opened Text
  import opened Json
  import Relay

  /** One entry of `messages`; `ToolResult(None)` is a tool result whose `data` is `undefined`. */
  datatype Record =
    | ToolResult(result: Option<Value>)
    | Meta(data: Value)
    | ToolCall(data: Value)

  /** What one line contributes. */
  datatype Decoded = Token(value: Value) | Message(record: Record) | Skipped

  /** The decoder's result `{ messages, text }`. */
  datatype Parsed = Parsed(messages: seq<Record>, text: string)

  /** The metadata prefixes. */
  predicate IsMetaPrefix(prefix: string)
  {
    prefix in ["f", "e", "d"]
  }

  /**
   * One line (:86-108): lines without a colon, with a payload that does not
   * parse, with an unknown prefix, or a tool result whose payload is `null`
   * (reading `.result` throws, and the catch skips the line) contribute nothing.
   */
  function DecodeLine(line: string, parse: Parser): (r: Decoded)
    ensures r.Token? <==> StartsWith(line, "0:") && parse(line[2..]).Some?
    ensures r.Token? ==> parse(line[2..]) == Some(r.value)
    ensures ':' !in line ==> r == Skipped
  {
    Relay.TextPrefixAt(line);
    var colon := IndexOf(line, ':');
    if colon == -1 then Skipped
    else
      var prefix, data := line[..colon], line[colon + 1..];
      match parse(data)
      case None => Skipped
      case Some(v) =>
        if prefix == "0" then Token(v)
        else if prefix == "a" then
          match Member(v, "result")
          case Throws => Skipped
          case Undefined => Message(ToolResult(None))
          case Defined(r) => Message(ToolResult(Some(r)))
        else if IsMetaPrefix(prefix) then Message(Meta(v))
        else if prefix == "9" then Message(ToolCall(v))
        else Skipped
  }

  /** The text tokens of a run of lines, in order. */
  function Tokens(lines: seq<string>, parse: Parser): seq<Value>
  {
    if |lines| == 0 then []
    else
      Tokens(lines[..|lines| - 1], parse) +
      match DecodeLine(lines[|lines| - 1], parse)
      case Token(v) => [v]
      case _ => []
  }

  /** The records of a run of lines, in order. */
  function Records(lines: seq<string>, parse: Parser): seq<Record>
  {
    if |lines| == 0 then []
    else
      Records(lines[..|lines| - 1], parse) +
      match DecodeLine(lines[|lines| - 1], parse)
      case Message(r) => [r]
      case _ => []
  }

  /** The lines the decoder walks over (:82). */
  function Lines(raw: string): (lines: seq<string>)
    ensures |lines| >= 1
  {
    Split(Trim(raw), '\n')
  }

  /** What parseMastraStream returns, as a function of the raw text. */
  function Decode(raw: string, parse: Parser): Parsed
  {
    Parsed(Records(Lines(raw), parse), JoinValues(Tokens(Lines(raw), parse), ""))
  }

  /** parseMastraStream (:81-116). */
  method ParseMastraStream(raw: string, parse: Parser) returns (result: Parsed)
    ensures result == Decode(raw, parse)
  {
    var lines := Split(Trim(raw), '\n');
    var messages: seq<Record> := [];
    var finalTextTokens: seq<Value> := [];
    var i := 0;
    while i < |lines|
      invariant 0 <= i <= |lines|
      invariant messages == Records(lines[..i], parse)
      invariant finalTextTokens == Tokens(lines[..i], parse)
    {
      DecodeStep(lines, i, parse);
      var line := lines[i];
      var colonIndex := IndexOf(line, ':');
      if colonIndex != -1 {
        var prefix, data := line[..colonIndex], line[colonIndex + 1..];
        var parsed := parse(data);
        if parsed.Some? {
          if prefix == "0" {
            finalTextTokens := finalTextTokens + [parsed.value];
          } else if prefix == "a" {
            var result := Member(parsed.value, "result");
            if !result.Throws? {
              var data := if result.Defined? then Some(result.value) else None;
              messages := messages + [ToolResult(data)];
            }
          } else if prefix in ["f", "e", "d"] {
            messages := messages + [Meta(parsed.value)];
          } else if prefix == "9" {
            messages := messages + [ToolCall(parsed.value)];
          }
        }
      }
      i := i + 1;
    }
    assert lines[..i] == lines;
    result := Parsed(messages, JoinValues(finalTextTokens, ""));
  }

  /** The decoder's state after one more line. */
  lemma DecodeStep(lines: seq<string>, i: nat, parse: Parser)
    requires i < |lines|
    ensures Tokens(lines[..i + 1], parse) ==
            Tokens(lines[..i], parse) + match DecodeLine(lines[i], parse) case Token(v) => [v] case _ => []
    ensures Records(lines[..i + 1], parse) ==
            Records(lines[..i], parse) + match DecodeLine(lines[i], parse) case Message(r) => [r] case _ => []
  {
    assert lines[..i + 1][..i] == lines[..i];
  }

  // ---------------------------------------------------------------------------
  // Properties
  // ---------------------------------------------------------------------------

  /** Lines are decoded independently of each other. */
  lemma {:induction false} DecodeAppend(a: seq<string>, b: seq<string>, parse: Parser)
    ensures Tokens(a + b, parse) == Tokens(a, parse) + Tokens(b, parse)
    ensures Records(a + b, parse) == Records(a, parse) + Records(b, parse)
  {
    if |b| > 0 {
      DecodeAppend(a, b[..|b| - 1], parse);
      assert (a + b)[..|a + b| - 1] == a + b[..|b| - 1];
      Regroup(Tokens(a, parse), Tokens(b[..|b| - 1], parse),
              match DecodeLine(b[|b| - 1], parse) case Token(v) => [v] case _ => []);
      Regroup(Records(a, parse), Records(b[..|b| - 1], parse),
              match DecodeLine(b[|b| - 1], parse) case Message(r) => [r] case _ => []);
    } else {
      assert a + b == a;
    }
  }

  /** Surrounding whitespace, including blank lines before and after, changes nothing. */
  lemma IgnoresSurroundingSpace(w1: string, raw: string, w2: string, parse: Parser)
    requires AllSpace(w1) && AllSpace(w2)
    ensures Decode(w1 + raw + w2, parse) == Decode(raw, parse)
  {
    TrimAround(w1, raw, w2);
  }

  /** A text line contributes its parsed payload, even when the payload holds colons. */
  lemma TextLine(payload: string, parse: Parser)
    ensures DecodeLine("0:" + payload, parse) == if parse(payload).Some? then Token(parse(payload).value) else Skipped
  {
    IndexOfAfter("0", ':', payload);
    assert "0:" + payload == "0" + [':'] + payload;
    assert ("0:" + payload)[..1] == "0";
    assert ("0:" + payload)[2..] == payload;
  }

  /** How a line with a given prefix and a payload that parses is classified. */
  lemma PrefixedLine(prefix: string, payload: string, parse: Parser)
    requires ':' !in prefix && parse(payload).Some?
    ensures var v, d := parse(payload).value, DecodeLine(prefix + ":" + payload, parse);
            && (prefix == "0" ==> d == Token(v))
            && (prefix == "a" && v.Null? ==> d == Skipped)
            && (prefix == "a" && v.Obj? && "result" in v.fields ==> d == Message(ToolResult(Some(v.fields["result"]))))
            && (prefix == "a" && !v.Null? && !(v.Obj? && "result" in v.fields) ==> d == Message(ToolResult(None)))
            && (IsMetaPrefix(prefix) ==> d == Message(Meta(v)))
            && (prefix == "9" ==> d == Message(ToolCall(v)))
            && (prefix !in ["0", "a", "f", "e", "d", "9"] ==> d == Skipped)
  {
    IndexOfAfter(prefix, ':', payload);
    assert prefix + ":" + payload == prefix + [':'] + payload;
    assert (prefix + ":" + payload)[..|prefix|] == prefix;
    assert (prefix + ":" + payload)[|prefix| + 1..] == payload;
  }

  /** A malformed payload or a missing colon skips the line, whatever the prefix. */
  lemma MalformedLine(line: string, parse: Parser)
    requires ':' !in line || parse(line[IndexOf(line, ':') + 1..]).None?
    ensures DecodeLine(line, parse) == Skipped
  {
  }

  /** Joining string tokens with nothing between them concatenates them. */
  lemma {:induction false} TextOfStrings(tokens: seq<string>)
    ensures JoinValues(Strs(tokens), "") == Concat(tokens)
  {
    if |tokens| > 0 {
      TextOfStrings(tokens[1..]);
      assert Strs(tokens) == [Str(tokens[0])] + Strs(tokens[1..]);
      JoinValuesFront(Str(tokens[0]), Strs(tokens[1..]));
      ConcatFront(tokens);
    }
  }

  function Strs(tokens: seq<string>): (vs: seq<Value>)
    ensures |vs| == |tokens| && forall k :: 0 <= k < |tokens| ==> vs[k] == Str(tokens[k])
  {
    seq(|tokens|, k requires 0 <= k < |tokens| => Str(tokens[k]))
  }

  /**
   * The relay and the batch decoder read the text prefix alike: a line the
   * relay decodes to a value is exactly a line this decoder takes as a token.
   */
  lemma AgreesWithRelay(line: string, parse: Parser)
    ensures Relay.ParseStreamLine(line, parse).Some? <==> DecodeLine(line, parse).Token?
    ensures DecodeLine(line, parse).Token? ==> Relay.ParseStreamLine(line, parse).value == DecodeLine(line, parse).value
  {
  }

  /** Text lines separated by newlines give their string tokens concatenated and no records. */
  lemma {:induction false} TextLinesDecode(payloads: seq<string>, tokens: seq<string>, parse: Parser)
    requires |payloads| == |tokens|
    requires forall k :: 0 <= k < |payloads| ==> parse(payloads[k]) == Some(Str(tokens[k]))
    ensures Tokens(Relay.TextLines(payloads), parse) == Strs(tokens)
    ensures Records(Relay.TextLines(payloads), parse) == []
  {
    if |payloads| > 0 {
      var n := |payloads| - 1;
      var lines := Relay.TextLines(payloads);
      TextLinesPrefix(payloads, n);
      TextLinesDecode(payloads[..n], tokens[..n], parse);
      assert DecodeLine(lines[n], parse) == Token(Str(tokens[n])) by {
        TextLine(payloads[n], parse);
      }
      DecodeStep(lines, n, parse);
      StrsSnoc(tokens, n);
    }
  }

  lemma TextLinesPrefix(payloads: seq<string>, n: nat)
    requires n < |payloads|
    ensures Relay.TextLines(payloads)[..n] == Relay.TextLines(payloads[..n])
    ensures Relay.TextLines(payloads)[..n + 1] == Relay.TextLines(payloads)[..n] + [Relay.TextLines(payloads)[n]]
  {
  }

  lemma StrsSnoc(tokens: seq<string>, n: nat)
    requires n + 1 == |tokens|
    ensures Strs(tokens) == Strs(tokens[..n]) + [Str(tokens[n])]
  {
  }
}
