/**
 * JSON values as `JSON.parse` produces them, with the three JavaScript
 * behaviours the chat client depends on: truthiness, property access (which
 * throws on `null`), and the conversion to a string that `+=` on a string and
 * `Array.prototype.join` perform. Parsing and printing themselves are not
 * modelled: every module that parses takes the parser as a parameter.
 */
module Json {
  import opened Common
  import Text

  /** A parsed JSON value (numbers restricted to integers). */
  datatype Value =
    | Null
    | Bool(b: bool)
    | Num(n: int)
    | Str(s: string)
    | Arr(items: seq<Value>)
    | Obj(fields: map<string, Value>)

  /** `JSON.parse`: a value, or `None` where it throws a SyntaxError. */
  type Parser = string -> Option<Value>

  /** `JSON.stringify` of a value (without indentation). */
  type Printer = Value -> string

  /** JavaScript's `if (v)` on a parsed value. */
  predicate Truthy(v: Value)
  {
    match v
    case Null => false
    case Bool(b) => b
    case Num(n) => n != 0
    case Str(s) => s != ""
    case Arr(_) => true
    case Obj(_) => true
  }

  /** The outcome of reading `v.key`: a TypeError, `undefined`, or a value. */
  datatype Access = Throws | Undefined | Defined(value: Value)

  /**
   * `v.key` for the property names the client reads (`type`, `content`,
   * `result`, `message`), none of which primitives or arrays have.
   */
  function Member(v: Value, key: string): (a: Access)
    ensures a.Throws? <==> v.Null?
    ensures a.Defined? <==> v.Obj? && key in v.fields
    ensures a.Defined? ==> a.value == v.fields[key]
  {
    match v
    case Null => Throws
    case Obj(fields) => if key in fields then Defined(fields[key]) else Undefined
    case _ => Undefined
  }

  /** `String(v)`: what `"" + v` appends. */
  function ToText(v: Value): string
    decreases v, 0
  {
    match v
    case Null => "null"
    case Bool(b) => if b then "true" else "false"
    case Num(n) => Text.IntToString(n)
    case Str(s) => s
    case Arr(items) => Text.Join(seq(|items|, i requires 0 <= i < |items| => ItemText(items[i])), ",")
    case Obj(_) => "[object Object]"
  }

  /** How `Array.prototype.join` writes one element: `null` as the empty string. */
  function ItemText(v: Value): (r: string)
    decreases v, 1
  {
    if v.Null? then "" else ToText(v)
  }

  /** `vs.join(sep)`. */
  function JoinValues(vs: seq<Value>, sep: string): string
  {
    Text.Join(seq(|vs|, i requires 0 <= i < |vs| => ItemText(vs[i])), sep)
  }

  /** Joining with the empty separator concatenates the elements' texts; strings contribute themselves. */
  lemma JoinValuesFront(v: Value, rest: seq<Value>)
    ensures JoinValues([v] + rest, "") == ItemText(v) + JoinValues(rest, "")
    ensures v.Str? ==> JoinValues([v] + rest, "") == v.s + JoinValues(rest, "")
  {
    var texts := seq(|[v] + rest|, i requires 0 <= i < |[v] + rest| => ItemText(([v] + rest)[i]));
    var tail := seq(|rest|, i requires 0 <= i < |rest| => ItemText(rest[i]));
    assert texts == [ItemText(v)] + tail;
    assert texts[1..] == tail;
    Text.JoinEmptySeparator(texts);
    Text.JoinEmptySeparator(tail);
    Text.ConcatFront(texts);
  }
}

/** The result of `fetch` followed by reading the body stream, as seen by its caller. */
module Fetch {
  import opened Common

  datatype Outcome =
    /** `fetch` itself rejected (network failure). */
    | Rejected(message: string)
    /** The response status was not ok; `detail` is the status text or the body text. */
    | NotOk(status: nat, detail: string)
    /** The response had no readable body. */
    | NoBody
    /** The body delivered `chunks` in order, then ended (`failure == None`) or rejected the next read. */
    | Body(chunks: seq<string>, failure: Option<string>)
}
