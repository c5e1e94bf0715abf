/**
 * The JavaScript string operations the chat client relies on: `split` and `join`
 * with a one-character separator, `indexOf`, `startsWith`, `includes`, `trim`,
 * `toLowerCase` (ASCII letters only) and the decimal form of a number.
 */
module Text {
  import opened Common

  // ---------------------------------------------------------------------------
  // split / join
  // ---------------------------------------------------------------------------

  /** `s.split(d)`: the pieces between occurrences of `d`; always at least one. */
  function Split(s: string, d: char): (parts: seq<string>)
    ensures |parts| >= 1
  {
    if |s| == 0 then [""]
    else
      var rest := Split(s[1..], d);
      if s[0] == d then [""] + rest else [[s[0]] + rest[0]] + rest[1..]
  }

  /** `parts.join(sep)`. */
  function Join(parts: seq<string>, sep: string): string
  {
    if |parts| == 0 then ""
    else if |parts| == 1 then parts[0]
    else parts[0] + sep + Join(parts[1..], sep)
  }

  /** The strings of `parts` one after the other. */
  function Concat(parts: seq<string>): string
  {
    if |parts| == 0 then "" else Concat(parts[..|parts| - 1]) + parts[|parts| - 1]
  }

  function Last<T>(s: seq<T>): T
    requires |s| > 0
  {
    s[|s| - 1]
  }

  function Init<T>(s: seq<T>): seq<T>
    requires |s| > 0
  {
    s[..|s| - 1]
  }

  /** No piece of a split contains the separator. */
  lemma {:induction false} SplitPiecesFree(s: string, d: char)
    ensures forall k :: 0 <= k < |Split(s, d)| ==> d !in Split(s, d)[k]
  {
    if |s| > 0 {
      SplitPiecesFree(s[1..], d);
    }
  }

  /** A string without the separator splits into itself. */
  lemma {:induction false} SplitWithout(s: string, d: char)
    requires d !in s
    ensures Split(s, d) == [s]
  {
    if |s| > 0 {
      SplitWithout(s[1..], d);
      assert [s[0]] + s[1..] == s;
    }
  }

  /** Joining the pieces of a split with the separator gives back the string. */
  lemma {:induction false} JoinSplit(s: string, d: char)
    ensures Join(Split(s, d), [d]) == s
  {
    if |s| > 0 {
      var rest := Split(s[1..], d);
      JoinSplit(s[1..], d);
      if s[0] != d && |rest| > 1 {
        var parts := [[s[0]] + rest[0]] + rest[1..];
        assert parts[1..] == rest[1..];
      }
    }
  }

  /** A separator-free piece followed by the separator splits off as one piece. */
  lemma {:induction false} SplitAfterPiece(p: string, b: string, d: char)
    requires d !in p
    ensures Split(p + [d] + b, d) == [p] + Split(b, d)
  {
    var s := p + [d] + b;
    if |p| == 0 {
      assert s == [d] + b;
      assert s[1..] == b;
    } else {
      assert s[1..] == p[1..] + [d] + b;
      SplitAfterPiece(p[1..], b, d);
      assert [p[0]] + p[1..] == p;
    }
  }

  /** Splitting a string that has a separator at a known place. */
  lemma SplitAround(a: string, b: string, d: char)
    ensures Split(a + [d] + b, d) == Split(a, d) + Split(b, d)
  {
    var q := Split(a, d);
    SplitAppend(a, [d] + b, d);
    assert a + [d] + b == a + ([d] + b);
    SplitPiecesFree(a, d);
    assert d !in q[|q| - 1];
    SplitAfterPiece(Last(q), b, d);
    assert Last(q) + ([d] + b) == Last(q) + [d] + b;
    InitLast(q);
    Regroup(Init(q), [Last(q)], Split(b, d));
  }

  /** A non-empty sequence is its front followed by its last element. */
  /** Slicing a concatenation inside its first part. */
  lemma PrefixSlices<T>(a: seq<T>, b: seq<T>, k: nat)
    requires k <= |a|
    ensures (a + b)[..k] == a[..k]
    ensures (a + b)[k..] == a[k..] + b
  {
  }

  lemma InitLast<T>(q: seq<T>)
    requires |q| > 0
    ensures Init(q) + [Last(q)] == q
  {
  }

  /** The front and the last element of a sequence with a non-empty tail. */
  lemma InitLastAppend<T>(a: seq<T>, b: seq<T>)
    requires |b| > 0
    ensures Init(a + b) == a + Init(b)
    ensures Last(a + b) == Last(b)
  {
  }

  /**
   * The line-buffer law: splitting `a + b` gives the complete pieces of `a`
   * followed by the pieces of its unfinished last piece extended by `b`.
   */
  lemma {:induction false} SplitAppend(a: string, b: string, d: char)
    ensures Split(a + b, d) == Init(Split(a, d)) + Split(Last(Split(a, d)) + b, d)
  {
    if |a| == 0 {
      assert a + b == b;
    } else {
      assert (a + b)[1..] == a[1..] + b;
      SplitAppend(a[1..], b, d);
      var q := Split(a[1..], d);
      var tail := Split(Last(q) + b, d);
      if a[0] == d {
        SplitAppendAtSeparator(q, tail);
      } else if |q| == 1 {
        SplitPiecesFree(a[1..], d);
        JoinSplit(a[1..], d);
        assert q[0] == a[1..];
        assert [a[0]] + q[0] == a;
      } else {
        SplitAppendInPiece(a[0], q, tail);
      }
    }
  }

  /** SplitAppend when the string starts with the separator. */
  lemma SplitAppendAtSeparator(q: seq<string>, tail: seq<string>)
    requires |q| > 0
    ensures [""] + (Init(q) + tail) == Init([""] + q) + tail
  {
    InitLastAppend([""], q);
    Regroup([""], Init(q), tail);
  }

  /** SplitAppend when the string starts inside a piece that is not the last one. */
  lemma SplitAppendInPiece(c: char, q: seq<string>, tail: seq<string>)
    requires |q| > 1
    ensures var r := Init(q) + tail;
            [[c] + r[0]] + r[1..] == Init([[c] + q[0]] + q[1..]) + tail
    ensures Last([[c] + q[0]] + q[1..]) == Last(q)
  {
    var r := Init(q) + tail;
    assert r[0] == q[0];
    PrefixSlices(Init(q), tail, 1);
    assert Init(q)[1..] == Init(q[1..]);
    InitLastAppend([[c] + q[0]], q[1..]);
    Regroup([[c] + q[0]], Init(q[1..]), tail);
  }

  /** Splitting a join of separator-free parts gives back the parts. */
  lemma {:induction false} SplitJoin(parts: seq<string>, d: char)
    requires |parts| >= 1
    requires forall k :: 0 <= k < |parts| ==> d !in parts[k]
    ensures Split(Join(parts, [d]), d) == parts
  {
    if |parts| == 1 {
      SplitWithout(parts[0], d);
    } else {
      SplitJoin(parts[1..], d);
      SplitAround(parts[0], Join(parts[1..], [d]), d);
      SplitWithout(parts[0], d);
    }
  }

  /** A join splits at any interior position into the join of each side. */
  lemma {:induction false} JoinAt(parts: seq<string>, n: nat, sep: string)
    requires 1 <= n < |parts|
    ensures Join(parts[..n], sep) + sep + Join(parts[n..], sep) == Join(parts, sep)
  {
    if n > 1 {
      JoinAt(parts[1..], n - 1, sep);
      assert parts[1..][..n - 1] == parts[..n][1..];
      assert parts[1..][n - 1..] == parts[n..];
    }
  }

  /** With the empty separator, join is concatenation. */
  lemma {:induction false} JoinEmptySeparator(parts: seq<string>)
    ensures Join(parts, "") == Concat(parts)
  {
    if |parts| > 1 {
      JoinEmptySeparator(parts[1..]);
      ConcatFront(parts);
    }
  }

  lemma {:induction false} ConcatFront(parts: seq<string>)
    requires |parts| > 0
    ensures Concat(parts) == parts[0] + Concat(parts[1..])
  {
    if |parts| > 1 {
      ConcatFront(parts[..|parts| - 1]);
      assert parts[..|parts| - 1][1..] == parts[1..][..|parts[1..]| - 1];
    } else {
      assert parts[..0] == [];
    }
  }

  lemma {:induction false} ConcatAppend(a: seq<string>, b: seq<string>)
    ensures Concat(a + b) == Concat(a) + Concat(b)
  {
    if |b| > 0 {
      ConcatAppend(a, b[..|b| - 1]);
      assert (a + b)[..|a + b| - 1] == a + b[..|b| - 1];
    } else {
      assert a + b == a;
    }
  }

  // ---------------------------------------------------------------------------
  // indexOf / startsWith / includes
  // ---------------------------------------------------------------------------

  /** `s.indexOf(c)`: the first position of `c`, or -1. */
  function IndexOf(s: string, c: char): (i: int)
    ensures -1 <= i < |s|
    ensures i == -1 <==> c !in s
    ensures i >= 0 ==> s[i] == c && c !in s[..i]
  {
    if |s| == 0 then -1
    else if s[0] == c then 0
    else
      var j := IndexOf(s[1..], c);
      if j == -1 then -1
      else
        assert s[..j + 1] == [s[0]] + s[1..][..j];
        j + 1
  }

  /** The first occurrence is found behind a separator-free prefix. */
  lemma IndexOfAfter(p: string, c: char, rest: string)
    requires c !in p
    ensures IndexOf(p + [c] + rest, c) == |p|
  {
    var s := p + [c] + rest;
    assert s[|p|] == c;
    assert s[..|p|] == p;
    assert forall k :: 0 <= k < |p| ==> s[k] == p[k];
  }

  predicate StartsWith(s: string, p: string)
  {
    |p| <= |s| && s[..|p|] == p
  }

  /** `s.includes(sub)`. */
  predicate Contains(s: string, sub: string)
  {
    exists i :: 0 <= i <= |s| - |sub| && OccursAt(s, sub, i)
  }

  /** `sub` stands in `s` from position `i` on. */
  predicate OccursAt(s: string, sub: string, i: int)
  {
    0 <= i <= |s| - |sub| && s[i..i + |sub|] == sub
  }

  /** Every string includes the empty string. */
  lemma ContainsEmpty(s: string)
    ensures Contains(s, "")
  {
    assert OccursAt(s, "", 0);
  }

  // ---------------------------------------------------------------------------
  // trim
  // ---------------------------------------------------------------------------

  /** The characters `String.prototype.trim` removes: ECMAScript WhiteSpace and LineTerminator. */
  predicate IsSpace(c: char)
  {
    var n := c as int;
    n == 0x09 || n == 0x0A || n == 0x0B || n == 0x0C || n == 0x0D || n == 0x20 ||
    n == 0xA0 || n == 0x1680 || (0x2000 <= n <= 0x200A) || n == 0x2028 || n == 0x2029 ||
    n == 0x202F || n == 0x205F || n == 0x3000 || n == 0xFEFF
  }

  predicate AllSpace(s: string)
  {
    forall k :: 0 <= k < |s| ==> IsSpace(s[k])
  }

  function TrimStart(s: string): string
  {
    if |s| > 0 && IsSpace(s[0]) then TrimStart(s[1..]) else s
  }

  function TrimEnd(s: string): string
  {
    if |s| > 0 && IsSpace(s[|s| - 1]) then TrimEnd(s[..|s| - 1]) else s
  }

  /** `s.trim()`. */
  function Trim(s: string): string
  {
    TrimEnd(TrimStart(s))
  }

  lemma {:induction false} TrimStartFacts(s: string)
    ensures var t := TrimStart(s); |t| <= |s| && t == s[|s| - |t|..] && AllSpace(s[..|s| - |t|])
    ensures var t := TrimStart(s); |t| > 0 ==> !IsSpace(t[0])
  {
    if |s| > 0 && IsSpace(s[0]) {
      TrimStartFacts(s[1..]);
      var t := TrimStart(s[1..]);
      assert s[|s| - |t|..] == s[1..][|s[1..]| - |t|..];
      assert s[..|s| - |t|] == [s[0]] + s[1..][..|s[1..]| - |t|];
    }
  }

  lemma {:induction false} TrimEndFacts(s: string)
    ensures var t := TrimEnd(s); |t| <= |s| && t == s[..|t|] && AllSpace(s[|t|..])
    ensures var t := TrimEnd(s); |t| > 0 ==> !IsSpace(t[|t| - 1])
  {
    if |s| > 0 && IsSpace(s[|s| - 1]) {
      var u := s[..|s| - 1];
      TrimEndFacts(u);
      var t := TrimEnd(u);
      assert s[..|t|] == u[..|t|];
      assert s[|t|..] == u[|t|..] + [s[|s| - 1]];
    }
  }

  /** Leading spaces are dropped by TrimStart. */
  lemma {:induction false} TrimStartSkips(w: string, s: string)
    requires AllSpace(w)
    ensures TrimStart(w + s) == TrimStart(s)
  {
    if |w| > 0 {
      assert (w + s)[1..] == w[1..] + s;
      TrimStartSkips(w[1..], s);
    } else {
      assert w + s == s;
    }
  }

  /** Trailing spaces are dropped by TrimEnd. */
  lemma {:induction false} TrimEndSkips(s: string, w: string)
    requires AllSpace(w)
    ensures TrimEnd(s + w) == TrimEnd(s)
  {
    if |w| > 0 {
      var n := |w| - 1;
      assert (s + w)[..|s + w| - 1] == s + w[..n];
      TrimEndSkips(s, w[..n]);
    } else {
      assert s + w == s;
    }
  }

  lemma {:induction false} TrimStartNoop(s: string)
    requires |s| == 0 || !IsSpace(s[0])
    ensures TrimStart(s) == s
  {
  }

  lemma {:induction false} TrimEndKeepsStart(s: string)
    requires |s| == 0 || !IsSpace(s[0])
    ensures var t := TrimEnd(s); |t| == 0 || !IsSpace(t[0])
  {
    TrimEndFacts(s);
    var t := TrimEnd(s);
    if |t| > 0 {
      assert t[0] == s[0];
    }
  }

  /** Spaces around a text do not change its trimmed form; in particular trim is idempotent. */
  lemma TrimAround(w1: string, s: string, w2: string)
    requires AllSpace(w1) && AllSpace(w2)
    ensures Trim(w1 + s + w2) == Trim(s)
  {
    TrimStartSkips(w1, s + w2);
    assert w1 + s + w2 == w1 + (s + w2);
    TrimStartFacts(s);
    var t := TrimStart(s);
    var lead := s[..|s| - |t|];
    assert s == lead + t;
    assert s + w2 == lead + (t + w2);
    TrimStartSkips(lead, t + w2);
    if |t| > 0 {
      assert (t + w2)[0] == t[0];
      TrimStartNoop(t + w2);
      TrimEndSkips(t, w2);
    } else {
      assert t + w2 == w2;
      TrimStartSkips(w2, "");
      assert w2 + "" == w2;
    }
  }

  lemma TrimIdempotent(s: string)
    ensures Trim(Trim(s)) == Trim(s)
  {
    TrimStartFacts(s);
    var t := TrimStart(s);
    TrimEndKeepsStart(t);
    TrimStartNoop(TrimEnd(t));
    TrimEndFacts(t);
    var u := TrimEnd(t);
    assert |u| == 0 || !IsSpace(u[|u| - 1]);
  }

  /** A string trims to nothing exactly when it consists of spaces only. */
  lemma TrimEmpty(s: string)
    ensures Trim(s) == "" <==> AllSpace(s)
  {
    TrimStartFacts(s);
    var t := TrimStart(s);
    TrimEndFacts(t);
    var lead := s[..|s| - |t|];
    assert s == lead + t;
    if AllSpace(s) {
      TrimStartSkips(s, "");
      assert s + "" == s;
    } else {
      var k :| 0 <= k < |s| && !IsSpace(s[k]);
      assert k >= |lead|;
      assert t[k - |lead|] == s[k];
    }
  }

  // ---------------------------------------------------------------------------
  // toLowerCase (ASCII) and number formatting
  // ---------------------------------------------------------------------------

  function LowerChar(c: char): char
  {
    if 'A' <= c <= 'Z' then (c as int + 32) as char else c
  }

  /** `s.toLowerCase()`, restricted to the ASCII letters. */
  function Lower(s: string): (r: string)
    ensures |r| == |s| && forall k :: 0 <= k < |s| ==> r[k] == LowerChar(s[k])
  {
    seq(|s|, k requires 0 <= k < |s| => LowerChar(s[k]))
  }

  lemma LowerIdempotent(s: string)
    ensures Lower(Lower(s)) == Lower(s)
  {
  }

  function Digit(d: nat): char
    requires d < 10
  {
    "0123456789"[d]
  }

  /** The decimal form of a natural number, as `String(n)` writes it. */
  function NatToString(n: nat): (r: string)
    ensures |r| >= 1
  {
    if n < 10 then [Digit(n)] else NatToString(n / 10) + [Digit(n % 10)]
  }

  /** The decimal form of an integer, as `String(n)` writes it. */
  function IntToString(n: int): string
  {
    if n < 0 then "-" + NatToString(-n) else NatToString(n)
  }
}
