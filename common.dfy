/** Values and sequence facts shared by the modules of the chat client model. */
module Common {

  /** A JavaScript value that may be `null`/`undefined`. */
  datatype Option<T> = None | Some(value: T)

  // ---------------------------------------------------------------------------
  // Selecting positions of a sequence (Array.prototype.filter)
  // ---------------------------------------------------------------------------

  /** The elements of `s` at the positions where `keep` holds, in their order. */
  function Select<T>(s: seq<T>, keep: seq<bool>): seq<T>
    requires |keep| == |s|
  {
    if |s| == 0 then []
    else Select(s[..|s| - 1], keep[..|s| - 1]) + (if keep[|s| - 1] then [s[|s| - 1]] else [])
  }

  /** The positions where `keep` holds, ascending. */
  function Kept(keep: seq<bool>): seq<nat>
  {
    if |keep| == 0 then []
    else Kept(keep[..|keep| - 1]) + (if keep[|keep| - 1] then [|keep| - 1] else [])
  }

  ghost predicate Increasing(idx: seq<nat>)
  {
    forall k, l :: 0 <= k < l < |idx| ==> idx[k] < idx[l]
  }

  /** `r` consists of the elements of `s` at the ascending positions `idx`. */
  ghost predicate SubsequenceAt<T>(r: seq<T>, s: seq<T>, idx: seq<nat>)
  {
    && |idx| == |r|
    && Increasing(idx)
    && (forall k :: 0 <= k < |idx| ==> idx[k] < |s| && r[k] == s[idx[k]])
  }

  lemma {:induction false} KeptFacts(keep: seq<bool>)
    ensures Increasing(Kept(keep))
    ensures forall k :: 0 <= k < |Kept(keep)| ==> Kept(keep)[k] < |keep|
    ensures forall i: nat :: i in Kept(keep) <==> i < |keep| && keep[i]
  {
    if |keep| > 0 {
      var n := |keep| - 1;
      KeptFacts(keep[..n]);
      var front := Kept(keep[..n]);
      assert Kept(keep) == front + (if keep[n] then [n] else []);
      forall i: nat
        ensures i in Kept(keep) <==> i < |keep| && keep[i]
      {
        if i < n {
          assert keep[..n][i] == keep[i];
        }
      }
    }
  }

  /** Select keeps exactly the elements at the kept positions, in order. */
  lemma {:induction false} SelectSpec<T>(s: seq<T>, keep: seq<bool>)
    requires |keep| == |s|
    ensures SubsequenceAt(Select(s, keep), s, Kept(keep))
    ensures forall i: nat :: i in Kept(keep) <==> i < |s| && keep[i]
  {
    KeptFacts(keep);
    if |s| > 0 {
      var n := |s| - 1;
      SelectSpec(s[..n], keep[..n]);
      KeptFacts(keep[..n]);
    }
  }

  /** An element belongs to a selection iff it stands at some kept position. */
  lemma SelectMembers<T>(s: seq<T>, keep: seq<bool>, x: T)
    requires |keep| == |s|
    ensures x in Select(s, keep) <==> exists i :: 0 <= i < |s| && keep[i] && s[i] == x
  {
    SelectSpec(s, keep);
    var r, idx := Select(s, keep), Kept(keep);
    if x in r {
      var k :| 0 <= k < |r| && r[k] == x;
      assert idx[k] in idx;
    }
    if i :| 0 <= i < |s| && keep[i] && s[i] == x {
      var k :| 0 <= k < |idx| && idx[k] == i;
      assert r[k] == x;
    }
  }

  lemma {:induction false} SelectAll<T>(s: seq<T>, keep: seq<bool>)
    requires |keep| == |s|
    requires forall i :: 0 <= i < |s| ==> keep[i]
    ensures Select(s, keep) == s
  {
    if |s| > 0 {
      var n := |s| - 1;
      SelectAll(s[..n], keep[..n]);
      assert s[..n] + [s[n]] == s;
    }
  }

  lemma {:induction false} SelectNone<T>(s: seq<T>, keep: seq<bool>)
    requires |keep| == |s|
    requires forall i :: 0 <= i < |s| ==> !keep[i]
    ensures Select(s, keep) == []
  {
    if |s| > 0 {
      SelectNone(s[..|s| - 1], keep[..|s| - 1]);
    }
  }

  /** The truth values of `p` along `s`. */
  function Mask<T>(s: seq<T>, p: T -> bool): (m: seq<bool>)
    ensures |m| == |s|
    ensures forall i :: 0 <= i < |s| ==> m[i] == p(s[i])
  {
    seq(|s|, i requires 0 <= i < |s| => p(s[i]))
  }

  /** Array.prototype.filter with a pure callback. */
  function Filter<T>(s: seq<T>, p: T -> bool): seq<T>
  {
    Select(s, Mask(s, p))
  }

  /** Filter is order-preserving and keeps exactly the elements satisfying `p`. */
  lemma FilterSpec<T>(s: seq<T>, p: T -> bool)
    ensures SubsequenceAt(Filter(s, p), s, Kept(Mask(s, p)))
    ensures forall i: nat :: i in Kept(Mask(s, p)) <==> i < |s| && p(s[i])
    ensures forall x :: x in Filter(s, p) <==> x in s && p(x)
  {
    SelectSpec(s, Mask(s, p));
    forall x
      ensures x in Filter(s, p) <==> x in s && p(x)
    {
      SelectMembers(s, Mask(s, p), x);
    }
  }

  lemma FilterAll<T>(s: seq<T>, p: T -> bool)
    requires forall x :: x in s ==> p(x)
    ensures Filter(s, p) == s
  {
    SelectAll(s, Mask(s, p));
  }

  /** `r` is exactly the elements of `s` satisfying `p`, in their order. */
  ghost predicate IsFilter<T>(r: seq<T>, s: seq<T>, p: T -> bool)
  {
    exists idx :: SubsequenceAt(r, s, idx) && forall i :: 0 <= i < |s| ==> (i in idx <==> p(s[i]))
  }

  lemma FilterIsFilter<T>(s: seq<T>, p: T -> bool)
    ensures IsFilter(Filter(s, p), s, p)
  {
    FilterSpec(s, p);
    var idx := Kept(Mask(s, p));
    assert forall i :: 0 <= i < |s| ==> (i in idx <==> p(s[i]));
  }

  /** The value, if any, as a sequence of at most one element. */
  function Opt<A>(a: Option<A>): seq<A>
  {
    match a
    case None => []
    case Some(x) => [x]
  }

  /** What `decode` makes of a run of lines, in line order; lines it maps to `None` contribute nothing. */
  function Collect<A>(lines: seq<string>, decode: string -> Option<A>): seq<A>
  {
    if |lines| == 0 then []
    else
      Collect(lines[..|lines| - 1], decode) +
      match decode(lines[|lines| - 1])
      case Some(e) => [e]
      case None => []
  }

  /** Each line is decoded on its own: two runs of lines give what each gives. */
  lemma {:induction false} CollectAppend<A>(a: seq<string>, b: seq<string>, decode: string -> Option<A>)
    ensures Collect(a + b, decode) == Collect(a, decode) + Collect(b, decode)
  {
    if |b| > 0 {
      CollectAppend(a, b[..|b| - 1], decode);
      assert (a + b)[..|a + b| - 1] == a + b[..|b| - 1];
    } else {
      assert a + b == a;
    }
  }

  /** Concatenation regroups freely. */
  lemma Regroup<T>(a: seq<T>, b: seq<T>, c: seq<T>)
    ensures a + (b + c) == a + b + c
  {
  }

  // ---------------------------------------------------------------------------
  // Array.prototype.find / findIndex
  // ---------------------------------------------------------------------------

  /** The first position whose element satisfies `p`, if any. */
  function FindFirst<T>(s: seq<T>, p: T -> bool): (r: Option<nat>)
    ensures r.Some? ==> r.value < |s| && p(s[r.value])
    ensures r.Some? ==> forall j :: 0 <= j < r.value ==> !p(s[j])
    ensures r.None? ==> forall j :: 0 <= j < |s| ==> !p(s[j])
  {
    if |s| == 0 then None
    else if p(s[0]) then Some(0)
    else match FindFirst(s[1..], p)
      case None => None
      case Some(k) => Some(k + 1)
  }
}
