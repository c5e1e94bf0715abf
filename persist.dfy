/**
 * The store's rehydration step (`migrate`, src/hooks/use-chat-store.ts:508-532):
 * when a persisted snapshot has a conversation list, a conversation is dropped
 * when an earlier one has the same title and was created less than a second
 * apart from it. Only this list function is modelled, not the storage.
 */
module Persist {
  import opened Common
  import opened Chat

  /** What `partialize` writes; `conversations` may be missing from an old or foreign snapshot. */
  datatype PersistedState = PersistedState(conversations: Option<seq<Conversation>>, currentConversationId: Option<string>)

  function Abs(x: int): nat
  {
    if x < 0 then -x else x
  }

  /** The findIndex callback: `c` has `conv`'s title and was created within 1000 ms of it. */
  predicate NearDuplicate(c: Conversation, conv: Conversation)
  {
    c.title == conv.title && Abs(c.createdAt - conv.createdAt) < 1000
  }

  function NearTo(conv: Conversation): Conversation -> bool
  {
    (c: Conversation) => NearDuplicate(c, conv)
  }

  /** The filter callback: position `i` is kept iff findIndex for `cs[i]` returns `i`. */
  function FirstOfKind(cs: seq<Conversation>): (keep: seq<bool>)
    ensures |keep| == |cs|
  {
    seq(|cs|, i requires 0 <= i < |cs| => FindFirst(cs, NearTo(cs[i])) == Some(i))
  }

  function Dedup(cs: seq<Conversation>): seq<Conversation>
  {
    Select(cs, FirstOfKind(cs))
  }

  /** `migrate`: the list is de-duplicated when present; the snapshot is otherwise returned as is. */
  function Migrate(state: PersistedState): (r: PersistedState)
    ensures state.conversations.None? ==> r == state
    ensures state.conversations.Some? ==>
              r == state.(conversations := Some(Dedup(state.conversations.value)))
  {
    match state.conversations
    case None => state
    case Some(cs) => state.(conversations := Some(Dedup(cs)))
  }

  /** No conversation before position `i` is a near duplicate of the one at `i`. */
  ghost predicate NoEarlierTwin(cs: seq<Conversation>, i: nat)
    requires i < |cs|
  {
    forall j :: 0 <= j < i ==> !NearDuplicate(cs[j], cs[i])
  }

  ghost predicate NoNearPairs(cs: seq<Conversation>)
  {
    forall k, l :: 0 <= k < l < |cs| ==> !NearDuplicate(cs[k], cs[l])
  }

  /** A conversation is kept iff no earlier one is a near duplicate of it. */
  lemma KeptIff(cs: seq<Conversation>, i: nat)
    requires i < |cs|
    ensures FirstOfKind(cs)[i] <==> NoEarlierTwin(cs, i)
  {
    assert NearTo(cs[i])(cs[i]);
    var found := FindFirst(cs, NearTo(cs[i]));
    assert found.Some? && found.value <= i;
    if !NoEarlierTwin(cs, i) {
      var j :| 0 <= j < i && NearDuplicate(cs[j], cs[i]);
      assert NearTo(cs[i])(cs[j]);
    }
  }

  /**
   * The result is the subsequence of the list, in order, at exactly the
   * positions with no earlier near duplicate.
   */
  lemma DedupSpec(cs: seq<Conversation>)
    ensures SubsequenceAt(Dedup(cs), cs, Kept(FirstOfKind(cs)))
    ensures forall i: nat :: i in Kept(FirstOfKind(cs)) <==> i < |cs| && NoEarlierTwin(cs, i)
  {
    SelectSpec(cs, FirstOfKind(cs));
    forall i: nat | i < |cs|
      ensures FirstOfKind(cs)[i] <==> NoEarlierTwin(cs, i)
    {
      KeptIff(cs, i);
    }
  }

  /** The first conversation always survives. */
  lemma KeepsFirst(cs: seq<Conversation>)
    requires |cs| > 0
    ensures |Dedup(cs)| > 0 && Dedup(cs)[0] == cs[0]
  {
    DedupSpec(cs);
    var idx := Kept(FirstOfKind(cs));
    assert NoEarlierTwin(cs, 0);
    assert 0 in idx;
  }

  /** No two conversations of the result are near duplicates. */
  lemma DedupHasNoNearPairs(cs: seq<Conversation>)
    ensures NoNearPairs(Dedup(cs))
  {
    DedupSpec(cs);
    var r, idx := Dedup(cs), Kept(FirstOfKind(cs));
    forall k, l | 0 <= k < l < |r|
      ensures !NearDuplicate(r[k], r[l])
    {
      assert idx[k] < idx[l];
      assert idx[l] in idx;
      assert NoEarlierTwin(cs, idx[l]);
    }
  }

  /** A list without near duplicates is left alone. */
  lemma DedupKeepsDistinct(cs: seq<Conversation>)
    requires NoNearPairs(cs)
    ensures Dedup(cs) == cs
  {
    forall i | 0 <= i < |cs|
      ensures FirstOfKind(cs)[i]
    {
      KeptIff(cs, i);
    }
    SelectAll(cs, FirstOfKind(cs));
  }

  /** De-duplicating twice is de-duplicating once. */
  lemma DedupIdempotent(cs: seq<Conversation>)
    ensures Dedup(Dedup(cs)) == Dedup(cs)
  {
    DedupHasNoNearPairs(cs);
    DedupKeepsDistinct(Dedup(cs));
  }

  /** Migrating twice is migrating once. */
  lemma MigrateIdempotent(state: PersistedState)
    ensures Migrate(Migrate(state)) == Migrate(state)
  {
    if state.conversations.Some? {
      DedupIdempotent(state.conversations.value);
    }
  }

  /** A list with unique ids keeps them unique. */
  lemma DedupKeepsUnique(cs: seq<Conversation>)
    requires UniqueIds(cs)
    ensures UniqueIds(Dedup(cs))
  {
    DedupSpec(cs);
    var r, idx := Dedup(cs), Kept(FirstOfKind(cs));
    forall k, l | 0 <= k < l < |r|
      ensures r[k].id != r[l].id
    {
      assert idx[k] < idx[l];
    }
  }
}
