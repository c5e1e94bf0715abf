/**
 * The chat client's records (src/types/chat.ts and the `Conversation`
 * interface of src/hooks/use-chat-store.ts) and the pure helpers the
 * conversation store is built from: the title generator, lookups and
 * replacements by id, the search filters and the plain-text export.
 */
module Chat {
  import opened Common
  import opened Text

  datatype Sender = User | Agent

  datatype Status = Sending | Sent | Delivered | Failed

  /** A message; `timestamp` is its creation time in milliseconds. */
  datatype Message = Message(id: string, content: string, sender: Sender, timestamp: int, status: Status)

  /** A conversation; `createdAt` in milliseconds (the `updatedAt` bumps are not modelled). */
  datatype Conversation = Conversation(id: string, title: string, messages: seq<Message>, createdAt: int)

  const NewChatTitle: string := "New Chat"

  // ---------------------------------------------------------------------------
  // Titles (generateConversationTitle, :40-43)
  // ---------------------------------------------------------------------------

  /** The first six space-separated pieces, and "..." when there were more. */
  function GenerateTitle(firstMessage: string): (r: string)
    ensures |Split(firstMessage, ' ')| > 6 ==> |r| >= 3 && r[|r| - 3..] == "..."
  {
    var words := Split(firstMessage, ' ');
    Join(if |words| <= 6 then words else words[..6], " ") + (if |words| > 6 then "..." else "")
  }

  /** A message of at most six pieces is its own title. */
  lemma ShortTitle(m: string)
    requires |Split(m, ' ')| <= 6
    ensures GenerateTitle(m) == m
  {
    JoinSplit(m, ' ');
    assert [' '] == " ";
  }

  /**
   * A longer message is cut after its sixth piece: the title is a stem
   * followed by "...", the stem splits into exactly the first six pieces, and
   * the message continues after the stem with a space.
   */
  lemma LongTitle(m: string)
    requires |Split(m, ' ')| > 6
    ensures var t := GenerateTitle(m);
            && |t| >= 3 && t[|t| - 3..] == "..."
            && Split(t[..|t| - 3], ' ') == Split(m, ' ')[..6]
            && StartsWith(m, t[..|t| - 3] + " ")
  {
    var words := Split(m, ' ');
    var stem := Join(words[..6], " ");
    var t := stem + "...";
    assert GenerateTitle(m) == t;
    assert t[..|t| - 3] == stem;
    JoinAt(words, 6, " ");
    JoinSplit(m, ' ');
    assert [' '] == " ";
    var rest := Join(words[6..], " ");
    assert m == stem + " " + rest;
    assert (stem + " " + rest)[..|stem + " "|] == stem + " ";
    SplitPiecesFree(m, ' ');
    forall k | 0 <= k < |words[..6]|
      ensures ' ' !in words[..6][k]
    {
      assert words[..6][k] == words[k];
    }
    SplitJoin(words[..6], ' ');
  }

  /** A one-word first message is its own title. */
  lemma HelloTitle()
    ensures GenerateTitle("hello") == "hello"
  {
    SplitWithout("hello", ' ');
    ShortTitle("hello");
  }

  // ---------------------------------------------------------------------------
  // Conversation lists
  // ---------------------------------------------------------------------------

  /** An empty "New Chat", the conversation createNewConversation reuses (:84-86). */
  predicate IsEmptyNewChat(c: Conversation)
  {
    c.title == NewChatTitle && |c.messages| == 0
  }

  predicate HasId(cs: seq<Conversation>, id: string)
  {
    exists i :: 0 <= i < |cs| && cs[i].id == id
  }

  ghost predicate UniqueIds(cs: seq<Conversation>)
  {
    forall i, j :: 0 <= i < j < |cs| ==> cs[i].id != cs[j].id
  }

  /** `conversations.find(c => c.id === id)`, as a position. */
  function FindById(cs: seq<Conversation>, id: string): (r: Option<nat>)
    ensures r.Some? <==> HasId(cs, id)
    ensures r.Some? ==> r.value < |cs| && cs[r.value].id == id
    ensures r.Some? ==> forall j :: 0 <= j < r.value ==> cs[j].id != id
  {
    FindFirst(cs, (c: Conversation) => c.id == id)
  }

  /** `conversations.map(conv => conv.id === id ? c : conv)`. */
  function ReplaceById(cs: seq<Conversation>, id: string, c: Conversation): (r: seq<Conversation>)
    ensures |r| == |cs|
    ensures forall i :: 0 <= i < |cs| && cs[i].id != id ==> r[i] == cs[i]
    ensures forall i :: 0 <= i < |cs| && cs[i].id == id ==> r[i] == c
  {
    seq(|cs|, i requires 0 <= i < |cs| => if cs[i].id == id then c else cs[i])
  }

  /** The map of renameConversation (:170-174). */
  function RenameById(cs: seq<Conversation>, id: string, title: string): (r: seq<Conversation>)
    ensures |r| == |cs|
    ensures forall i :: 0 <= i < |cs| ==> r[i].id == cs[i].id && r[i].messages == cs[i].messages && r[i].createdAt == cs[i].createdAt
    ensures forall i :: 0 <= i < |cs| ==> r[i].title == if cs[i].id == id then title else cs[i].title
  {
    seq(|cs|, i requires 0 <= i < |cs| => if cs[i].id == id then cs[i].(title := title) else cs[i])
  }

  /** The filter callback of deleteConversation (:139). */
  function Without(id: string): Conversation -> bool
  {
    (c: Conversation) => c.id != id
  }

  function RemoveById(cs: seq<Conversation>, id: string): (r: seq<Conversation>)
    ensures forall c :: c in r ==> c in cs && c.id != id
  {
    FilterSpec(cs, Without(id));
    Filter(cs, Without(id))
  }

  /** What createNewConversation leaves: the list and the conversation made current. */
  datatype Opening = Opening(list: seq<Conversation>, current: Conversation)

  /**
   * createNewConversation (:80-117): the first empty "New Chat" is reused and
   * the list kept; otherwise a fresh one is prepended.
   */
  function OpenNewChat(cs: seq<Conversation>, freshId: string, now: int): (o: Opening)
    ensures (exists i :: 0 <= i < |cs| && IsEmptyNewChat(cs[i])) ==>
              && o.list == cs
              && exists i :: 0 <= i < |cs| && cs[i] == o.current && IsEmptyNewChat(cs[i]) &&
                   forall j :: 0 <= j < i ==> !IsEmptyNewChat(cs[j])
    ensures (forall i :: 0 <= i < |cs| ==> !IsEmptyNewChat(cs[i])) ==>
              && |o.list| == |cs| + 1 && o.list[0] == o.current && o.list[1..] == cs
              && IsEmptyNewChat(o.current) && o.current.id == freshId && o.current.createdAt == now
  {
    match FindFirst(cs, IsEmptyNewChat)
    case Some(i) => Opening(cs, cs[i])
    case None =>
      var created := Conversation(freshId, NewChatTitle, [], now);
      Opening([created] + cs, created)
  }

  /** The conversation made current is always in the resulting list. */
  lemma OpenedIsListed(cs: seq<Conversation>, freshId: string, now: int)
    ensures OpenNewChat(cs, freshId, now).current in OpenNewChat(cs, freshId, now).list
  {
  }

  /** Opening keeps ids unique when the fresh id is new. */
  lemma OpenKeepsUnique(cs: seq<Conversation>, freshId: string, now: int)
    requires UniqueIds(cs) && !HasId(cs, freshId)
    ensures UniqueIds(OpenNewChat(cs, freshId, now).list)
  {
    var o := OpenNewChat(cs, freshId, now);
    if o.list != cs {
      forall i, j | 0 <= i < j < |o.list|
        ensures o.list[i].id != o.list[j].id
      {
        assert o.list[j] == cs[j - 1];
        if i > 0 {
          assert o.list[i] == cs[i - 1];
        }
      }
    }
  }

  /** Replacing an entry by one with the same id keeps every id in place. */
  lemma ReplaceKeepsIds(cs: seq<Conversation>, id: string, c: Conversation)
    requires c.id == id
    ensures |ReplaceById(cs, id, c)| == |cs|
    ensures forall i :: 0 <= i < |cs| ==> ReplaceById(cs, id, c)[i].id == cs[i].id
    ensures UniqueIds(cs) ==> UniqueIds(ReplaceById(cs, id, c))
    ensures HasId(cs, id) ==> c in ReplaceById(cs, id, c)
    ensures forall x :: x in cs && x.id != id ==> x in ReplaceById(cs, id, c)
  {
    var r := ReplaceById(cs, id, c);
    if HasId(cs, id) {
      var i :| 0 <= i < |cs| && cs[i].id == id;
      assert r[i] == c;
    }
    forall x | x in cs && x.id != id
      ensures x in r
    {
      var i :| 0 <= i < |cs| && cs[i] == x;
      assert r[i] == x;
    }
  }

  /** Replacing an id no entry has changes nothing. */
  lemma ReplaceAbsent(cs: seq<Conversation>, id: string, c: Conversation)
    requires !HasId(cs, id)
    ensures ReplaceById(cs, id, c) == cs
  {
  }

  /** A second replacement under the same id overrides the first. */
  lemma ReplaceTwice(cs: seq<Conversation>, id: string, c: Conversation, d: Conversation)
    requires c.id == id
    ensures ReplaceById(ReplaceById(cs, id, c), id, d) == ReplaceById(cs, id, d)
  {
  }

  /**
   * Replacing the entry `id` by a copy of another listed conversation (what
   * the streaming updates do after a switch) duplicates that conversation's
   * id and drops conversation `id` from the list.
   */
  lemma StaleReplaceDuplicates(cs: seq<Conversation>, id: string, c: Conversation)
    requires UniqueIds(cs) && HasId(cs, id) && HasId(cs, c.id) && c.id != id
    ensures !UniqueIds(ReplaceById(cs, id, c))
    ensures !HasId(ReplaceById(cs, id, c), id)
  {
    var r := ReplaceById(cs, id, c);
    var i :| 0 <= i < |cs| && cs[i].id == id;
    var j :| 0 <= j < |cs| && cs[j].id == c.id;
    assert r[i] == c && r[j] == cs[j];
    if i < j {
      assert r[i].id == r[j].id;
    } else {
      assert r[j].id == r[i].id;
    }
  }

  /** Renaming keeps every id in place, and renames exactly the entries with that id. */
  lemma RenameSpec(cs: seq<Conversation>, id: string, title: string)
    ensures |RenameById(cs, id, title)| == |cs|
    ensures forall i :: 0 <= i < |cs| ==> RenameById(cs, id, title)[i].id == cs[i].id
    ensures forall i :: 0 <= i < |cs| && cs[i].id == id ==> RenameById(cs, id, title)[i] == cs[i].(title := title)
    ensures forall i :: 0 <= i < |cs| && cs[i].id != id ==> RenameById(cs, id, title)[i] == cs[i]
    ensures UniqueIds(cs) ==> UniqueIds(RenameById(cs, id, title))
  {
  }

  /** Deleting keeps, in order, exactly the conversations with another id. */
  lemma RemoveSpec(cs: seq<Conversation>, id: string)
    ensures IsFilter(RemoveById(cs, id), cs, Without(id))
    ensures forall c :: c in RemoveById(cs, id) <==> c in cs && c.id != id
    ensures !HasId(RemoveById(cs, id), id)
    ensures UniqueIds(cs) ==> UniqueIds(RemoveById(cs, id))
  {
    FilterSpec(cs, Without(id));
    FilterIsFilter(cs, Without(id));
    var r, idx := RemoveById(cs, id), Kept(Mask(cs, Without(id)));
    if UniqueIds(cs) {
      forall k, l | 0 <= k < l < |r|
        ensures r[k].id != r[l].id
      {
        assert idx[k] < idx[l];
      }
    }
  }

  // ---------------------------------------------------------------------------
  // Messages
  // ---------------------------------------------------------------------------

  /** `messages.map(msg => msg.id === id ? { ...msg, status } : msg)`. */
  function SetStatus(ms: seq<Message>, id: string, status: Status): (r: seq<Message>)
    ensures |r| == |ms|
    ensures forall k :: 0 <= k < |ms| ==> r[k] == ms[k].(status := r[k].status)
    ensures forall k :: 0 <= k < |ms| ==> r[k].status == if ms[k].id == id then status else ms[k].status
  {
    seq(|ms|, k requires 0 <= k < |ms| => if ms[k].id == id then ms[k].(status := status) else ms[k])
  }

  /** `messages.map(msg => msg.id === id ? { ...msg, content } : msg)`. */
  function SetContent(ms: seq<Message>, id: string, content: string): (r: seq<Message>)
    ensures |r| == |ms|
    ensures forall k :: 0 <= k < |ms| ==> r[k] == ms[k].(content := r[k].content)
    ensures forall k :: 0 <= k < |ms| ==> r[k].content == if ms[k].id == id then content else ms[k].content
  {
    seq(|ms|, k requires 0 <= k < |ms| => if ms[k].id == id then ms[k].(content := content) else ms[k])
  }

  predicate FreshIn(id: string, ms: seq<Message>)
  {
    forall k :: 0 <= k < |ms| ==> ms[k].id != id
  }

  /**
   * On a conversation that has just gained a user and an agent message with
   * fresh, distinct ids, the status update touches only the user message and
   * the content update only the agent message.
   */
  lemma UpdatesOnExchange(base: seq<Message>, user: Message, agent: Message, status: Status, content: string)
    requires FreshIn(user.id, base) && FreshIn(agent.id, base) && user.id != agent.id
    ensures SetStatus(base + [user, agent], user.id, status) == base + [user.(status := status), agent]
    ensures SetContent(base + [user, agent], agent.id, content) == base + [user, agent.(content := content)]
  {
  }

  /** An update for an id no message has changes nothing. */
  lemma UpdatesOfAbsentId(ms: seq<Message>, id: string, status: Status, content: string)
    requires FreshIn(id, ms)
    ensures SetStatus(ms, id, status) == ms
    ensures SetContent(ms, id, content) == ms
  {
  }

  // ---------------------------------------------------------------------------
  // Search (:186-195, :430-447, src/components/chat-sidebar.tsx:46-54)
  // ---------------------------------------------------------------------------

  /** `text.toLowerCase().includes(query.toLowerCase())`. */
  predicate Matches(text: string, query: string)
  {
    Contains(Lower(text), Lower(query))
  }

  /** The title, or the content of some message, matches. */
  predicate ConversationMatches(c: Conversation, query: string)
  {
    Matches(c.title, query) || exists m :: m in c.messages && Matches(m.content, query)
  }

  function ConversationQuery(query: string): Conversation -> bool
  {
    (c: Conversation) => ConversationMatches(c, query)
  }

  function MessageQuery(query: string): Message -> bool
  {
    (m: Message) => Matches(m.content, query)
  }

  function MatchingConversations(cs: seq<Conversation>, query: string): seq<Conversation>
  {
    Filter(cs, ConversationQuery(query))
  }

  function MatchingMessages(ms: seq<Message>, query: string): seq<Message>
  {
    Filter(ms, MessageQuery(query))
  }

  /** The conversation search keeps, in order, exactly the matching conversations. */
  lemma MatchingConversationsSpec(cs: seq<Conversation>, query: string)
    ensures IsFilter(MatchingConversations(cs, query), cs, ConversationQuery(query))
    ensures forall c :: c in MatchingConversations(cs, query) <==> c in cs && ConversationMatches(c, query)
  {
    FilterSpec(cs, ConversationQuery(query));
    FilterIsFilter(cs, ConversationQuery(query));
  }

  /** The message search keeps, in order, exactly the messages whose content matches. */
  lemma MatchingMessagesSpec(ms: seq<Message>, query: string)
    ensures IsFilter(MatchingMessages(ms, query), ms, MessageQuery(query))
    ensures forall m :: m in MatchingMessages(ms, query) <==> m in ms && Matches(m.content, query)
  {
    FilterSpec(ms, MessageQuery(query));
    FilterIsFilter(ms, MessageQuery(query));
  }

  /** The empty query matches every conversation. */
  lemma EmptyQueryMatchesAll(cs: seq<Conversation>)
    ensures MatchingConversations(cs, "") == cs
  {
    forall c | c in cs
      ensures ConversationQuery("")(c)
    {
      ContainsEmpty(Lower(c.title));
    }
    FilterAll(cs, ConversationQuery(""));
  }

  /** Letter case is ignored on both sides (ASCII letters). */
  lemma MatchesIgnoresCase(text: string, query: string)
    ensures Matches(Lower(text), query) == Matches(text, query)
    ensures Matches(text, Lower(query)) == Matches(text, query)
  {
    LowerIdempotent(text);
    LowerIdempotent(query);
  }

  // ---------------------------------------------------------------------------
  // Plain-text export (:449-467)
  // ---------------------------------------------------------------------------

  function SenderName(s: Sender): string
  {
    match s
    case User => "user"
    case Agent => "agent"
  }

  /** `[<time>] <sender>: <content>`, where `showTime` stands for `toLocaleString`. */
  function ExportLine(m: Message, showTime: int -> string): string
  {
    "[" + showTime(m.timestamp) + "] " + SenderName(m.sender) + ": " + m.content
  }

  function ExportText(ms: seq<Message>, showTime: int -> string): string
  {
    Join(seq(|ms|, k requires 0 <= k < |ms| => ExportLine(ms[k], showTime)), "\n")
  }

  /** The file handed to the browser's download. */
  datatype Download = Download(content: string, filename: string, contentType: string)

  function TextExport(c: Conversation, showTime: int -> string): Download
  {
    Download(ExportText(c.messages, showTime), c.title + ".txt", "text/plain")
  }

  /** The two export formats; the JSON one is the conversation pretty-printed by `serialize`. */
  datatype ExportFormat = Txt | JsonFile

  function JsonExport(c: Conversation, serialize: Conversation -> string): Download
  {
    Download(serialize(c), c.title + ".json", "application/json")
  }

  /** When no time text or content holds a newline, the export reads back as one line per message. */
  lemma ExportLines(ms: seq<Message>, showTime: int -> string)
    requires |ms| > 0
    requires forall k :: 0 <= k < |ms| ==> '\n' !in showTime(ms[k].timestamp) && '\n' !in ms[k].content
    ensures |Split(ExportText(ms, showTime), '\n')| == |ms|
    ensures forall k :: 0 <= k < |ms| ==> Split(ExportText(ms, showTime), '\n')[k] == ExportLine(ms[k], showTime)
  {
    var lines := seq(|ms|, k requires 0 <= k < |ms| => ExportLine(ms[k], showTime));
    forall k | 0 <= k < |lines|
      ensures '\n' !in lines[k]
    {
      var m := ms[k];
      assert lines[k] == "[" + showTime(m.timestamp) + "] " + SenderName(m.sender) + ": " + m.content;
    }
    assert "\n" == ['\n'];
    SplitJoin(lines, '\n');
  }
}
