/**
 * The conversation store (useChatStore, src/hooks/use-chat-store.ts): a
 * state object whose operations replace its fields. `currentConversation`
 * is a copy of a list entry, and nothing but the operations' own care keeps
 * the copy and the entry equal: `Consistent` says they agree, and each
 * operation says when it preserves that.
 *
 * sendMessage is split at its `await`s into steps (post the exchange, apply a
 * chunk, complete, error, failure), each a method with its own contract
 * valid in any state, so that other operations may run between them; the
 * driver `SendMessage` runs them without interruption.
 */
module ChatStore {
  import opened Common
  import opened Text
  import opened Json
  import opened Chat
  import Fetch
  import CS = ClientStream

  /** The conversation sendMessage writes to: the current one, or the one createNewConversation opens (:201-206). */
  function Opened(cs: seq<Conversation>, current: Option<Conversation>, freshId: string, now: int): Opening
  {
    match current
    case Some(c) => Opening(cs, c)
    case None => OpenNewChat(cs, freshId, now)
  }

  /** The conversation with the exchange appended, retitled when it was still "New Chat" (:226-239). */
  function Exchanged(base: Conversation, content: string, user: Message, agent: Message): Conversation
  {
    base.(messages := base.messages + [user, agent],
          title := if base.title == NewChatTitle then GenerateTitle(content) else base.title)
  }

  /** One send: the list and conversation it starts from, the text sent, and the two messages as created. */
  datatype Exchange = Exchange(list: seq<Conversation>, base: Conversation, text: string, user: Message, agent: Message)

  /** The conversation as it shows a send at stage `s`. */
  function Shown(x: Exchange, s: CS.Settled): Conversation
  {
    Exchanged(x.base, x.text, x.user.(status := s.userStatus), x.agent.(content := s.content))
  }

  /** The ids of a send are fresh: neither message id occurs in the conversation yet. */
  predicate FreshExchange(x: Exchange)
  {
    FreshIn(x.user.id, x.base.messages) && FreshIn(x.agent.id, x.base.messages) && x.user.id != x.agent.id
  }

  class Store {
    var conversations: seq<Conversation>
    var currentConversationId: Option<string>
    var currentConversation: Option<Conversation>
    var filteredMessages: seq<Message>
    var isLoading: bool
    var streamingMessageId: Option<string>

    /** The initial state (:73-78). */
    constructor ()
      ensures conversations == [] && currentConversationId == None && currentConversation == None
      ensures filteredMessages == [] && !isLoading && streamingMessageId == None
      ensures Consistent()
    {
      conversations := [];
      currentConversationId := None;
      currentConversation := None;
      filteredMessages := [];
      isLoading := false;
      streamingMessageId := None;
    }

    /** The id field names the snapshot: every operation keeps the two together. */
    ghost predicate Linked()
      reads this
    {
      match currentConversation
      case None => currentConversationId.None?
      case Some(c) => currentConversationId == Some(c.id)
    }

    /** Ids are unique and the current conversation is the list's entry for its id. */
    ghost predicate Consistent()
      reads this
    {
      && Linked()
      && UniqueIds(conversations)
      && (currentConversation.Some? ==> currentConversation.value in conversations)
    }

    // -------------------------------------------------------------------------
    // Conversation management
    // -------------------------------------------------------------------------

    /** createNewConversation (:80-117); `freshId` and `now` stand for generateUniqueId and the clock. */
    method CreateNewConversation(freshId: string, now: int)
      modifies this
      ensures Linked()
      ensures var o := OpenNewChat(old(conversations), freshId, now);
              conversations == o.list && currentConversation == Some(o.current)
      ensures filteredMessages == []
      ensures isLoading == old(isLoading) && streamingMessageId == old(streamingMessageId)
      ensures old(Consistent()) && !HasId(old(conversations), freshId) ==> Consistent()
    {
      ghost var before := conversations;
      ghost var wasConsistent := Consistent();
      var existing := FindFirst(conversations, IsEmptyNewChat);
      if existing.Some? {
        var c := conversations[existing.value];
        currentConversationId := Some(c.id);
        currentConversation := Some(c);
        filteredMessages := [];
        return;
      }
      var created := Conversation(freshId, NewChatTitle, [], now);
      conversations := [created] + conversations;
      currentConversationId := Some(created.id);
      currentConversation := Some(created);
      filteredMessages := [];
      if wasConsistent && !HasId(before, freshId) {
        OpenKeepsUnique(before, freshId, now);
      }
    }

    /** switchConversation (:119-134): an unknown id changes nothing. */
    method SwitchConversation(conversationId: string)
      requires Linked()
      modifies this
      ensures Linked()
      ensures conversations == old(conversations)
      ensures !HasId(conversations, conversationId) ==> unchanged(this)
      ensures HasId(conversations, conversationId) ==>
                && currentConversation == Some(conversations[FindById(conversations, conversationId).value])
                && filteredMessages == [] && !isLoading && streamingMessageId == None
      ensures old(Consistent()) ==> Consistent()
    {
      var found := FindById(conversations, conversationId);
      if found.Some? {
        currentConversationId := Some(conversationId);
        currentConversation := Some(conversations[found.value]);
        filteredMessages := [];
        isLoading := false;
        streamingMessageId := None;
      }
    }

    /**
     * deleteConversation (:136-166): the others stay in order; deleting the
     * current conversation makes the first remaining one current, or none.
     */
    method DeleteConversation(conversationId: string)
      requires Linked()
      modifies this
      ensures Linked()
      ensures conversations == RemoveById(old(conversations), conversationId)
      ensures old(currentConversationId) == Some(conversationId) ==>
                currentConversation == if |conversations| > 0 then Some(conversations[0]) else None
      ensures old(currentConversationId) != Some(conversationId) ==>
                currentConversation == old(currentConversation) && currentConversationId == old(currentConversationId)
      ensures filteredMessages == []
      ensures isLoading == old(isLoading) && streamingMessageId == old(streamingMessageId)
      ensures old(Consistent()) ==> Consistent()
    {
      ghost var before := conversations;
      var updated := RemoveById(conversations, conversationId);
      if Consistent() {
        DeleteKeepsConsistent(before, conversationId, currentConversation);
      }
      var newCurrent: Option<Conversation> := None;
      var newCurrentId: Option<string> := None;
      if currentConversationId == Some(conversationId) {
        if |updated| > 0 {
          newCurrent := Some(updated[0]);
          newCurrentId := Some(updated[0].id);
        }
      } else {
        newCurrent := currentConversation;
        newCurrentId := currentConversationId;
      }
      conversations := updated;
      currentConversationId := newCurrentId;
      currentConversation := newCurrent;
      filteredMessages := [];
    }

    /** The facts behind `Consistent()` after a deletion. */
    static lemma DeleteKeepsConsistent(before: seq<Conversation>, id: string, current: Option<Conversation>)
      requires UniqueIds(before)
      requires current.Some? ==> current.value in before
      ensures UniqueIds(RemoveById(before, id))
      ensures current.Some? && current.value.id != id ==> current.value in RemoveById(before, id)
    {
      RemoveSpec(before, id);
    }

    /**
     * renameConversation (:168-184): every entry with the id gets the title
     * as given (neither trimmed nor checked), and so does the current copy
     * when it is that conversation.
     */
    method RenameConversation(conversationId: string, newTitle: string)
      requires Linked()
      modifies this
      ensures Linked()
      ensures conversations == RenameById(old(conversations), conversationId, newTitle)
      ensures currentConversation ==
                if old(currentConversationId) == Some(conversationId)
                then Some(old(currentConversation).value.(title := newTitle))
                else old(currentConversation)
      ensures currentConversationId == old(currentConversationId) && filteredMessages == old(filteredMessages)
      ensures isLoading == old(isLoading) && streamingMessageId == old(streamingMessageId)
      ensures old(Consistent()) ==> Consistent()
    {
      ghost var before := conversations;
      conversations := RenameById(conversations, conversationId, newTitle);
      if currentConversationId == Some(conversationId) {
        currentConversation := Some(currentConversation.value.(title := newTitle));
      }
      RenameSpec(before, conversationId, newTitle);
      if old(Consistent()) && currentConversation.Some? {
        var c := old(currentConversation).value;
        var i :| 0 <= i < |before| && before[i] == c;
        assert conversations[i] == currentConversation.value;
      }
    }

    /** searchConversations (:186-195): the matching conversations, in list order. */
    function SearchConversations(query: string): (r: seq<Conversation>)
      reads this
      ensures forall c :: c in r <==> c in conversations && ConversationMatches(c, query)
    {
      MatchingConversationsSpec(conversations, query);
      MatchingConversations(conversations, query)
    }

    /**
     * searchMessages (:430-447): no current conversation or a blank query
     * clears the filter; otherwise the current messages whose content matches
     * the (untrimmed) query.
     */
    method SearchMessages(query: string)
      modifies this
      ensures filteredMessages ==
                if currentConversation.None? || Trim(query) == "" then []
                else MatchingMessages(currentConversation.value.messages, query)
      ensures conversations == old(conversations) && currentConversation == old(currentConversation)
      ensures currentConversationId == old(currentConversationId)
      ensures isLoading == old(isLoading) && streamingMessageId == old(streamingMessageId)
    {
      if currentConversation.None? {
        filteredMessages := [];
        return;
      }
      if Trim(query) == "" {
        filteredMessages := [];
        return;
      }
      filteredMessages := MatchingMessages(currentConversation.value.messages, query);
    }

    /**
     * exportCurrentChat (:449-476): the file handed to downloadFile, or none
     * without a current conversation; `showTime` stands for toLocaleString and
     * `serialize` for JSON.stringify with two-space indentation.
     */
    function ExportCurrentChat(format: ExportFormat, showTime: int -> string, serialize: Conversation -> string)
      : (r: Option<Download>)
      reads this
      ensures r.None? <==> currentConversation.None?
      ensures r.Some? && format == Txt ==>
                && r.value.filename == currentConversation.value.title + ".txt"
                && r.value.contentType == "text/plain"
                && r.value.content == ExportText(currentConversation.value.messages, showTime)
      ensures r.Some? && format == JsonFile ==>
                && r.value.filename == currentConversation.value.title + ".json"
                && r.value.contentType == "application/json"
                && r.value.content == serialize(currentConversation.value)
    {
      match currentConversation
      case None => None
      case Some(c) => Some(if format == Txt then TextExport(c, showTime) else JsonExport(c, serialize))
    }

    // -------------------------------------------------------------------------
    // sendMessage, step by step
    // -------------------------------------------------------------------------

    /**
     * The rebuilt snapshot `c` (the current conversation with its messages
     * updated) replaces the entry `convId` and becomes current, as every
     * update of sendMessage does. When the current conversation is no longer
     * `convId` (a switch happened during the send), that entry is overwritten
     * by a copy of the current one: ids stop being unique and conversation
     * `convId` is gone.
     */
    method ReplaceCurrent(convId: string, c: Conversation)
      requires Linked() && currentConversation.Some? && c.id == currentConversation.value.id
      modifies this
      ensures Linked()
      ensures conversations == ReplaceById(old(conversations), convId, c) && currentConversation == Some(c)
      ensures currentConversationId == old(currentConversationId) && filteredMessages == old(filteredMessages)
      ensures isLoading == old(isLoading) && streamingMessageId == old(streamingMessageId)
      ensures old(Consistent()) && convId == c.id ==> Consistent()
      ensures old(Consistent()) && convId != c.id && HasId(old(conversations), convId) ==>
                !UniqueIds(conversations) && !HasId(conversations, convId)
    {
      ghost var before := conversations;
      ghost var wasConsistent := Consistent();
      ghost var current := currentConversation.value;
      conversations := ReplaceById(conversations, convId, c);
      currentConversation := Some(c);
      if wasConsistent {
        if convId == c.id {
          ReplaceKeepsIds(before, convId, c);
          var i :| 0 <= i < |before| && before[i] == current;
          assert HasId(before, convId);
        } else if HasId(before, convId) {
          var i :| 0 <= i < |before| && before[i] == current;
          assert HasId(before, c.id);
          StaleReplaceDuplicates(before, convId, c);
        }
      }
    }

    /** The guarded update of :242-261: nothing happens when `convId` is no longer listed. */
    method PostExchange(convId: string, updated: Conversation, agentId: string)
      requires Linked() && currentConversationId == Some(convId) && updated.id == convId
      modifies this
      ensures Linked()
      ensures !HasId(old(conversations), convId) ==> unchanged(this)
      ensures HasId(old(conversations), convId) ==>
                && conversations == ReplaceById(old(conversations), convId, updated)
                && currentConversation == Some(updated)
                && isLoading && streamingMessageId == Some(agentId)
      ensures currentConversationId == old(currentConversationId) && filteredMessages == old(filteredMessages)
    {
      if !HasId(conversations, convId) {
        return;
      }
      ReplaceCurrent(convId, updated);
      isLoading := true;
      streamingMessageId := Some(agentId);
    }

    /** The unguarded status updates, to delivered (:265-280) and to failed (:410-425). */
    method MarkUser(convId: string, userId: string, status: Status) returns (threw: bool)
      requires Linked()
      modifies this
      ensures Linked()
      ensures threw <==> old(currentConversation).None?
      ensures threw ==> unchanged(this)
      ensures !threw ==>
                var c := old(currentConversation).value;
                var marked := c.(messages := SetStatus(c.messages, userId, status));
                && conversations == ReplaceById(old(conversations), convId, marked)
                && currentConversation == Some(marked)
                && isLoading == old(isLoading) && streamingMessageId == old(streamingMessageId)
      ensures currentConversationId == old(currentConversationId) && filteredMessages == old(filteredMessages)
    {
      if currentConversation.None? {
        return true;
      }
      var c := currentConversation.value;
      ReplaceCurrent(convId, c.(messages := SetStatus(c.messages, userId, status)));
      return false;
    }

    /**
     * A chunk event (:315-346): guarded by the existence of `convId`; with no
     * current conversation reading it throws (into the line's own catch).
     */
    method ApplyChunk(convId: string, agentId: string, accumulated: string) returns (threw: bool)
      requires Linked()
      modifies this
      ensures Linked()
      ensures threw <==> HasId(old(conversations), convId) && old(currentConversation).None?
      ensures !HasId(old(conversations), convId) || threw ==> unchanged(this)
      ensures HasId(old(conversations), convId) && !threw ==>
                var c := old(currentConversation).value;
                var updated := c.(messages := SetContent(c.messages, agentId, accumulated));
                && conversations == ReplaceById(old(conversations), convId, updated)
                && currentConversation == Some(updated)
      ensures currentConversationId == old(currentConversationId) && filteredMessages == old(filteredMessages)
      ensures isLoading == old(isLoading) && streamingMessageId == old(streamingMessageId)
      ensures old(Consistent()) && old(currentConversationId) == Some(convId) ==> Consistent()
      ensures old(Consistent()) && old(currentConversationId).Some? && old(currentConversationId) != Some(convId) &&
              HasId(old(conversations), convId)
              ==> !UniqueIds(conversations) && !HasId(conversations, convId)
    {
      if !HasId(conversations, convId) {
        return false;
      }
      if currentConversation.None? {
        return true;
      }
      var c := currentConversation.value;
      ReplaceCurrent(convId, c.(messages := SetContent(c.messages, agentId, accumulated)));
      return false;
    }

    /** A complete event (:349-353). */
    method ApplyComplete()
      modifies this
      ensures !isLoading && streamingMessageId == None
      ensures conversations == old(conversations) && currentConversation == old(currentConversation)
      ensures currentConversationId == old(currentConversationId) && filteredMessages == old(filteredMessages)
    {
      isLoading := false;
      streamingMessageId := None;
    }

    /** An error event (:354-375): unguarded; with no current conversation it throws (into the line's catch). */
    method ApplyError(convId: string, agentId: string, content: string) returns (threw: bool)
      requires Linked()
      modifies this
      ensures Linked()
      ensures threw <==> old(currentConversation).None?
      ensures threw ==> unchanged(this)
      ensures !threw ==>
                var c := old(currentConversation).value;
                var updated := c.(messages := SetContent(c.messages, agentId, content));
                && conversations == ReplaceById(old(conversations), convId, updated)
                && currentConversation == Some(updated)
                && !isLoading && streamingMessageId == None
      ensures currentConversationId == old(currentConversationId) && filteredMessages == old(filteredMessages)
    {
      if currentConversation.None? {
        return true;
      }
      var c := currentConversation.value;
      ReplaceCurrent(convId, c.(messages := SetContent(c.messages, agentId, content)));
      isLoading := false;
      streamingMessageId := None;
      return false;
    }

    /**
     * The outer catch (:383-426): the agent message shows the apology and
     * the flags clear, then the user message is marked failed. With no current
     * conversation the first update throws and the second never runs.
     */
    method RecordFailure(convId: string, agentId: string, userId: string, message: string) returns (threw: bool)
      requires Linked()
      modifies this
      ensures Linked()
      ensures threw <==> old(currentConversation).None?
      ensures threw ==> unchanged(this)
      ensures !threw ==>
                var c := old(currentConversation).value;
                var apologised := c.(messages := SetContent(c.messages, agentId, CS.FailureText(message)));
                var failed := apologised.(messages := SetStatus(apologised.messages, userId, Failed));
                && conversations == ReplaceById(ReplaceById(old(conversations), convId, apologised), convId, failed)
                && currentConversation == Some(failed)
                && !isLoading && streamingMessageId == None
      ensures currentConversationId == old(currentConversationId) && filteredMessages == old(filteredMessages)
    {
      threw := ApplyError(convId, agentId, CS.FailureText(message));
      if threw {
        return;
      }
      threw := MarkUser(convId, userId, Failed);
    }

    // -------------------------------------------------------------------------
    // sendMessage without interruption
    // -------------------------------------------------------------------------

    /** A send can be tracked: the store is consistent and the ids it is given are fresh. */
    ghost predicate FreshFor(freshConvId: string, userId: string, agentId: string, now: int)
      reads this
    {
      var o := Opened(conversations, currentConversation, freshConvId, now);
      && Consistent()
      && !HasId(conversations, freshConvId)
      && userId != agentId && FreshIn(userId, o.current.messages) && FreshIn(agentId, o.current.messages)
    }

    /** The store shows send `x` at stage `s`, and nothing else has changed. */
    ghost predicate Tracks(x: Exchange, s: CS.Settled)
      reads this
    {
      && UniqueIds(x.list) && x.base in x.list && FreshExchange(x)
      && conversations == ReplaceById(x.list, x.base.id, Shown(x, s))
      && currentConversation == Some(Shown(x, s)) && currentConversationId == Some(x.base.id)
      && isLoading == s.streaming
      && streamingMessageId == (if s.streaming then Some(x.agent.id) else None)
    }

    /**
     * The synchronous start of sendMessage (:197-280): open a conversation if
     * none is current, post the user message ("sent") and the empty agent
     * message ("delivered"), then mark the user message delivered.
     */
    method BeginSend(content: string, freshConvId: string, userId: string, agentId: string, now: int)
      returns (convId: string)
      requires Linked()
      modifies this
      ensures Linked()
      ensures var o := Opened(old(conversations), old(currentConversation), freshConvId, now);
              var user, agent := Message(userId, content, User, now, Sent), Message(agentId, "", Agent, now, Delivered);
              var posted := Exchanged(o.current, content, user, agent);
              var marked := posted.(messages := SetStatus(posted.messages, userId, Delivered));
              && convId == o.current.id
              && (HasId(o.list, convId) ==>
                    conversations == ReplaceById(o.list, convId, marked) && currentConversation == Some(marked)
                    && isLoading && streamingMessageId == Some(agentId))
              && (!HasId(o.list, convId) ==>
                    conversations == o.list
                    && currentConversation == Some(o.current.(messages := SetStatus(o.current.messages, userId, Delivered)))
                    && isLoading == old(isLoading) && streamingMessageId == old(streamingMessageId))
      ensures filteredMessages == if old(currentConversation).None? then [] else old(filteredMessages)
      ensures old(FreshFor(freshConvId, userId, agentId, now)) ==>
                var o := Opened(old(conversations), old(currentConversation), freshConvId, now);
                Tracks(Exchange(o.list, o.current, content, Message(userId, content, User, now, Sent),
                                Message(agentId, "", Agent, now, Delivered)),
                       CS.Settled(Delivered, "", true))
    {
      ghost var ready := FreshFor(freshConvId, userId, agentId, now);
      ghost var o := Opened(conversations, currentConversation, freshConvId, now);
      if currentConversation.None? {
        CreateNewConversation(freshConvId, now);
      }
      var base := currentConversation.value;
      convId := base.id;
      var user := Message(userId, content, User, now, Sent);
      var agent := Message(agentId, "", Agent, now, Delivered);
      var updated := Exchanged(base, content, user, agent);
      PostExchange(convId, updated, agentId);
      var threw := MarkUser(convId, userId, Delivered);
      var marked := updated.(messages := SetStatus(updated.messages, userId, Delivered));
      if HasId(o.list, convId) {
        ReplaceTwice(o.list, convId, updated, marked);
      } else {
        ReplaceAbsent(o.list, convId, o.current.(messages := SetStatus(o.current.messages, userId, Delivered)));
      }
      if ready {
        var x := Exchange(o.list, o.current, content, user, agent);
        OpenedInList(old(conversations), old(currentConversation), freshConvId, now);
        UpdatesOnExchange(base.messages, user, agent, Delivered, "");
        assert marked == Shown(x, CS.Settled(Delivered, "", true));
      }
    }

    /** One action of the read loop (:313-376). */
    method Act(convId: string, agentId: string, accumulated: string, action: CS.Action,
               ghost x: Exchange, ghost p: CS.Progress)
      returns (acc: string)
      requires Linked()
      modifies this
      ensures Linked() && filteredMessages == old(filteredMessages)
      ensures acc == CS.Step(CS.Progress(accumulated, "", false), action).accumulated
      ensures old(Tracks(x, CS.Showing(p))) && accumulated == p.accumulated &&
              convId == x.base.id && agentId == x.agent.id ==>
                acc == CS.Step(p, action).accumulated && Tracks(x, CS.Showing(CS.Step(p, action)))
    {
      ghost var tracking := Tracks(x, CS.Showing(p)) && accumulated == p.accumulated &&
                            convId == x.base.id && agentId == x.agent.id;
      ghost var before := conversations;
      if tracking {
        ShownListed(x, CS.Showing(p));
      }
      match action
      case Append(t) =>
        acc := accumulated + t;
        var threw := ApplyChunk(convId, agentId, acc);
        if tracking {
          ShownUpdated(x, CS.Showing(p), acc);
          ReplaceTwice(x.list, convId, Shown(x, CS.Showing(p)), Shown(x, CS.Showing(CS.Step(p, action))));
        }
      case Finish =>
        acc := accumulated;
        ApplyComplete();
      case Fail(content) =>
        acc := accumulated;
        var threw := ApplyError(convId, agentId, content);
        if tracking {
          ShownUpdated(x, CS.Showing(p), content);
          ReplaceTwice(x.list, convId, Shown(x, CS.Showing(p)), Shown(x, CS.Showing(CS.Step(p, action))));
        }
    }

    /** One line of a read (:308-378): the action it decodes to, if any. */
    method ReadLine(convId: string, agentId: string, accumulated: string, line: string, parse: Parser,
                    ghost x: Exchange, ghost p: CS.Progress)
      returns (acc: string)
      requires Linked()
      modifies this
      ensures Linked() && filteredMessages == old(filteredMessages)
      ensures old(Tracks(x, CS.Showing(p))) && accumulated == p.accumulated &&
              convId == x.base.id && agentId == x.agent.id ==>
                var q := CS.Fold(p, Opt(CS.LineAction(line, parse)));
                acc == q.accumulated && Tracks(x, CS.Showing(q))
    {
      var action := CS.LineAction(line, parse);
      if action.Some? {
        acc := Act(convId, agentId, accumulated, action.value, x, p);
        CS.FoldSnoc(p, [], action.value);
        assert [] + [action.value] == Opt(action);
      } else {
        acc := accumulated;
      }
    }

    /** The lines of one read, in order (:307-379). */
    method ReadChunk(convId: string, agentId: string, accumulated: string, chunk: string, parse: Parser,
                     ghost x: Exchange, ghost p0: CS.Progress)
      returns (acc: string)
      requires Linked()
      modifies this
      ensures Linked() && filteredMessages == old(filteredMessages)
      ensures old(Tracks(x, CS.Showing(p0))) && accumulated == p0.accumulated &&
              convId == x.base.id && agentId == x.agent.id ==>
                var p := CS.Fold(p0, CS.LineActions(Split(chunk, '\n'), parse));
                acc == p.accumulated && Tracks(x, CS.Showing(p))
    {
      ghost var tracking := Tracks(x, CS.Showing(p0)) && accumulated == p0.accumulated &&
                            convId == x.base.id && agentId == x.agent.id;
      var lines := Split(chunk, '\n');
      acc := accumulated;
      ghost var p := p0;
      for j := 0 to |lines|
        invariant p == CS.Fold(p0, CS.LineActions(lines[..j], parse))
        invariant Linked() && filteredMessages == old(filteredMessages)
        invariant tracking ==> acc == p.accumulated && Tracks(x, CS.Showing(p))
      {
        acc := ReadLine(convId, agentId, acc, lines[j], parse, x, p);
        CS.LineActionsStep(lines, j, parse);
        CS.FoldAppend(p0, CS.LineActions(lines[..j], parse), Opt(CS.LineAction(lines[j], parse)));
        p := CS.Fold(p, Opt(CS.LineAction(lines[j], parse)));
      }
      assert lines[..|lines|] == lines;
    }

    /** The read loop (:303-381) over the reads of a body that ends normally. */
    method ReadStream(convId: string, agentId: string, chunks: seq<string>, parse: Parser, ghost x: Exchange)
      requires Linked()
      modifies this
      ensures Linked() && filteredMessages == old(filteredMessages)
      ensures old(Tracks(x, CS.Showing(CS.Initial))) && convId == x.base.id && agentId == x.agent.id ==>
                Tracks(x, CS.Showing(CS.Fold(CS.Initial, CS.Actions(chunks, parse))))
    {
      ghost var tracking := Tracks(x, CS.Showing(CS.Initial)) && convId == x.base.id && agentId == x.agent.id;
      var accumulated := "";
      ghost var p := CS.Initial;
      var i := 0;
      while i < |chunks|
        invariant 0 <= i <= |chunks|
        invariant p == CS.Fold(CS.Initial, CS.Actions(chunks[..i], parse))
        invariant Linked() && filteredMessages == old(filteredMessages)
        invariant tracking ==> accumulated == p.accumulated && Tracks(x, CS.Showing(p))
      {
        accumulated := ReadChunk(convId, agentId, accumulated, chunks[i], parse, x, p);
        CS.ActionsStep(chunks, i, parse);
        CS.FoldAppend(CS.Initial, CS.Actions(chunks[..i], parse), CS.LineActions(Split(chunks[i], '\n'), parse));
        p := CS.Fold(p, CS.LineActions(Split(chunks[i], '\n'), parse));
        i := i + 1;
      }
      assert chunks[..i] == chunks;
    }

    /** The outer catch on a tracked send. */
    method Fail(convId: string, agentId: string, userId: string, message: string, ghost x: Exchange, ghost s: CS.Settled)
      requires Linked()
      modifies this
      ensures Linked() && filteredMessages == old(filteredMessages)
      ensures old(Tracks(x, s)) && convId == x.base.id && agentId == x.agent.id && userId == x.user.id ==>
                Tracks(x, CS.Settled(Failed, CS.FailureText(message), false))
    {
      ghost var tracking := Tracks(x, s) && convId == x.base.id && agentId == x.agent.id && userId == x.user.id;
      var threw := RecordFailure(convId, agentId, userId, message);
      if tracking {
        var text := CS.FailureText(message);
        ShownListed(x, s);
        ShownUpdated(x, s, text);
        ShownMarked(x, s.(content := text), Failed);
        var apologised := Shown(x, s.(content := text));
        ReplaceTwice(x.list, convId, Shown(x, s), apologised);
        ReplaceTwice(x.list, convId, apologised, Shown(x, CS.Settled(Failed, text, s.streaming)));
        assert Shown(x, CS.Settled(Failed, text, s.streaming)) == Shown(x, CS.Settled(Failed, text, false));
      }
    }

    /**
     * sendMessage (:197-427) with the response abstracted to `up`
     * fetch's result, then the body's reads) and `parse` standing for
     * JSON.parse. Run without interruption from a consistent store with fresh
     * ids, it leaves the conversation with the two new messages as
     * `ClientStream.Settle` describes them, the list entry equal to it, and
     * the store consistent.
     */
    method SendMessage(content: string, freshConvId: string, userId: string, agentId: string, now: int,
                       up: Fetch.Outcome, parse: Parser)
      requires Linked()
      modifies this
      ensures Linked()
      ensures old(FreshFor(freshConvId, userId, agentId, now)) ==>
                var o := Opened(old(conversations), old(currentConversation), freshConvId, now);
                var x := Exchange(o.list, o.current, content, Message(userId, content, User, now, Sent),
                                  Message(agentId, "", Agent, now, Delivered));
                && Tracks(x, CS.Settle(up, parse))
                && filteredMessages == (if old(currentConversation).None? then [] else old(filteredMessages))
                && Consistent()
    {
      ghost var o := Opened(conversations, currentConversation, freshConvId, now);
      ghost var x := Exchange(o.list, o.current, content, Message(userId, content, User, now, Sent),
                              Message(agentId, "", Agent, now, Delivered));
      var convId := BeginSend(content, freshConvId, userId, agentId, now);
      ghost var start := CS.Showing(CS.Initial);
      match up {
      case Rejected(m) =>
        Fail(convId, agentId, userId, m, x, start);
      case NotOk(status, detail) =>
        Fail(convId, agentId, userId, "HTTP " + NatToString(status) + ": " + detail, x, start);
      case NoBody =>
        Fail(convId, agentId, userId, "ReadableStream not supported", x, start);
      case Body(chunks, failure) =>
        ReadStream(convId, agentId, chunks, parse, x);
        if failure.Some? {
          Fail(convId, agentId, userId, failure.value, x, CS.Showing(CS.Fold(CS.Initial, CS.Actions(chunks, parse))));
        }
      }
      if old(FreshFor(freshConvId, userId, agentId, now)) {
        TracksConsistent(x, CS.Settle(up, parse));
      }
    }

    /** A tracked send leaves the store consistent. */
    lemma TracksConsistent(x: Exchange, s: CS.Settled)
      requires Tracks(x, s)
      ensures Consistent()
    {
      ShownListed(x, s);
    }
  }

  // ---------------------------------------------------------------------------
  // Facts about a tracked send
  // ---------------------------------------------------------------------------

  /** The conversation sendMessage writes to is listed, and the list keeps unique ids. */
  lemma OpenedInList(cs: seq<Conversation>, current: Option<Conversation>, freshId: string, now: int)
    requires UniqueIds(cs) && !HasId(cs, freshId) && (current.Some? ==> current.value in cs)
    ensures Opened(cs, current, freshId, now).current in Opened(cs, current, freshId, now).list
    ensures UniqueIds(Opened(cs, current, freshId, now).list)
  {
    if current.None? {
      OpenedIsListed(cs, freshId, now);
      OpenKeepsUnique(cs, freshId, now);
    }
  }

  /** Showing a send in the list keeps its entry listed and the ids unique. */
  lemma ShownListed(x: Exchange, s: CS.Settled)
    requires UniqueIds(x.list) && x.base in x.list
    ensures var cs := ReplaceById(x.list, x.base.id, Shown(x, s));
            HasId(cs, x.base.id) && Shown(x, s) in cs && UniqueIds(cs)
  {
    var i :| 0 <= i < |x.list| && x.list[i] == x.base;
    assert HasId(x.list, x.base.id);
    ReplaceKeepsIds(x.list, x.base.id, Shown(x, s));
  }

  /** Setting the agent message's content moves the send to a stage showing that content. */
  lemma ShownUpdated(x: Exchange, s: CS.Settled, content: string)
    requires FreshExchange(x)
    ensures var c := Shown(x, s);
            c.(messages := SetContent(c.messages, x.agent.id, content)) == Shown(x, s.(content := content))
  {
    UpdatesOnExchange(x.base.messages, x.user.(status := s.userStatus), x.agent.(content := s.content), Delivered, content);
  }

  /** Setting the user message's status moves the send to a stage with that status. */
  lemma ShownMarked(x: Exchange, s: CS.Settled, status: Status)
    requires FreshExchange(x)
    ensures var c := Shown(x, s);
            c.(messages := SetStatus(c.messages, x.user.id, status)) == Shown(x, s.(userStatus := status))
  {
    UpdatesOnExchange(x.base.messages, x.user.(status := s.userStatus), x.agent.(content := s.content), status, "");
  }

  /** A tracked send's conversation gains exactly the user and the agent message. */
  lemma ExchangeAppendsTwo(x: Exchange, s: CS.Settled)
    ensures Shown(x, s).messages == x.base.messages + [x.user.(status := s.userStatus), x.agent.(content := s.content)]
    ensures Shown(x, s).id == x.base.id
    ensures x.base.title == NewChatTitle ==> Shown(x, s).title == GenerateTitle(x.text)
    ensures x.base.title != NewChatTitle ==> Shown(x, s).title == x.base.title
  {
  }
}
