/**
 * The conversation sidebar (src/components/chat-sidebar.tsx): its own
 * search box and rename editor over the store, the list it shows, and the
 * one-line preview of each conversation.
 */
module ChatSidebar {
  import opened Common
  import opened Text
  import opened Chat
  import ChatStore

  /** The list the sidebar shows (:46-54): every conversation for an empty query, else the matching ones. */
  function FilteredConversations(cs: seq<Conversation>, query: string): (r: seq<Conversation>)
    ensures forall c :: c in r <==> c in cs && (query == "" || ConversationMatches(c, query))
  {
    MatchingConversationsSpec(cs, query);
    if query == "" then cs else MatchingConversations(cs, query)
  }

  /**
   * The sidebar's filter and the store's searchConversations (use-chat-store.ts:186-195)
   * agree on every query: the empty query keeps every conversation in both.
   */
  lemma AgreesWithStoreSearch(cs: seq<Conversation>, query: string)
    ensures FilteredConversations(cs, query) == MatchingConversations(cs, query)
    ensures IsFilter(FilteredConversations(cs, query), cs, ConversationQuery(query))
  {
    if query == "" {
      EmptyQueryMatchesAll(cs);
    }
    MatchingConversationsSpec(cs, query);
  }

  const PreviewLimit := 50
  const PreviewKeep := 36
  const NewConversationPreview := "New conversation"

  /**
   * The preview under a title (:70-76): the last message's content, cut to
   * its first 36 characters and "..." when longer than 50.
   */
  function ConversationPreview(c: Conversation): (r: string)
    ensures |c.messages| == 0 ==> r == NewConversationPreview
    ensures |c.messages| > 0 && |Last(c.messages).content| <= PreviewLimit ==> r == Last(c.messages).content
    ensures |c.messages| > 0 && |Last(c.messages).content| > PreviewLimit ==>
              && |r| == PreviewKeep + 3
              && StartsWith(Last(c.messages).content, r[..PreviewKeep])
              && r[PreviewKeep..] == "..."
  {
    if |c.messages| == 0 then NewConversationPreview
    else
      var text := Last(c.messages).content;
      if |text| > PreviewLimit then text[..PreviewKeep] + "..." else text
  }

  /** A preview never exceeds 50 characters. */
  lemma PreviewBounded(c: Conversation)
    ensures |ConversationPreview(c)| <= PreviewLimit
  {
  }

  /**
   * The sidebar's local state (:42-44): the search box and the rename
   * editor (which conversation is being renamed and the text typed so far).
   */
  class Sidebar {
    var searchQuery: string
    var editingId: Option<string>
    var editingName: string

    constructor ()
      ensures searchQuery == "" && editingId == None && editingName == ""
    {
      searchQuery := "";
      editingId := None;
      editingName := "";
    }

    /** The search box's onChange (:96). */
    method SetSearchQuery(query: string)
      modifies this
      ensures searchQuery == query && editingId == old(editingId) && editingName == old(editingName)
    {
      searchQuery := query;
    }

    /** startEditing (:64-67): the editor opens on the conversation's current title. */
    method StartEditing(conversationId: string, currentTitle: string)
      modifies this
      ensures editingId == Some(conversationId) && editingName == currentTitle && searchQuery == old(searchQuery)
    {
      editingId := Some(conversationId);
      editingName := currentTitle;
    }

    /** What the sidebar lists for the store's conversations. */
    function Shown(store: ChatStore.Store): (r: seq<Conversation>)
      reads this, store
      ensures forall c :: c in r <==> c in store.conversations && ConversationMatches(c, searchQuery)
    {
      AgreesWithStoreSearch(store.conversations, searchQuery);
      MatchingConversationsSpec(store.conversations, searchQuery);
      FilteredConversations(store.conversations, searchQuery)
    }

    /**
     * handleRename (:56-62): a title that is blank once trimmed is ignored;
     * otherwise the store renames to the trimmed title. The editor closes
     * either way.
     */
    method HandleRename(store: ChatStore.Store, conversationId: string, newTitle: string)
      requires store.Linked()
      modifies this, store
      ensures store.Linked()
      ensures Trim(newTitle) == "" ==> unchanged(store)
      ensures Trim(newTitle) != "" ==>
                && store.conversations == RenameById(old(store.conversations), conversationId, Trim(newTitle))
                && store.currentConversation ==
                     (if old(store.currentConversationId) == Some(conversationId)
                      then Some(old(store.currentConversation).value.(title := Trim(newTitle)))
                      else old(store.currentConversation))
                && store.currentConversationId == old(store.currentConversationId)
                && store.filteredMessages == old(store.filteredMessages)
                && store.isLoading == old(store.isLoading)
                && store.streamingMessageId == old(store.streamingMessageId)
      ensures old(store.Consistent()) ==> store.Consistent()
      ensures editingId == None && editingName == "" && searchQuery == old(searchQuery)
    {
      var title := Trim(newTitle);
      if title != "" {
        store.RenameConversation(conversationId, title);
      }
      editingId := None;
      editingName := "";
    }
  }

  /** A title set through the sidebar is never blank and has no surrounding white space. */
  lemma RenamedTitleIsTrimmed(cs: seq<Conversation>, conversationId: string, newTitle: string)
    requires Trim(newTitle) != ""
    ensures forall i :: 0 <= i < |cs| && cs[i].id == conversationId ==>
              var t := RenameById(cs, conversationId, Trim(newTitle))[i].title;
              t != "" && Trim(t) == t
  {
    RenameSpec(cs, conversationId, Trim(newTitle));
    TrimIdempotent(newTitle);
  }
}

/**
 * The message pane's choice of messages (src/components/chat-container.tsx:64-66):
 * a non-empty search result, else the current conversation's messages.
 */
module ChatContainer {
  import opened Common
  import opened Text
  import opened Chat

  function DisplayMessages(filtered: seq<Message>, current: Option<Conversation>): (r: seq<Message>)
    ensures |filtered| > 0 ==> r == filtered
    ensures |filtered| == 0 && current.Some? ==> r == current.value.messages
    ensures |filtered| == 0 && current.None? ==> r == []
  {
    if |filtered| > 0 then filtered
    else match current
      case Some(c) => c.messages
      case None => []
  }

  /**
   * After the store's searchMessages, the pane shows the matching messages
   * of the current conversation, or all of them when nothing matches or the
   * query is blank: it never shows a message from another conversation.
   */
  lemma DisplayAfterSearch(c: Conversation, query: string)
    ensures var filtered := if Trim(query) == "" then [] else MatchingMessages(c.messages, query);
            var r := DisplayMessages(filtered, Some(c));
            && (forall m :: m in r ==> m in c.messages)
            && (Trim(query) == "" || (forall m :: m in c.messages ==> !Matches(m.content, query)) ==> r == c.messages)
            && (Trim(query) != "" && (exists m :: m in c.messages && Matches(m.content, query)) ==>
                  forall m :: m in r <==> m in c.messages && Matches(m.content, query))
  {
    MatchingMessagesSpec(c.messages, query);
    var filtered := MatchingMessages(c.messages, query);
    assert |filtered| > 0 ==> filtered[0] in c.messages && Matches(filtered[0].content, query);
    if Trim(query) != "" && exists m :: m in c.messages && Matches(m.content, query) {
      var m :| m in c.messages && Matches(m.content, query);
      assert m in filtered;
    }
  }
}
