/**
 * The conversation store of src/stores/chat.ts: an ordered list of conversations
 * (newest first), the current selection and the shared `isLoading`/`error` flags.
 *
 * Conversations are heap objects, as in the source: `handleAIResponse` finds its
 * conversation before its one `await` and pushes onto that same object afterwards,
 * so a reply to a conversation deleted in between lands on an object that is no
 * longer in the list. The reply is split at that `await` into `BeginReply` and
 * `FinishReply`; the caller decides what runs in between. Ids and clock values
 * (`Date.now()`, `new Date()`) are parameters.
 */
module Chat {
  import opened Wrappers
  import Format

  datatype Role = User | Assistant | System

  datatype Message = Message(id: string, content: string, role: Role, timestamp: int, isStreaming: Option<bool>)

  /** Title of a conversation that has no message yet. */
  const DefaultTitle := "新對話"

  /** Number of characters of the first message kept in the title. */
  const TitleMaxLength := 30

  /** Error with which `sendMessage` rejects an unknown conversation id. */
  const NotFoundError := "對話不存在"

  const ReplyPrefix := "這是 AI 的回覆：\n\n您說：「"

  const ReplySuffix := "」\n\n這是一個模擬回覆，實際應該連接後端 API。\n\n支援 **Markdown** 語法，包括：\n- 列表\n- **粗體**\n- *斜體*\n- `程式碼`\n\n```javascript\nconsole.log('Hello World')\n```"

  /** The simulated assistant reply, which quotes the user's message. */
  function ReplyContent(userMessage: string): (r: string)
    ensures |r| == |ReplyPrefix| + |userMessage| + |ReplySuffix|
    ensures r[|ReplyPrefix|..|ReplyPrefix| + |userMessage|] == userMessage
  {
    var r := ReplyPrefix + userMessage + ReplySuffix;
    assert r[|ReplyPrefix|..|ReplyPrefix| + |userMessage|] == userMessage;
    r
  }

  /** The title derived from a conversation's first message. */
  function DeriveTitle(content: string): (t: string)
    ensures |content| <= TitleMaxLength ==> t == content
    ensures |content| > TitleMaxLength ==> t == content[..TitleMaxLength] + Format.Ellipsis
  {
    Format.SliceTo(content, TitleMaxLength) + (if |content| > TitleMaxLength then Format.Ellipsis else "")
  }

  /** The title rule is the text helper's truncation at 30 characters. */
  lemma DeriveTitleIsTruncation(content: string)
    ensures DeriveTitle(content) == Format.TruncateText(content, TitleMaxLength)
    ensures |DeriveTitle(content)| <= TitleMaxLength + |Format.Ellipsis|
  {
  }

  class Conversation {
    const id: string
    var title: string
    var messages: seq<Message>
    const createdAt: int
    var updatedAt: int

    /** The object literal built by `createConversation`. */
    constructor (id: string, now: int)
      ensures this.id == id && title == DefaultTitle && messages == []
      ensures createdAt == now && updatedAt == now
    {
      this.id := id;
      title := DefaultTitle;
      messages := [];
      createdAt := now;
      updatedAt := now;
    }
  }

  /**
   * What `findIndex(c => c.id === id)` returns: the index of the first
   * conversation with that id, or -1.
   */
  function FirstIndex(cs: seq<Conversation>, id: string): (i: int)
    ensures -1 <= i < |cs|
    ensures i == -1 <==> forall k :: 0 <= k < |cs| ==> cs[k].id != id
    ensures 0 <= i ==> cs[i].id == id && forall k :: 0 <= k < i ==> cs[k].id != id
  {
    if cs == [] then -1
    else if cs[0].id == id then 0
    else
      var j := FirstIndex(cs[1..], id);
      if j == -1 then -1 else j + 1
  }

  /** The list after `splice(i, 1)`. */
  function RemoveAt(cs: seq<Conversation>, i: nat): (r: seq<Conversation>)
    requires i < |cs|
    ensures |r| == |cs| - 1
    ensures forall k :: 0 <= k < i ==> r[k] == cs[k]
    ensures forall k :: i <= k < |r| ==> r[k] == cs[k + 1]
  {
    cs[..i] + cs[i + 1..]
  }

  /** The list after `deleteConversation(id)`. */
  function RemoveFirst(cs: seq<Conversation>, id: string): seq<Conversation> {
    var i := FirstIndex(cs, id);
    if i == -1 then cs else RemoveAt(cs, i)
  }

  predicate DistinctIds(cs: seq<Conversation>) {
    forall i, j :: 0 <= i < j < |cs| ==> cs[i].id != cs[j].id
  }

  predicate DistinctObjects(cs: seq<Conversation>) {
    forall i, j :: 0 <= i < j < |cs| ==> cs[i] != cs[j]
  }

  /**
   * Deleting removes exactly the first conversation with the id and keeps the
   * rest in order; an absent id leaves the list as it was.
   */
  lemma RemoveFirstSpec(cs: seq<Conversation>, id: string)
    ensures (forall k :: 0 <= k < |cs| ==> cs[k].id != id) ==> RemoveFirst(cs, id) == cs
    ensures (exists k :: 0 <= k < |cs| && cs[k].id == id) ==>
      exists i :: 0 <= i < |cs| && cs[i].id == id && (forall k :: 0 <= k < i ==> cs[k].id != id) &&
        RemoveFirst(cs, id) == cs[..i] + cs[i + 1..]
    ensures FirstIndex(cs, id) == -1 ==> RemoveFirst(cs, id) == cs
    ensures FirstIndex(cs, id) != -1 ==>
      var i := FirstIndex(cs, id);
      |RemoveFirst(cs, id)| == |cs| - 1 && cs[i].id == id &&
      RemoveFirst(cs, id) == cs[..i] + cs[i + 1..]
    ensures forall c :: c in RemoveFirst(cs, id) ==> c in cs
  {
    var i := FirstIndex(cs, id);
    if i != -1 {
      assert RemoveFirst(cs, id) == cs[..i] + cs[i + 1..];
    }
  }

  /** With unique ids, the id is gone after deletion: `findIndex` gives -1. */
  lemma RemoveFirstRemovesId(cs: seq<Conversation>, id: string)
    requires DistinctIds(cs)
    ensures FirstIndex(RemoveFirst(cs, id), id) == -1
  {
  }

  /** Deletion keeps the list free of repeated objects, and the deleted one is gone. */
  lemma RemoveFirstDistinct(cs: seq<Conversation>, id: string)
    requires DistinctObjects(cs)
    ensures DistinctObjects(RemoveFirst(cs, id))
    ensures FirstIndex(cs, id) != -1 ==> cs[FirstIndex(cs, id)] !in RemoveFirst(cs, id)
  {
  }

  /** `!conversationId`: no id, or the empty string, means "start a new conversation". */
  predicate IsUnset(conversationId: Option<string>) {
    conversationId.None? || conversationId.value == ""
  }

  class ChatStore {
    var conversations: seq<Conversation>
    var currentConversationId: Option<string>
    var isLoading: bool
    var error: Option<string>

    /**
     * Every conversation appears once, and `error` stays null: nothing in the
     * reply step can throw, so its `catch` never runs.
     */
    ghost predicate Valid()
      reads this
    {
      DistinctObjects(conversations) && error == None
    }

    constructor ()
      ensures Valid()
      ensures conversations == [] && currentConversationId == None
      ensures !isLoading && error == None
    {
      conversations := [];
      currentConversationId := None;
      isLoading := false;
      error := None;
    }

    /** `findIndex` over the list: a linear search for the first matching id. */
    method FindIndex(id: string) returns (i: int)
      ensures i == FirstIndex(conversations, id)
      ensures i == -1 <==> forall k :: 0 <= k < |conversations| ==> conversations[k].id != id
    {
      var n := 0;
      while n < |conversations|
        invariant 0 <= n <= |conversations|
        invariant forall k :: 0 <= k < n ==> conversations[k].id != id
      {
        if conversations[n].id == id {
          FirstIndexAt(conversations, id, n);
          return n;
        }
        n := n + 1;
      }
      return -1;
    }

    /** `createConversation`: a new empty conversation at the front, made current. */
    method CreateConversation(freshId: string, now: int) returns (c: Conversation)
      requires Valid()
      modifies this
      ensures Valid()
      ensures fresh(c)
      ensures c.id == freshId && c.title == DefaultTitle && c.messages == []
      ensures c.createdAt == now && c.updatedAt == now
      ensures conversations == [c] + old(conversations)
      ensures currentConversationId == Some(freshId)
      ensures isLoading == old(isLoading) && error == old(error)
    {
      c := new Conversation(freshId, now);
      conversations := [c] + conversations;
      currentConversationId := Some(freshId);
    }

    /** `setCurrentConversation`: stores the id without checking that it exists. */
    method SetCurrentConversation(id: string)
      requires Valid()
      modifies this`currentConversationId
      ensures Valid()
      ensures currentConversationId == Some(id)
    {
      currentConversationId := Some(id);
    }

    /**
     * `deleteConversation`: removes the first conversation with the id, if any;
     * the current selection is left alone, even when it named the deleted one.
     */
    method DeleteConversation(id: string)
      requires Valid()
      modifies this`conversations
      ensures Valid()
      ensures conversations == RemoveFirst(old(conversations), id)
    {
      RemoveFirstDistinct(conversations, id);
      var index := FindIndex(id);
      if index != -1 {
        conversations := conversations[..index] + conversations[index + 1..];
      }
    }

    /**
     * The part of `handleAIResponse` before its `await`: raise `isLoading`, clear
     * `error`, and capture the first conversation with the id. When there is
     * none the step ends here, and its `finally` lowers `isLoading` again.
     */
    method BeginReply(conversationId: string) returns (pending: Conversation?)
      requires Valid()
      modifies this`isLoading, this`error
      ensures Valid()
      ensures error == None
      ensures pending == null <==> FirstIndex(conversations, conversationId) == -1
      ensures pending != null ==> pending == conversations[FirstIndex(conversations, conversationId)]
      ensures isLoading <==> pending != null
    {
      isLoading := true;
      error := None;
      var index := FindIndex(conversationId);
      if index == -1 {
        isLoading := false;
        return null;
      }
      pending := conversations[index];
    }

    /**
     * The part of `handleAIResponse` after its `await`: push the assistant's
     * reply onto the captured conversation, whether or not it is still in the
     * list, and lower `isLoading`.
     */
    method FinishReply(pending: Conversation, userMessage: string, messageId: string, now: int)
      requires Valid()
      modifies this`isLoading, pending
      ensures Valid()
      ensures pending.messages == old(pending.messages) + [Message(messageId, ReplyContent(userMessage), Assistant, now, None)]
      ensures pending.title == old(pending.title) && pending.updatedAt == now
      ensures !isLoading
    {
      pending.messages := pending.messages + [Message(messageId, ReplyContent(userMessage), Assistant, now, None)];
      pending.updatedAt := now;
      isLoading := false;
    }

    /** `handleAIResponse` when nothing else runs during its delay. */
    method HandleAIResponse(conversationId: string, userMessage: string, messageId: string, now: int)
      requires Valid()
      modifies this`isLoading, this`error, conversations
      ensures Valid()
      ensures !isLoading && error == None
      ensures conversations == old(conversations)
      // The first conversation with the id gains the reply at its end and a new `updatedAt`.
      ensures var i := FirstIndex(conversations, conversationId);
        i != -1 ==>
          && conversations[i].messages == old(conversations[i].messages) + [Message(messageId, ReplyContent(userMessage), Assistant, now, None)]
          && conversations[i].title == old(conversations[i].title)
          && conversations[i].updatedAt == now
      // Every other conversation, including a later one with the same id, is untouched.
      ensures var i := FirstIndex(conversations, conversationId);
        forall c :: c in conversations && (i == -1 || c != conversations[i]) ==>
          c.messages == old(c.messages) && c.title == old(c.title) && c.updatedAt == old(c.updatedAt)
    {
      var pending := BeginReply(conversationId);
      if pending != null {
        FinishReply(pending, userMessage, messageId, now);
      }
    }

    /**
     * `sendMessage`, up to the moment it returns: resolve or create the target,
     * append the user's message, derive the title on the first message, and run
     * the reply step up to its `await`. `pending` is the conversation that reply
     * captured; `FinishReply(pending, content, ...)` completes it later.
     */
    method SendMessage(conversationId: Option<string>, content: string, freshId: string, messageId: string, now: int)
      returns (r: Result<string, string>, pending: Conversation?)
      requires Valid()
      modifies this, conversations
      ensures Valid()
      // An id that names no conversation: rejected, and nothing changes.
      ensures !IsUnset(conversationId) && FirstIndex(old(conversations), conversationId.value) == -1 ==>
        && r == Failure(NotFoundError) && pending == null
        && conversations == old(conversations)
        && currentConversationId == old(currentConversationId)
        && isLoading == old(isLoading) && error == old(error)
        && forall c :: c in conversations ==> c.messages == old(c.messages) && c.title == old(c.title) && c.updatedAt == old(c.updatedAt)
      // No id: exactly one new conversation, at the front and current, holding the message.
      ensures IsUnset(conversationId) ==>
        && r == Success(freshId)
        && pending != null && fresh(pending) && pending.id == freshId
        && conversations == [pending] + old(conversations)
        && currentConversationId == Some(freshId)
        && pending.messages == [Message(messageId, content, User, now, None)]
        && pending.title == DeriveTitle(content)
        && pending.createdAt == now
      // A known id: the message is appended to the first conversation with that id.
      ensures !IsUnset(conversationId) && FirstIndex(old(conversations), conversationId.value) != -1 ==>
        && r == Success(conversationId.value)
        && pending == old(conversations)[FirstIndex(old(conversations), conversationId.value)]
        && conversations == old(conversations)
        && currentConversationId == old(currentConversationId)
        && pending.messages == old(pending.messages) + [Message(messageId, content, User, now, None)]
        && pending.title == (if old(pending.messages) == [] then DeriveTitle(content) else old(pending.title))
      // On success the reply step has started on the same conversation.
      ensures r.Success? ==>
        && pending != null && pending.updatedAt == now
        && isLoading && error == None
        && forall c :: c in old(conversations) && c != pending ==> c.messages == old(c.messages) && c.title == old(c.title) && c.updatedAt == old(c.updatedAt)
    {
      var target: string;
      if IsUnset(conversationId) {
        var created := CreateConversation(freshId, now);
        target := freshId;
      } else {
        target := conversationId.value;
      }
      var index := FindIndex(target);
      if index == -1 {
        return Failure(NotFoundError), null;
      }
      var conversation := conversations[index];
      conversation.messages := conversation.messages + [Message(messageId, content, User, now, None)];
      if |conversation.messages| == 1 {
        conversation.title := DeriveTitle(content);
      }
      conversation.updatedAt := now;
      pending := BeginReply(target);
      r := Success(target);
    }
  }

  /** A match at `n` with none before it is the first match. */
  lemma FirstIndexAt(cs: seq<Conversation>, id: string, n: nat)
    requires n < |cs| && cs[n].id == id
    requires forall k :: 0 <= k < n ==> cs[k].id != id
    ensures FirstIndex(cs, id) == n
  {
  }
}
