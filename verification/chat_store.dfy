/** The chat store: chats and their messages (App.tsx:4-23) and the
    copy-on-write updates the component applies to its chat list. Every
    update builds a new list in which only the chat with the given id is
    replaced, as the source's `prev.map(chat => chat.id === id ? ... : chat)`
    does, or filters the list. */
module ChatStore {
  import opened Wrappers
  import opened JsText
  import opened Analyzer
  import opened Suggestions
  import opened Texts

  datatype Role = User | Assistant | System

  /** A message; `timestamp` is the clock reading the caller supplies. */
  datatype Message = Message(
    id: string,
    role: Role,
    content: string,
    timestamp: nat,
    code: Option<string>,
    language: Option<string>,
    suggestions: Option<seq<CodeSuggestion>>,
    analysis: Option<CodeAnalysis>)

  datatype Chat = Chat(
    id: string,
    title: string,
    messages: seq<Message>,
    timestamp: nat,
    isPinned: bool,
    folder: Option<string>,
    isEditing: bool)

  const DefaultTitle := "New Chat"

  const CopySuffix := " (Copy)"

  const TitleLimit := 30

  const Ellipsis := "..."

  /** A message with no code, analysis or suggestions attached. */
  function TextMessage(id: string, role: Role, content: string, now: nat): (m: Message)
    ensures m.code == None && m.analysis == None && m.suggestions == None
  {
    Message(id, role, content, now, None, None, None, None)
  }

  /** JavaScript truthiness of an optional string: present and not empty. */
  predicate Truthy(s: Option<string>) {
    s.Some? && s.value != ""
  }

  // ---------------------------------------------------------------------
  // Auto-titling (`generateChatTitle`, App.tsx:1246-1256)

  /** `messages.find(msg => msg.type === 'user')`. */
  function FirstUserMessage(messages: seq<Message>): (r: Option<Message>)
    ensures r.None? <==> forall i :: 0 <= i < |messages| ==> messages[i].role != User
    ensures r.Some? ==> exists i :: (0 <= i < |messages| && messages[i] == r.value
      && r.value.role == User && forall j :: 0 <= j < i ==> messages[j].role != User)
  {
    if messages == [] then None
    else if messages[0].role == User then Some(messages[0])
    else
      var r := FirstUserMessage(messages[1..]);
      assert forall i :: 1 <= i < |messages| ==> messages[i] == messages[1..][i - 1];
      r
  }

  /** The title derived from the first user message: its first 30
      characters and an ellipsis when it is longer than 30, else all of it;
      the placeholder when no user has spoken. */
  function GenerateChatTitle(messages: seq<Message>): (title: string)
    ensures |title| <= TitleLimit + |Ellipsis|
  {
    match FirstUserMessage(messages)
    case None => DefaultTitle
    case Some(m) =>
      if |m.content| > TitleLimit then m.content[..TitleLimit] + Ellipsis else m.content
  }

  /** What the derived title is, case by case: never longer than 33
      characters, exactly 33 when the content is cut, always starting with
      the content (or its first 30 characters). */
  lemma ChatTitleShape(messages: seq<Message>)
    ensures FirstUserMessage(messages).None? ==> GenerateChatTitle(messages) == DefaultTitle
    ensures FirstUserMessage(messages).Some? ==>
      var content := FirstUserMessage(messages).value.content;
      var title := GenerateChatTitle(messages);
      && |title| <= TitleLimit + |Ellipsis|
      && (|content| > TitleLimit ==> |title| == 33 && title == content[..TitleLimit] + Ellipsis)
      && (|content| <= TitleLimit ==> title == content)
  {
  }

  /** Only the first user message decides the title: appending more
      messages to a chat that already has one leaves it the same. */
  lemma {:induction false} TitleStableUnderAppend(messages: seq<Message>, more: seq<Message>)
    requires FirstUserMessage(messages).Some?
    ensures FirstUserMessage(messages + more) == FirstUserMessage(messages)
    ensures GenerateChatTitle(messages + more) == GenerateChatTitle(messages)
  {
    if messages[0].role != User {
      assert (messages + more)[1..] == messages[1..] + more;
      TitleStableUnderAppend(messages[1..], more);
    }
  }

  /** In a chat without user messages, the message being sent decides the title. */
  lemma {:induction false} TitleFromNewMessage(messages: seq<Message>, m: Message)
    requires forall i :: 0 <= i < |messages| ==> messages[i].role != User
    requires m.role == User
    ensures FirstUserMessage(messages + [m]) == Some(m)
  {
    if messages != [] {
      assert (messages + [m])[1..] == messages[1..] + [m];
      TitleFromNewMessage(messages[1..], m);
    }
  }

  // ---------------------------------------------------------------------
  // Edits to one chat

  /** The per-chat updates of App.tsx: the new message of a send with its
      auto-title (565-573), an appended reply (619-623, 631-635, 676-680,
      690-694, 724-728), a rename (1042-1046), a pin toggle (1048-1052),
      start of title editing (1054-1058) and a folder (re)assignment
      (1066-1070, 1101-1115). */
  datatype ChatEdit =
    | SendUserMessage(message: Message)
    | AppendReply(message: Message)
    | Rename(title: string)
    | TogglePin
    | StartEditing
    | SetFolder(folder: Option<string>)

  function ApplyEdit(c: Chat, e: ChatEdit): (r: Chat)
    ensures r.id == c.id && r.timestamp == c.timestamp
    ensures c.messages <= r.messages && |r.messages| <= |c.messages| + 1
  {
    match e
    case SendUserMessage(m) =>
      c.(messages := c.messages + [m],
         title := if c.title == DefaultTitle then GenerateChatTitle(c.messages + [m]) else c.title)
    case AppendReply(m) => c.(messages := c.messages + [m])
    case Rename(t) => c.(title := t, isEditing := false)
    case TogglePin => c.(isPinned := !c.isPinned)
    case StartEditing => c.(isEditing := true)
    case SetFolder(f) => c.(folder := f)
  }

  /** What each edit may touch: the id and creation time never change,
      messages are only ever appended (one at a time, by the two message
      edits), the title changes only by a rename or by auto-titling a chat
      still called "New Chat", and the folder only by a folder edit. */
  lemma EditFrame(c: Chat, e: ChatEdit)
    ensures var r := ApplyEdit(c, e);
      && r.id == c.id && r.timestamp == c.timestamp
      && c.messages <= r.messages
      && (e.SendUserMessage? || e.AppendReply? ==> r.messages == c.messages + [e.message])
      && (!(e.SendUserMessage? || e.AppendReply?) ==> r.messages == c.messages)
      && (r.title != c.title ==> e.Rename? || (e.SendUserMessage? && c.title == DefaultTitle))
      && (!e.SetFolder? ==> r.folder == c.folder)
      && (!e.TogglePin? ==> r.isPinned == c.isPinned)
  {
  }

  /** `prev.map(chat => chat.id === id ? edit(chat) : chat)`. */
  function UpdateChat(chats: seq<Chat>, id: string, e: ChatEdit): (r: seq<Chat>)
    ensures |r| == |chats|
    ensures forall i :: 0 <= i < |chats| && chats[i].id != id ==> r[i] == chats[i]
    ensures forall i :: 0 <= i < |chats| && chats[i].id == id ==> r[i] == ApplyEdit(chats[i], e)
    ensures forall i :: 0 <= i < |chats| ==> r[i].id == chats[i].id
  {
    if chats == [] then []
    else
      var head := if chats[0].id == id then ApplyEdit(chats[0], e) else chats[0];
      var rest := UpdateChat(chats[1..], id, e);
      assert forall i :: 1 <= i < |chats| ==> chats[i] == chats[1..][i - 1];
      [head] + rest
  }

  /** An update of an id that no chat has changes nothing. */
  lemma UpdateMissingChat(chats: seq<Chat>, id: string, e: ChatEdit)
    requires FindChat(chats, id).None?
    ensures UpdateChat(chats, id, e) == chats
  {
    assert forall i :: 0 <= i < |chats| ==> UpdateChat(chats, id, e)[i] == chats[i];
  }

  /** Sending: the user message goes at the end of the chat with the given
      id, whose title changes only if it was "New Chat"; every other chat
      is untouched. */
  lemma SendTouchesOnlyTarget(chats: seq<Chat>, id: string, m: Message)
    ensures var r := UpdateChat(chats, id, SendUserMessage(m));
      && |r| == |chats|
      && (forall i :: 0 <= i < |chats| && chats[i].id != id ==> r[i] == chats[i])
      && (forall i :: 0 <= i < |chats| && chats[i].id == id ==>
            && r[i].messages == chats[i].messages + [m]
            && r[i].messages[|r[i].messages| - 1] == m
            && (chats[i].title != DefaultTitle ==> r[i].title == chats[i].title)
            && r[i].folder == chats[i].folder && r[i].isPinned == chats[i].isPinned)
  {
    var r := UpdateChat(chats, id, SendUserMessage(m));
    forall i | 0 <= i < |chats| && chats[i].id == id
      ensures r[i].messages == chats[i].messages + [m]
    {
      EditFrame(chats[i], SendUserMessage(m));
    }
  }

  /** Edits other than a folder edit keep every id and every folder in place. */
  lemma EditKeepsFolders(chats: seq<Chat>, id: string, e: ChatEdit)
    requires !e.SetFolder?
    ensures var r := UpdateChat(chats, id, e);
      && SameIds(chats, r)
      && forall i :: 0 <= i < |r| ==> r[i].folder == chats[i].folder
  {
    var r := UpdateChat(chats, id, e);
    forall i | 0 <= i < |r| ensures r[i].folder == chats[i].folder {
      EditFrame(chats[i], e);
    }
  }

  /** The first user message sent into a "New Chat" chat gives it its title. */
  lemma FirstSendTitlesChat(c: Chat, m: Message)
    requires c.title == DefaultTitle && m.role == User
    requires forall i :: 0 <= i < |c.messages| ==> c.messages[i].role != User
    ensures ApplyEdit(c, SendUserMessage(m)).title
         == if |m.content| > TitleLimit then m.content[..TitleLimit] + Ellipsis else m.content
  {
    TitleFromNewMessage(c.messages, m);
  }

  // ---------------------------------------------------------------------
  // Lookup, removal, creation and duplication

  /** `chats.find(chat => chat.id === id)`. */
  function FindChat(chats: seq<Chat>, id: string): (r: Option<Chat>)
    ensures r.None? <==> forall i :: 0 <= i < |chats| ==> chats[i].id != id
    ensures r.Some? ==> r.value.id == id && exists i :: (0 <= i < |chats| && chats[i] == r.value
      && forall j :: 0 <= j < i ==> chats[j].id != id)
  {
    if chats == [] then None
    else if chats[0].id == id then Some(chats[0])
    else
      var r := FindChat(chats[1..], id);
      assert forall i :: 1 <= i < |chats| ==> chats[i] == chats[1..][i - 1];
      r
  }

  /** Two lists with the same ids at the same places. */
  predicate SameIds(a: seq<Chat>, b: seq<Chat>) {
    |a| == |b| && forall i :: 0 <= i < |a| ==> a[i].id == b[i].id
  }

  /** An update that keeps every id in place keeps every chat findable. */
  lemma SameIdsFind(a: seq<Chat>, b: seq<Chat>, id: string)
    requires SameIds(a, b)
    ensures FindChat(a, id).Some? <==> FindChat(b, id).Some?
  {
    if FindChat(a, id).Some? {
      var i :| 0 <= i < |a| && a[i].id == id;
      assert b[i].id == id;
    }
    if FindChat(b, id).Some? {
      var i :| 0 <= i < |b| && b[i].id == id;
      assert a[i].id == id;
    }
  }

  /** `chats.filter(chat => chat.id !== id)`, keeping the order. */
  function RemoveChat(chats: seq<Chat>, id: string): (r: seq<Chat>)
    ensures |r| <= |chats|
    ensures forall c :: c in r <==> c in chats && c.id != id
    ensures (forall i :: 0 <= i < |chats| ==> chats[i].id != id) ==> r == chats
    ensures (forall i :: 0 <= i < |chats| ==> chats[i].id == id) ==> r == []
  {
    if chats == [] then []
    else
      var rest := RemoveChat(chats[1..], id);
      assert forall c :: c in chats <==> c == chats[0] || c in chats[1..];
      if chats[0].id != id then [chats[0]] + rest else rest
  }

  /** The filter works piece by piece, so the chats left keep their order. */
  lemma {:induction false} RemoveChatAppend(a: seq<Chat>, b: seq<Chat>, id: string)
    ensures RemoveChat(a + b, id) == RemoveChat(a, id) + RemoveChat(b, id)
  {
    if a == [] {
      assert a + b == b;
    } else {
      assert (a + b)[0] == a[0] && (a + b)[1..] == a[1..] + b;
      RemoveChatAppend(a[1..], b, id);
    }
  }

  /** The first chat left after a removal is the first chat of the list
      with another id: the one the active chat falls back to. */
  lemma {:induction false} RemoveChatFirst(chats: seq<Chat>, id: string)
    requires RemoveChat(chats, id) != []
    ensures exists k :: (0 <= k < |chats| && chats[k] == RemoveChat(chats, id)[0]
      && forall j :: 0 <= j < k ==> chats[j].id == id)
  {
    if chats[0].id == id {
      RemoveChatFirst(chats[1..], id);
      var rest := RemoveChat(chats[1..], id);
      var k :| 0 <= k < |chats[1..]| && chats[1..][k] == rest[0]
        && forall j :: 0 <= j < k ==> chats[1..][j].id == id;
      assert chats[k + 1] == rest[0];
      forall j | 0 <= j < k + 1 ensures chats[j].id == id {
        if j > 0 { assert chats[j] == chats[1..][j - 1]; }
      }
    } else {
      assert chats[0] == RemoveChat(chats, id)[0];
    }
  }

  /** After a removal the removed id is gone, a chat with another id that
      was there is still there, and the chat the selection falls back to
      (the first one left) can be found. */
  lemma DeleteKeepsSelection(chats: seq<Chat>, current: string, id: string)
    requires FindChat(chats, current).Some?
    ensures FindChat(RemoveChat(chats, id), id).None?
    ensures current != id ==> FindChat(RemoveChat(chats, id), current).Some?
    ensures RemoveChat(chats, id) != [] ==>
      FindChat(RemoveChat(chats, id), RemoveChat(chats, id)[0].id).Some?
  {
    var r := RemoveChat(chats, id);
    if current != id {
      var c := FindChat(chats, current).value;
      assert c in chats;
      assert c in r;
      var k :| 0 <= k < |r| && r[k] == c;
    }
    if r != [] {
      assert r[0] in r;
    }
  }

  /** A list holding only a new chat finds exactly that chat's id. */
  lemma NewChatAlone(id: string, now: nat, enterpriseMode: bool, other: string)
    ensures FindChat([NewChat(id, now, enterpriseMode)], other).Some? <==> other == id
  {
  }

  /** A chat created by "new chat" (App.tsx:502-547): titled "New Chat",
      unpinned, in no folder, opened by the terms notice in enterprise mode
      and by the greeting otherwise. */
  function NewChat(id: string, now: nat, enterpriseMode: bool): (c: Chat)
    ensures c.id == id && c.title == DefaultTitle && !c.isPinned && !c.isEditing && c.folder == None
    ensures |c.messages| == 1 && c.messages[0].id == "1"
    ensures c.messages[0].role == (if enterpriseMode then System else Assistant)
    ensures FirstUserMessage(c.messages) == None
  {
    var welcome := if enterpriseMode then TextMessage("1", System, EnterpriseTerms, now)
                   else TextMessage("1", Assistant, DemoGreeting, now);
    Chat(id, DefaultTitle, [welcome], now, false, None, false)
  }

  /** The chat list and the active chat after a deletion, and whether a
      fresh chat had to be created (which also withdraws the accepted terms). */
  datatype Selection = Selection(chats: seq<Chat>, current: string, created: bool)

  /** `deleteChat(chatId)` (App.tsx:1030-1040): the chats with the id go; if
      the active chat went, the first chat left becomes active, and when no
      chat is left `createNewChat` runs on the emptied list (App.tsx:502-547). */
  function DeleteChatOutcome(chats: seq<Chat>, current: string, chatId: string,
                             newId: string, now: nat, enterpriseMode: bool): (o: Selection)
    ensures !o.created ==> o.chats == RemoveChat(chats, chatId)
    ensures o.created ==> o.current == newId && |o.chats| == 1 && o.chats[0].id == newId
    ensures current != chatId ==> o.current == current
  {
    var remaining := RemoveChat(chats, chatId);
    if current != chatId then Selection(remaining, current, false)
    else if remaining != [] then Selection(remaining, remaining[0].id, false)
    else Selection([NewChat(newId, now, enterpriseMode)], newId, true)
  }

  /** A deletion leaves an active chat that can be found, removes the chat
      (unless the fresh chat happens to reuse its id), keeps the active chat
      when another one was deleted, and creates a chat only when the list
      would otherwise be empty. */
  lemma DeleteChatOutcomeSpec(chats: seq<Chat>, current: string, chatId: string,
                              newId: string, now: nat, enterpriseMode: bool)
    requires FindChat(chats, current).Some?
    ensures var o := DeleteChatOutcome(chats, current, chatId, newId, now, enterpriseMode);
      && FindChat(o.chats, o.current).Some?
      && (FindChat(o.chats, chatId).None? || newId == chatId)
      && (current != chatId ==> o.current == current && o.chats == RemoveChat(chats, chatId))
      && (o.created <==> RemoveChat(chats, chatId) == [] && current == chatId)
      && (!o.created ==> o.chats == RemoveChat(chats, chatId))
  {
    DeleteKeepsSelection(chats, current, chatId);
    NewChatAlone(newId, now, enterpriseMode, chatId);
    NewChatAlone(newId, now, enterpriseMode, newId);
  }

  /** The copy `handleDuplicateChat` makes (App.tsx:1231-1238). */
  function CopyOf(c: Chat, newId: string, now: nat): Chat {
    c.(id := newId, title := c.title + CopySuffix, timestamp := now, isPinned := false, isEditing := false)
  }

  /** The chat list after `handleDuplicateChat(id)` (App.tsx:1228-1243). */
  function DuplicateChat(chats: seq<Chat>, id: string, newId: string, now: nat): (r: seq<Chat>)
    ensures FindChat(chats, id).None? ==> r == chats
    ensures FindChat(chats, id).Some? ==> |r| == |chats| + 1 && r[1..] == chats && r[0].id == newId
  {
    match FindChat(chats, id)
    case None => chats
    case Some(original) => [CopyOf(original, newId, now)] + chats
  }

  /** The chat `find` returns is the first one with the id. */
  lemma FindChatFirst(chats: seq<Chat>, id: string, k: nat)
    requires k < |chats| && chats[k].id == id
    requires forall j :: 0 <= j < k ==> chats[j].id != id
    ensures FindChat(chats, id) == Some(chats[k])
  {
    var f := FindChat(chats, id);
    var i :| 0 <= i < |chats| && chats[i] == f.value && forall j :: 0 <= j < i ==> chats[j].id != id;
    assert !(i < k) && !(k < i);
  }

  /** Duplicating the first chat with an id puts in front a copy with the
      fresh id, the same messages and folder, the title followed by
      " (Copy)", unpinned and not being edited; the rest of the list
      follows unchanged. */
  lemma DuplicateChatSpec(chats: seq<Chat>, id: string, newId: string, now: nat, k: nat)
    requires k < |chats| && chats[k].id == id
    requires forall j :: 0 <= j < k ==> chats[j].id != id
    ensures var r := DuplicateChat(chats, id, newId, now);
      && |r| == |chats| + 1 && r[1..] == chats
      && r[0].id == newId && r[0].timestamp == now
      && r[0].messages == chats[k].messages && r[0].folder == chats[k].folder
      && r[0].title == chats[k].title + CopySuffix
      && !r[0].isPinned && !r[0].isEditing
  {
    FindChatFirst(chats, id, k);
  }

  /** Duplicating an id no chat has changes nothing. */
  lemma DuplicateUnknownChat(chats: seq<Chat>, id: string, newId: string, now: nat)
    requires forall i :: 0 <= i < |chats| ==> chats[i].id != id
    ensures DuplicateChat(chats, id, newId, now) == chats
  {
  }
}
