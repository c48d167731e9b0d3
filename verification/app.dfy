/** The `App` component's state and handlers (App.tsx:122-1243): one
    object whose fields are the component's state variables and whose
    methods are its event handlers. Each handler's new state is stated as
    the functions of the chat store, the folder organizer, the pipeline and
    the editor applied to the old state. Clock readings, generated ids and
    the random colour draw are parameters. */
module App {
  import opened Wrappers
  import opened JsText
  import opened Suggestions
  import opened ChatStore
  import opened Folders
  import opened Pipeline
  import opened Editor
  import opened Texts

  /** The first chat (App.tsx:123-139). */
  function InitialChat(now: nat): (c: Chat)
    ensures c.id == "1" && c.title == DefaultTitle && c.folder == None && !c.isPinned
    ensures |c.messages| == 1 && c.messages[0].role == Assistant
  {
    Chat("1", DefaultTitle, [TextMessage("1", Assistant, InitialGreeting, now)], now, false, None, false)
  }

  /** The key the environment effect keeps (App.tsx:230-236): none when it
      is missing or the placeholder. */
  function KeyFromEnvironment(envApiKey: string): (k: string)
    ensures k != ApiKeyPlaceholder
    ensures k == "" || k == envApiKey
  {
    if envApiKey != "" && envApiKey != ApiKeyPlaceholder then envApiKey else ""
  }

  class Assistant {
    var chats: seq<Chat>
    var currentChatId: string
    var inputValue: string
    var selectedLanguage: string
    var enterpriseMode: bool
    var apiKey: string
    var acceptedTerms: bool
    var showSplitView: bool
    var editableCode: string
    var showSuggestions: bool
    var currentSuggestions: seq<CodeSuggestion>
    var chatFolders: seq<ChatFolder>
    var expandedFolders: set<string>
    var newFolderName: string
    var draggedChat: Option<string>
    var dragOverFolder: Option<string>

    /** The active chat is one of the chats. */
    predicate Valid()
      reads this`chats, this`currentChatId
    {
      FindChat(chats, currentChatId).Some?
    }

    /** Every folder reference of a chat names a listed folder. */
    predicate Organized()
      reads this`chats, this`chatFolders
    {
      NoDangling(chats, chatFolders)
    }

    /** `currentChat?.messages || []` (App.tsx:226-227). */
    function CurrentMessages(): (r: seq<Message>)
      reads this`chats, this`currentChatId
      ensures Valid() ==> r == FindChat(chats, currentChatId).value.messages
      ensures !Valid() ==> r == []
    {
      match FindChat(chats, currentChatId)
      case Some(c) => c.messages
      case None => []
    }

    /** The initial state, after the environment key has been read. */
    constructor (envApiKey: string, now: nat)
      ensures Valid() && Organized()
      ensures chats == [InitialChat(now)] && currentChatId == "1"
      ensures inputValue == "" && selectedLanguage == "javascript"
      ensures !enterpriseMode && apiKey == KeyFromEnvironment(envApiKey) && !acceptedTerms
      ensures !showSplitView && editableCode == "" && !showSuggestions && currentSuggestions == []
      ensures chatFolders == InitialFolders && expandedFolders == {} && newFolderName == ""
      ensures draggedChat == None && dragOverFolder == None
    {
      chats := [InitialChat(now)];
      currentChatId := "1";
      inputValue := "";
      selectedLanguage := "javascript";
      enterpriseMode := false;
      apiKey := KeyFromEnvironment(envApiKey);
      acceptedTerms := false;
      showSplitView := false;
      editableCode := "";
      showSuggestions := false;
      currentSuggestions := [];
      chatFolders := InitialFolders;
      expandedFolders := {};
      newFolderName := "";
      draggedChat := None;
      dragOverFolder := None;
      new;
      assert chats[0].id == "1";
    }

    // -------------------------------------------------------------------
    // Input fields

    method SetInputValue(value: string)
      modifies this`inputValue
      ensures inputValue == value
    {
      inputValue := value;
    }

    method SetNewFolderName(value: string)
      modifies this`newFolderName
      ensures newFolderName == value
    {
      newFolderName := value;
    }

    method SelectLanguage(language: string)
      modifies this`selectedLanguage
      ensures selectedLanguage == language
    {
      selectedLanguage := language;
    }

    // -------------------------------------------------------------------
    // Chats

    /** `createNewChat` (App.tsx:502-552): the new chat goes first and
        becomes current, and the terms must be accepted again. */
    method CreateNewChat(id: string, now: nat)
      modifies this`chats, this`currentChatId, this`acceptedTerms
      ensures chats == [NewChat(id, now, old(enterpriseMode))] + old(chats)
      ensures currentChatId == id && !acceptedTerms && Valid()
      ensures old(Organized()) ==> Organized()
    {
      var c := NewChat(id, now, enterpriseMode);
      chats := [c] + chats;
      currentChatId := id;
      acceptedTerms := false;
      assert chats[0].id == id;
      assert forall i :: 1 <= i < |chats| ==> chats[i] == old(chats)[i - 1];
    }

    /** `deleteChat` (App.tsx:1030-1040), as `DeleteChatOutcome` describes it. */
    method DeleteChat(chatId: string, newId: string, now: nat)
      requires Valid()
      modifies this`chats, this`currentChatId, this`acceptedTerms
      ensures var o := DeleteChatOutcome(old(chats), old(currentChatId), chatId, newId, now, old(enterpriseMode));
        chats == o.chats && currentChatId == o.current && acceptedTerms == (old(acceptedTerms) && !o.created)
      ensures Valid() && (FindChat(chats, chatId).None? || newId == chatId)
      ensures old(Organized()) ==> Organized()
    {
      var outcome := DeleteChatOutcome(chats, currentChatId, chatId, newId, now, enterpriseMode);
      DeleteChatOutcomeSpec(chats, currentChatId, chatId, newId, now, enterpriseMode);
      if Organized() {
        DeleteChatOutcomeKeepsNoDangling(chats, chatFolders, currentChatId, chatId, newId, now, enterpriseMode);
      }
      chats := outcome.chats;
      currentChatId := outcome.current;
      if outcome.created {
        acceptedTerms := false;
      }
    }

    /** `updateChatTitle` (App.tsx:1042-1046). */
    method UpdateChatTitle(chatId: string, newTitle: string)
      requires Valid()
      modifies this`chats
      ensures chats == UpdateChat(old(chats), chatId, Rename(newTitle))
      ensures Valid()
      ensures old(Organized()) ==> Organized()
    {
      EditChat(chatId, Rename(newTitle));
    }

    /** `togglePinChat` (App.tsx:1048-1052). */
    method TogglePinChat(chatId: string)
      requires Valid()
      modifies this`chats
      ensures chats == UpdateChat(old(chats), chatId, TogglePin)
      ensures Valid()
      ensures old(Organized()) ==> Organized()
    {
      EditChat(chatId, TogglePin);
    }

    /** `startEditingChat` (App.tsx:1054-1058). */
    method StartEditingChat(chatId: string)
      requires Valid()
      modifies this`chats
      ensures chats == UpdateChat(old(chats), chatId, StartEditing)
      ensures Valid()
      ensures old(Organized()) ==> Organized()
    {
      EditChat(chatId, StartEditing);
    }

    /** `handleDuplicateChat` (App.tsx:1228-1243): the copy goes first and
        becomes current; an unknown id changes nothing. */
    method HandleDuplicateChat(chatId: string, newId: string, now: nat)
      requires Valid()
      modifies this`chats, this`currentChatId
      ensures chats == DuplicateChat(old(chats), chatId, newId, now)
      ensures currentChatId == if FindChat(old(chats), chatId).Some? then newId else old(currentChatId)
      ensures Valid()
      ensures old(Organized()) ==> Organized()
    {
      var original := FindChat(chats, chatId);
      if original.Some? {
        chats := [CopyOf(original.value, newId, now)] + chats;
        currentChatId := newId;
        assert chats[0].id == newId;
        assert forall i :: 1 <= i < |chats| ==> chats[i] == old(chats)[i - 1];
        if old(Organized()) {
          ghost var j :| 0 <= j < |old(chats)| && old(chats)[j] == original.value;
          assert !RefersToMissingFolder(chats[0], chatFolders) by {
            assert chats[0].folder == old(chats)[j].folder;
          }
        }
      }
    }

    // -------------------------------------------------------------------
    // Sending

    /** `handleSendMessage` up to the remote call (App.tsx:554-577, 639,
        698): blank input changes nothing; otherwise the input, untrimmed,
        is appended as a user message to the active chat, which is
        auto-titled if still "New Chat", the input is cleared, and the
        reply to come is bound to that chat, that input and that language. */
    method HandleSendMessage(messageId: string, now: nat) returns (pending: Option<PendingReply>)
      requires Valid()
      modifies this`chats, this`inputValue
      ensures IsBlank(old(inputValue)) ==>
        pending == None && chats == old(chats) && inputValue == old(inputValue)
      ensures !IsBlank(old(inputValue)) ==>
        && chats == UpdateChat(old(chats), old(currentChatId),
                               SendUserMessage(TextMessage(messageId, User, old(inputValue), now)))
        && inputValue == ""
        && pending == Some(PendingReply(old(currentChatId), old(inputValue), old(selectedLanguage),
                             ChooseResponder(old(enterpriseMode), old(apiKey), old(acceptedTerms))))
      ensures Valid()
      ensures old(Organized()) ==> Organized()
    {
      if IsBlank(inputValue) {
        pending := None;
      } else {
        var p := SubmitInput(messageId, now);
        pending := Some(p);
      }
    }

    /** The non-blank path of a send (App.tsx:559-577): the user message is
        appended to the active chat (App.tsx:565-573), the input cleared, and
        the reply to come bound to the chat, input and language of the moment. */
    method SubmitInput(messageId: string, now: nat) returns (p: PendingReply)
      requires Valid()
      modifies this`chats, this`inputValue
      ensures chats == UpdateChat(old(chats), old(currentChatId),
                                  SendUserMessage(TextMessage(messageId, User, old(inputValue), now)))
      ensures inputValue == ""
      ensures p == PendingReply(old(currentChatId), old(inputValue), old(selectedLanguage),
                                ChooseResponder(old(enterpriseMode), old(apiKey), old(acceptedTerms)))
      ensures Valid()
      ensures old(Organized()) ==> Organized()
    {
      var e := SendUserMessage(TextMessage(messageId, User, inputValue, now));
      p := PendingReply(currentChatId, inputValue, selectedLanguage,
                        ChooseResponder(enterpriseMode, apiKey, acceptedTerms));
      inputValue := "";
      EditChat(currentChatId, e);
    }

    /** The end of `handleSendMessage` (App.tsx:619-623, 631-635, 676-680,
        690-694, 724-728): the assistant's message is appended to the chat
        that was active when the message was sent, whichever chat is active
        now; if that chat has been deleted meanwhile nothing changes. */
    method DeliverReply(p: PendingReply, outcome: ProviderOutcome, replyId: string, now: nat)
      requires Valid()
      modifies this`chats
      ensures chats == UpdateChat(old(chats), p.chatId, AppendReply(Reply(p, outcome, replyId, now)))
      ensures FindChat(old(chats), p.chatId).None? ==> chats == old(chats)
      ensures Valid()
      ensures old(Organized()) ==> Organized()
    {
      var reply := Reply(p, outcome, replyId, now);
      if FindChat(chats, p.chatId).None? {
        UpdateMissingChat(chats, p.chatId, AppendReply(reply));
      }
      EditChat(p.chatId, AppendReply(reply));
    }

    /** One `setChats(prev => prev.map(chat => chat.id === chatId ? ... : chat))`
        step with an edit that leaves folders alone: the active chat can
        still be found and every folder reference stays valid. */
    method EditChat(chatId: string, e: ChatEdit)
      requires Valid() && !e.SetFolder?
      modifies this`chats
      ensures chats == UpdateChat(old(chats), chatId, e)
      ensures Valid()
      ensures old(Organized()) ==> Organized()
    {
      EditKeepsOrganized(chats, chatId, e, currentChatId, chatFolders);
      chats := UpdateChat(chats, chatId, e);
    }

    /** `handleAcceptTerms` (App.tsx:928-930). */
    method HandleAcceptTerms()
      modifies this`acceptedTerms
      ensures acceptedTerms
    {
      acceptedTerms := true;
    }

    // -------------------------------------------------------------------
    // Folders

    /** `createNewFolder` (App.tsx:1073-1084), with `draw` standing for
        `Math.floor(Math.random() * 16777215)`: a blank name changes
        nothing; otherwise the folder is appended and the name field
        cleared. */
    method CreateNewFolder(id: string, draw: nat)
      modifies this`chatFolders, this`newFolderName
      ensures chatFolders == CreateFolder(old(chatFolders), old(newFolderName), id, FolderColor(draw))
      ensures newFolderName == if IsBlank(old(newFolderName)) then old(newFolderName) else ""
      ensures old(Organized()) ==> Organized()
    {
      if !IsBlank(newFolderName) {
        chatFolders := chatFolders + [ChatFolder(id, Trim(newFolderName), FolderColor(draw), FolderIcon)];
        newFolderName := "";
      }
      if old(Organized()) {
        CreateKeepsNoDangling(chats, old(chatFolders), old(newFolderName), id, FolderColor(draw));
      }
    }

    /** `updateFolder` (App.tsx:1086-1090). */
    method UpdateFolder(folderId: string, patch: FolderPatch)
      modifies this`chatFolders
      ensures chatFolders == Folders.UpdateFolder(old(chatFolders), folderId, patch)
      ensures old(Organized()) && patch.id.None? ==> Organized()
    {
      chatFolders := Folders.UpdateFolder(chatFolders, folderId, patch);
      if old(Organized()) && patch.id.None? {
        UpdateKeepsNoDangling(chats, old(chatFolders), folderId, patch);
      }
    }

    /** `deleteFolder` (App.tsx:1092-1099): member chats are unassigned,
        then the folder goes. Any folder may be deleted, "1" included. */
    method DeleteFolder(folderId: string)
      requires Valid()
      modifies this`chats, this`chatFolders
      ensures chats == UnassignFolder(old(chats), folderId)
      ensures chatFolders == RemoveFolder(old(chatFolders), folderId)
      ensures Valid()
      ensures old(Organized()) ==> Organized()
    {
      chats := UnassignFolder(chats, folderId);
      chatFolders := RemoveFolder(chatFolders, folderId);
      assert SameIds(old(chats), chats);
      SameIdsFind(old(chats), chats, currentChatId);
      if old(Organized()) {
        DeleteFolderKeepsNoDangling(old(chats), old(chatFolders), folderId);
      }
    }

    /** `moveChatToFolder` (App.tsx:1101-1115). */
    method MoveChatToFolder(chatId: string, folderId: string)
      requires Valid()
      modifies this`chats
      ensures chats == Folders.MoveChatToFolder(old(chats), chatId, folderId)
      ensures Valid()
      ensures old(Organized()) && HasFolder(chatFolders, folderId) ==> Organized()
    {
      chats := Folders.MoveChatToFolder(chats, chatId, folderId);
      assert SameIds(old(chats), chats);
      SameIdsFind(old(chats), chats, currentChatId);
      if old(Organized()) && HasFolder(chatFolders, folderId) {
        MoveKeepsNoDangling(old(chats), chatFolders, chatId, folderId);
      }
    }

    /** `removeChatFromFolder` (App.tsx:1066-1070). */
    method RemoveChatFromFolder(chatId: string)
      requires Valid()
      modifies this`chats
      ensures chats == Folders.RemoveChatFromFolder(old(chats), chatId)
      ensures Valid()
      ensures old(Organized()) ==> Organized()
    {
      chats := Folders.RemoveChatFromFolder(chats, chatId);
      assert SameIds(old(chats), chats);
      SameIdsFind(old(chats), chats, currentChatId);
      if old(Organized()) {
        RemoveKeepsNoDangling(old(chats), chatFolders, chatId);
      }
    }

    /** `toggleFolderExpansion` (App.tsx:1125-1135). */
    method ToggleFolderExpansion(folderId: string)
      modifies this`expandedFolders
      ensures expandedFolders == ToggleExpanded(old(expandedFolders), folderId)
      ensures folderId in expandedFolders <==> folderId !in old(expandedFolders)
    {
      if folderId in expandedFolders {
        expandedFolders := expandedFolders - {folderId};
      } else {
        expandedFolders := expandedFolders + {folderId};
      }
    }

    /** The move button's handler (App.tsx:1489-1501), with `answer` the
        prompt's result (`None` when cancelled). */
    method MoveChatByName(chatId: string, answer: Option<string>)
      requires Valid()
      modifies this`chats
      ensures chats == MoveByName(old(chats), chatFolders, chatId, answer)
      ensures Valid()
      ensures old(Organized()) ==> Organized()
    {
      if answer.Some? {
        var folder := FindFolderByName(chatFolders, answer.value);
        if folder.Some? {
          MoveChatToFolder(chatId, folder.value.id);
          ghost var i :| 0 <= i < |chatFolders| && chatFolders[i] == folder.value;
        } else if IsBlank(answer.value) {
          RemoveChatFromFolder(chatId);
        }
      }
    }

    // -------------------------------------------------------------------
    // Drag and drop

    /** `handleDragStart` (App.tsx:1153-1163). */
    method HandleDragStart(chatId: string)
      modifies this`draggedChat
      ensures draggedChat == Some(chatId)
    {
      draggedChat := Some(chatId);
    }

    /** `handleDragOver` (App.tsx:1165-1175). */
    method HandleDragOver(folderId: Option<string>)
      modifies this`dragOverFolder
      ensures dragOverFolder == Some(HoverTarget(folderId))
    {
      if Truthy(folderId) {
        dragOverFolder := folderId;
      } else {
        dragOverFolder := Some(UnassignedMarker);
      }
    }

    /** `handleDragLeave` (App.tsx:1177-1180). */
    method HandleDragLeave()
      modifies this`dragOverFolder
      ensures dragOverFolder == None
    {
      dragOverFolder := None;
    }

    /** `handleDrop` (App.tsx:1182-1201): the dragged chat, if any, moves to
        the target folder or out of its folder; the drag state is always
        cleared. */
    method HandleDrop(folderId: Option<string>)
      requires Valid()
      modifies this`chats, this`draggedChat, this`dragOverFolder
      ensures chats == DropChats(old(chats), old(draggedChat), folderId)
      ensures draggedChat == None && dragOverFolder == None
      ensures Valid()
      ensures old(Organized()) && (Truthy(folderId) ==> HasFolder(chatFolders, folderId.value)) ==> Organized()
    {
      if Truthy(draggedChat) {
        if Truthy(folderId) {
          MoveChatToFolder(draggedChat.value, folderId.value);
        } else {
          RemoveChatFromFolder(draggedChat.value);
        }
      }
      draggedChat := None;
      dragOverFolder := None;
    }

    /** `handleDragEnd` (App.tsx:1203-1211). */
    method HandleDragEnd()
      modifies this`draggedChat, this`dragOverFolder
      ensures draggedChat == None && dragOverFolder == None
    {
      draggedChat := None;
      dragOverFolder := None;
    }

    // -------------------------------------------------------------------
    // Editor

    /** `handleCodeChange` (App.tsx:474-485): text longer than ten
        characters is analysed and the panel shows when a rule fired; on
        shorter text the panel hides and the previous list stays. */
    method HandleCodeChange(newCode: string)
      modifies this`editableCode, this`currentSuggestions, this`showSuggestions
      ensures editableCode == newCode
      ensures currentSuggestions == if |newCode| > 10 then Suggest(newCode) else old(currentSuggestions)
      ensures showSuggestions <==> |newCode| > 10 && Suggest(newCode) != []
    {
      editableCode := newCode;
      if |newCode| > 10 {
        var suggestions := GenerateCodeSuggestions(newCode, selectedLanguage);
        currentSuggestions := suggestions;
        showSuggestions := |suggestions| > 0;
      } else {
        showSuggestions := false;
      }
    }

    /** `applySuggestion` (App.tsx:487-490): the list itself is kept. */
    method ApplySuggestion(s: CodeSuggestion)
      modifies this`editableCode, this`showSuggestions
      ensures editableCode == WithSuggestion(old(editableCode), s)
      ensures !showSuggestions
    {
      editableCode := editableCode + "\n" + s.code;
      showSuggestions := false;
    }

    /** `handlePromptTemplate` (App.tsx:419-426). */
    method HandlePromptTemplate(prompt: string)
      modifies this`inputValue
      ensures inputValue == EnhancedPrompt(prompt, old(selectedLanguage), old(editableCode))
    {
      if !IsBlank(editableCode) {
        inputValue := prompt + "\n\nCode to analyze:\n" + Fence + selectedLanguage + "\n" + editableCode + "\n" + Fence;
      } else {
        inputValue := prompt;
      }
    }

    /** `toggleSplitView` (App.tsx:428-442): opening the view with a blank
        editor loads the code of the active chat's last message that has
        some. */
    method ToggleSplitView()
      modifies this`showSplitView, this`editableCode
      ensures showSplitView == !old(showSplitView)
      ensures editableCode ==
        if !old(showSplitView) && IsBlank(old(editableCode)) && LastCode(old(CurrentMessages())).Some?
        then LastCode(old(CurrentMessages())).value
        else old(editableCode)
    {
      var opening := !showSplitView;
      var last := LastCode(CurrentMessages());
      showSplitView := opening;
      if opening && IsBlank(editableCode) && last.Some? {
        editableCode := last.value;
      }
    }
  }
}
