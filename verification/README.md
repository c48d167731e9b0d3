# A verified model of the coding assistant's `App` component

The `App` component of `coding-assistant/src/App.tsx` is a chat front end for
a coding assistant. Beneath its React rendering and its calls to the OpenAI
API there are five deterministic cores, and this project models each of them
in Dafny and proves what they promise:

- **The chat store** (`chat_store.dfy`, module `ChatStore`). A list of chats,
  each with its messages, and the copy-on-write updaters that change one chat
  at a time: sending a message, appending a reply, renaming, pinning, starting
  an edit, deleting with the active-chat fallback, duplicating, creating a new
  chat, and the automatic title taken from the first user message.
- **The folder organizer and the drag protocol** (`folders.dfy`, module
  `Folders`). It covers folders and their creation with trimmed names,
  updates by patch, deletion that first unassigns the member chats, moving a
  chat into or out of a folder, and the set of expanded folders. It also
  covers the result of a drop, the move by a typed folder name, and the
  three sidebar sections (pinned, per folder, unassigned). The folder colour
  is `'#' + n.toString(16)` of a random draw, which the model takes as a
  parameter.
- **The message pipeline without the network** (`pipeline.dfy`, module
  `Pipeline`). It picks the responder from enterprise mode, API key and
  accepted terms, and runs the local simulator's keyword test and sample-code
  templates. It builds the assistant message that each outcome of a provider
  call turns into. The provider's answer is a parameter: its text or the
  error's message.
- **The heuristic analyzer and the suggestion engine** (`analyzer.dfy`,
  `suggestions.dfy`, `rules.dfy`). Both are ordered substring rules. Each is
  specified once as a rule table (`Rules.Fired`) and once as the source
  writes it, pushing one finding per `if`; the two are proved equal.
- **The editor helpers** (`editor.dfy`, module `Editor`): the prompt
  template that quotes the editor text, the last message carrying code, and
  appending a suggestion.

`app.dfy` (module `App`) holds the component itself as the class
`Assistant`. Its fields are the state the handlers overwrite (`chats`,
`currentChatId`, `chatFolders`, `expandedFolders`, `draggedChat`,
`dragOverFolder`, `editableCode`, `currentSuggestions`, `showSuggestions`, and
so on), and its methods are the event handlers. Each handler's new state is
stated as a function of the old state, and two invariants are kept
throughout:

- `Valid()`: the current chat exists.
- `Organized()`: no chat names a folder that does not exist. This holds
  whenever the handler's own inputs name existing folders.

`js_text.dfy` gives the JavaScript string operations the component relies on:

- `includes`;
- `trim`, over the ECMAScript white-space and line-terminator set;
- `toLowerCase`, as far as ASCII letters are concerned;
- `split('\n').length`;
- the letter filter `replace(/[^a-zA-Z]/g, '')`.

`texts.dfy` holds the component's constant texts.

Clock readings (`Date.now()`, `new Date()`), the generated ids and the random
colour draw are method parameters.

Where the component's code and its documentation disagree, the model
follows the code:

- A chat whose `folder` names no existing folder is in no sidebar section:
  the unassigned filter is `!chat.folder`, so no section filter lists such a
  chat, not even the unassigned one (`Folders.ListedIff`).
- Applying a suggestion only hides the suggestion list; it does not clear it
  (`App.Assistant.ApplySuggestion`).
- `deleteFolder` deletes folder `'1'` like any other. Only the sidebar
  refrains from offering it (App.tsx:1423).
- The enterprise branch checks only that a key is present, not that it
  differs from the placeholder value.
- `handleCodeChange` on a text of ten characters or fewer hides the
  suggestions but keeps the old list.
- The TypeScript sample's type name upper-cases the request's first
  character without filtering it.
- Any language other than Python and TypeScript gets the JavaScript
  template.

## Model

| member | source | states |
|---|---|---|
| JsText.Contains | coding-assistant/src/App.tsx:268-312 | `includes` holds exactly when the needle occurs at some offset of the string |
| JsText.ContainsInPrefix | coding-assistant/src/App.tsx:699-702 | a needle found in a string is still found after anything is appended to it |
| JsText.Trim | coding-assistant/src/App.tsx:1074-1077 | the trimmed string neither starts nor ends with white space, is a slice of the input, and only white space was cut on either side |
| JsText.TrimCut | coding-assistant/src/App.tsx:1074-1077 | cutting the leading and then the trailing white space leaves a middle part that begins and ends with other characters, with only white space cut off |
| JsText.BlankIffAllWhitespace | coding-assistant/src/App.tsx:555 | `!s.trim()` holds exactly when every character of `s` is white space |
| JsText.Lower | coding-assistant/src/App.tsx:699-702 | the lower-cased string contains no ASCII capital |
| JsText.LowerChar | coding-assistant/src/App.tsx:699-702 | one character lower-cases to its ASCII lower case, except U+0130 (to `i` and a combining dot) and U+212A (to `k`); no ASCII capital remains |
| JsText.AsciiLower | coding-assistant/src/App.tsx:699-702 | an ASCII capital becomes the letter 32 code points above it, a lower-case letter; every other character is kept |
| JsText.LowerPointwise | coding-assistant/src/App.tsx:699-702 | without U+0130 and U+212A, lower-casing keeps the length and maps each character, in place, to its ASCII lower case |
| JsText.LowerIgnoresAsciiCase | coding-assistant/src/App.tsx:699-702 | two strings that differ only in the case of ASCII letters lower-case to the same string |
| JsText.LowerAppend | coding-assistant/src/App.tsx:699-702 | lower-casing distributes over concatenation |
| JsText.KeepLetters | coding-assistant/src/App.tsx:739 | the filter keeps only ASCII letters of the input, never lengthens it, and keeps every letter as often as it occurs |
| JsText.KeepLettersAppend | coding-assistant/src/App.tsx:739 | the filter of a concatenation is the concatenation of the filters, so the letters keep their order |
| JsText.KeepLettersOfLetters | coding-assistant/src/App.tsx:739 | a string made only of ASCII letters passes the filter unchanged |
| JsText.Slug | coding-assistant/src/App.tsx:739 | the slug `request.toLowerCase().replace(/[^a-zA-Z]/g, '')` consists of lower-case ASCII letters only |
| JsText.SlugAppend | coding-assistant/src/App.tsx:739 | the slug of a concatenation is the concatenation of the slugs, so it keeps the order of the letters |
| JsText.SlugChar | coding-assistant/src/App.tsx:739 | the slug of one character is its lower case when it is an ASCII letter, `i` for U+0130, `k` for U+212A and empty otherwise |
| JsText.SlugIdempotent | coding-assistant/src/App.tsx:739 | the slug of a slug is itself, and lower-casing it changes nothing |
| JsText.LowerOfLowercase | coding-assistant/src/App.tsx:739 | lower-casing a string of lower-case ASCII letters is the identity |
| JsText.LowerIdempotent | coding-assistant/src/App.tsx:699-702 | lower-casing twice is lower-casing once |
| JsText.UpperChar | coding-assistant/src/App.tsx:774 | `toUpperCase` of one character maps `a`-`z` to `A`-`Z` and keeps every other character |
| JsText.CountCharAppend | coding-assistant/src/App.tsx:315 | the number of occurrences of a character in a concatenation is the sum over the parts |
| JsText.Split | coding-assistant/src/App.tsx:315 | `split` yields at least one piece and no piece contains the separator |
| JsText.SplitLength | coding-assistant/src/App.tsx:315 | `split(sep).length` is one more than the number of separators |
| JsText.JoinSplit | coding-assistant/src/App.tsx:315 | joining the pieces of a split with the separator gives back the string |
| Rules.Fired | coding-assistant/src/App.tsx:259-320 | the findings of a rule table: never more than the rules, and each one belongs to a rule whose pattern matches |
| Analyzer.SecurityFindings | coding-assistant/src/App.tsx:267-284 | the SQL-injection finding comes before the XSS finding, and each is present exactly when its substring test holds |
| Analyzer.PerformanceFindings | coding-assistant/src/App.tsx:286-303 | the indexed-loop finding comes before the timer finding, and each is present exactly when its substring test holds |
| Analyzer.BestPracticeFindings | coding-assistant/src/App.tsx:305-312 | the const/let advice comes before the strict-equality advice, and each is present exactly when its substring test holds |
| Analyzer.SqlInjectionIff | coding-assistant/src/App.tsx:268-275 | a high-severity SQL-injection finding is reported if and only if the code contains `SELECT` and `${` but not `parameterized` |
| Analyzer.StrictEqualityIff | coding-assistant/src/App.tsx:310-312 | the strict-equality advice is given if and only if the code contains `==` and not `===` |
| Analyzer.VarAdviceIff | coding-assistant/src/App.tsx:306-308 | the const/let advice is given if and only if the code contains `var ` |
| Analyzer.ComplexityBuckets | coding-assistant/src/App.tsx:314-317 | with lines = line breaks + 1: high if and only if more than 50 lines, medium if and only if 21 to 50, low if and only if 20 or fewer |
| Analyzer.AnalyzeCode | coding-assistant/src/App.tsx:259-320 | pushing one finding per rule and bucketing the line count yields exactly the rule-table analysis |
| Analyzer.Analyze | coding-assistant/src/App.tsx:259-320 | at most two security findings, two performance findings and two pieces of advice |
| Analyzer.ScanSecurity | coding-assistant/src/App.tsx:267-284 | the two security `if`s push exactly the rule-table security findings |
| Analyzer.ScanPerformance | coding-assistant/src/App.tsx:286-303 | the two performance `if`s push exactly the rule-table performance findings |
| Analyzer.ScanBestPractices | coding-assistant/src/App.tsx:305-312 | the two best-practice `if`s push exactly the rule-table advice |
| Suggestions.SuggestionsInRuleOrder | coding-assistant/src/App.tsx:386-414 | add-return, then simplify-boolean, then use-reduce, each present exactly when its substring test holds |
| Suggestions.SuggestionsRanked | coding-assistant/src/App.tsx:383-417 | at most three suggestions, of distinct kinds, with strictly decreasing confidences between 70 and 90 percent |
| Suggestions.AutocompleteIff | coding-assistant/src/App.tsx:387-394 | an autocomplete suggestion appears if and only if the code contains `function` and not `return`, and then it comes first |
| Suggestions.GenerateCodeSuggestions | coding-assistant/src/App.tsx:383-417 | pushing one suggestion per `if` yields exactly the rule-table suggestions |
| Suggestions.Suggest | coding-assistant/src/App.tsx:383-417 | at most three suggestions, each one of the add-return, simplify-boolean and use-reduce suggestions |
| ChatStore.TextMessage | coding-assistant/src/App.tsx:557-562 | a plain text message has no code, analysis or suggestions |
| ChatStore.FirstUserMessage | coding-assistant/src/App.tsx:1247 | `find(msg => msg.type === 'user')`: none exactly when no message is from the user, else the earliest user message |
| ChatStore.GenerateChatTitle | coding-assistant/src/App.tsx:1246-1256 | the title never exceeds 33 characters |
| ChatStore.ChatTitleShape | coding-assistant/src/App.tsx:1246-1256 | the title is `New Chat` without a user message; otherwise the content when at most 30 characters, else its first 30 characters followed by `...` |
| ChatStore.TitleStableUnderAppend | coding-assistant/src/App.tsx:1246-1256 | once a user message exists, appending messages changes neither the first user message nor the title |
| ChatStore.TitleFromNewMessage | coding-assistant/src/App.tsx:565-573 | in a chat without user messages, a newly sent message becomes the first user message |
| ChatStore.ApplyEdit | coding-assistant/src/App.tsx:565-573 | an edit keeps the id and creation time and appends at most one message at the end |
| ChatStore.EditFrame | coding-assistant/src/App.tsx:565-573 | an edit keeps id and creation time and only appends messages; the title changes only by a rename or by auto-titling a `New Chat`; folder and pin change only by their own edits |
| ChatStore.UpdateChat | coding-assistant/src/App.tsx:1042-1058 | `prev.map(...)`: same length and ids, the edit applied to every chat with the id and no other chat changed |
| ChatStore.UpdateMissingChat | coding-assistant/src/App.tsx:724-728 | an update aimed at an id no chat has leaves the list as it was |
| ChatStore.SendTouchesOnlyTarget | coding-assistant/src/App.tsx:565-573 | sending appends the message at the end of the target chat only, keeps a non-default title, folder and pin, and leaves every other chat unchanged |
| ChatStore.EditKeepsFolders | coding-assistant/src/App.tsx:1042-1058 | an edit other than a folder move keeps every id in place and every chat's folder |
| ChatStore.FirstSendTitlesChat | coding-assistant/src/App.tsx:565-573 | the first user message sent to a `New Chat` titles it with its content, cut to 30 characters plus `...` when longer |
| ChatStore.FindChat | coding-assistant/src/App.tsx:226 | `chats.find(chat => chat.id === id)`: none exactly when no chat has the id, else the first chat with it |
| ChatStore.SameIdsFind | coding-assistant/src/App.tsx:1042-1058 | an update that keeps the ids in place keeps the same chats findable |
| ChatStore.RemoveChat | coding-assistant/src/App.tsx:1031 | `filter(chat => chat.id !== chatId)`: exactly the chats with other ids remain; nothing changes when none had the id, and nothing remains when all had it |
| ChatStore.RemoveChatAppend | coding-assistant/src/App.tsx:1031 | the filter of a concatenation is the concatenation of the filters, so the remaining chats keep their order |
| ChatStore.RemoveChatFirst | coding-assistant/src/App.tsx:1033-1035 | the first remaining chat is the first chat of the old list that had another id |
| ChatStore.DeleteKeepsSelection | coding-assistant/src/App.tsx:1030-1040 | after the filter no chat has the deleted id; another current chat survives, and the first remaining chat can be found |
| ChatStore.NewChatAlone | coding-assistant/src/App.tsx:1037 | the fallback list of one new chat contains exactly the new id |
| ChatStore.NewChat | coding-assistant/src/App.tsx:502-547 | a new chat is `New Chat`, unpinned, not being edited, in no folder, with one greeting message from the assistant (the system in enterprise mode) and no user message |
| ChatStore.DeleteChatOutcome | coding-assistant/src/App.tsx:1030-1040 | without a fallback the list is the filtered list; the fallback is a list of the one new chat, made current; a current chat other than the deleted one stays current |
| ChatStore.DeleteChatOutcomeSpec | coding-assistant/src/App.tsx:1030-1040 | after a delete the current chat exists and the deleted id is gone; a current chat other than the deleted one stays current; a new chat is created exactly when the last chat was the current one and was deleted |
| ChatStore.FindChatFirst | coding-assistant/src/App.tsx:1229 | `find` returns the first chat with the id |
| ChatStore.DuplicateChat | coding-assistant/src/App.tsx:1228-1243 | an unknown id changes nothing; otherwise one chat with the fresh id is put in front of the unchanged list |
| ChatStore.DuplicateChatSpec | coding-assistant/src/App.tsx:1228-1243 | the copy is prepended with the fresh id, the time, the same messages and folder, title + ` (Copy)`, not pinned and not being edited; the old list follows unchanged |
| ChatStore.DuplicateUnknownChat | coding-assistant/src/App.tsx:1228-1243 | duplicating an unknown id leaves the list unchanged |
| Folders.HexDigit | coding-assistant/src/App.tsx:1078 | the digit for a value below 16 is one of `0`-`9`, `a`-`f` and reads back as that value |
| Folders.Hex | coding-assistant/src/App.tsx:1078 | `n.toString(16)` is a non-empty string of lower-case hexadecimal digits that starts with `0` only for zero, and then has no other digit |
| Folders.HexRoundTrip | coding-assistant/src/App.tsx:1078 | reading the hexadecimal digits back gives the number |
| Folders.HexLength | coding-assistant/src/App.tsx:1078 | a number below 16^k has at most k hexadecimal digits |
| Folders.FolderColorShape | coding-assistant/src/App.tsx:1078 | a colour drawn below 16777215 is `#` and one to six lower-case hexadecimal digits, without a leading zero, that spell the draw |
| Folders.CreateFolder | coding-assistant/src/App.tsx:1073-1084 | the folder list only grows, by at most one folder at the end |
| Folders.CreateFolderSpec | coding-assistant/src/App.tsx:1073-1084 | a blank name changes nothing; otherwise one folder is appended, with the trimmed, non-empty name that neither starts nor ends with white space, the id, colour and default icon |
| Folders.UpdateFolder | coding-assistant/src/App.tsx:1086-1090 | the patch is applied to every folder with the id, and no other folder changes |
| Folders.PatchFields | coding-assistant/src/App.tsx:1088 | `{ ...folder, ...updates }`: each field the patch carries is overwritten and each other field kept |
| Folders.RemoveFolder | coding-assistant/src/App.tsx:1098 | exactly the folders with other ids remain; nothing changes when none had the id, and nothing remains when all had it |
| Folders.RemoveFolderAppend | coding-assistant/src/App.tsx:1098 | the filter of a concatenation is the concatenation of the filters, so the remaining folders keep their order |
| Folders.UnassignFolder | coding-assistant/src/App.tsx:1094-1096 | every chat in the folder loses its folder and no other chat changes |
| Folders.DeleteFolderSpec | coding-assistant/src/App.tsx:1092-1099 | after a delete no chat is in the folder and no folder has the id; every other folder remains and the list does not grow; chats in other folders are unchanged, and member chats differ only in their folder |
| Folders.MoveChatToFolder | coding-assistant/src/App.tsx:1101-1115 | the chat with the id gets the folder and no other chat changes |
| Folders.RemoveChatFromFolder | coding-assistant/src/App.tsx:1066-1070 | the chat with the id loses its folder and no other chat changes |
| Folders.ToggleExpanded | coding-assistant/src/App.tsx:1125-1135 | the folder's membership flips and every other folder keeps its state |
| Folders.ToggleTwice | coding-assistant/src/App.tsx:1125-1135 | toggling twice restores the set |
| Folders.InSection | coding-assistant/src/App.tsx:1441-1675 | the three sidebar filters: pinned chats; unpinned chats whose folder is the folder's id; unpinned chats without a folder |
| Folders.ChatsIn | coding-assistant/src/App.tsx:1441 | a section lists exactly the chats of the list that belong to it: all of them when all do, none when none do |
| Folders.ChatsInAppend | coding-assistant/src/App.tsx:1441 | the section of a concatenation is the concatenation of the sections, so each section keeps the list order |
| Folders.ListedIff | coding-assistant/src/App.tsx:1675 | some section filter lists a chat exactly when it is pinned or does not name a missing folder |
| Folders.SectionsOverlap | coding-assistant/src/App.tsx:1540 | a chat is in two sections only when one is unassigned and the other the folder with the empty id |
| Folders.DeleteFolderKeepsNoDangling | coding-assistant/src/App.tsx:1092-1099 | deleting a folder leaves no chat naming a missing folder |
| Folders.SameFoldersKeepNoDangling | coding-assistant/src/App.tsx:1042-1058 | a list with the same folders in the same places names no missing folder either |
| Folders.EditKeepsOrganized | coding-assistant/src/App.tsx:1042-1058 | an edit other than a folder move keeps the current chat findable and names no missing folder |
| Folders.DeleteChatKeepsNoDangling | coding-assistant/src/App.tsx:1031 | deleting a chat names no missing folder |
| Folders.DeleteChatOutcomeKeepsNoDangling | coding-assistant/src/App.tsx:1030-1040 | the list after a delete, fallback included, names no missing folder |
| Folders.MoveKeepsNoDangling | coding-assistant/src/App.tsx:1101-1115 | moving a chat into an existing folder names no missing folder |
| Folders.RemoveKeepsNoDangling | coding-assistant/src/App.tsx:1066-1070 | taking a chat out of its folder names no missing folder |
| Folders.CreateKeepsNoDangling | coding-assistant/src/App.tsx:1073-1084 | creating a folder names no missing folder |
| Folders.UpdateKeepsNoDangling | coding-assistant/src/App.tsx:1086-1090 | a patch that keeps the id names no missing folder |
| Folders.AllListed | coding-assistant/src/App.tsx:1441 | when no chat names a missing folder, some section filter lists every chat |
| Folders.HoverTarget | coding-assistant/src/App.tsx:1165-1175 | the hover marker is the folder id when one is given, else `unassigned` |
| Folders.DropChats | coding-assistant/src/App.tsx:1182-1201 | a drop keeps the number of chats |
| Folders.DropSpec | coding-assistant/src/App.tsx:1182-1201 | a drop changes only the dragged chat, and only its folder: to the target, or to none without one; nothing changes when no drag is in progress |
| Folders.DropKeepsNoDangling | coding-assistant/src/App.tsx:1182-1201 | a drop onto an existing folder or the unassigned area names no missing folder |
| Folders.FindFolderByName | coding-assistant/src/App.tsx:1494 | none exactly when no folder's name matches without regard to case, else the first one that does |
| Folders.MoveByNameMatch | coding-assistant/src/App.tsx:1492-1500 | a typed name moves the chat to the first folder whose name matches it without regard to case |
| Folders.MoveByName | coding-assistant/src/App.tsx:1492-1500 | a move by name keeps the number of chats |
| Folders.MoveByNameNoMatch | coding-assistant/src/App.tsx:1492-1500 | with no matching folder, a cancelled prompt or a non-blank answer changes nothing and a blank answer takes the chat out of its folder |
| Folders.FolderNameIgnoresCase | coding-assistant/src/App.tsx:1494 | answers that differ only in the case of ASCII letters find the same folder |
| Folders.MoveByNameKeepsNoDangling | coding-assistant/src/App.tsx:1492-1500 | the move by name names no missing folder |
| Pipeline.ResponderCases | coding-assistant/src/App.tsx:577-697 | enterprise exactly with enterprise mode, a key and accepted terms; demo exactly without those and with a key other than the placeholder; the simulator otherwise |
| Pipeline.ChooseResponder | coding-assistant/src/App.tsx:577-697 | the enterprise provider needs enterprise mode and accepted terms; an empty key always gives the simulator; the demo provider never gets the placeholder key |
| Pipeline.TermsGateEnterprise | coding-assistant/src/App.tsx:577-639 | with the terms not accepted the enterprise provider is never chosen, and a real key gives the demo provider |
| Pipeline.CodeRequestIgnoresCase | coding-assistant/src/App.tsx:699-702 | the keyword test gives the same answer on the lower-cased input |
| Pipeline.IsCodeRequest | coding-assistant/src/App.tsx:699-702 | the keyword list test holds exactly when the lower-cased input includes `code`, `function`, `algorithm` or `write` |
| Pipeline.CodeRequestCaseInsensitive | coding-assistant/src/App.tsx:699-702 | two inputs that differ only in the case of ASCII letters are both code requests or neither |
| Pipeline.CodeRequestByKeyword | coding-assistant/src/App.tsx:699-702 | an input mentioning a keyword is a code request whatever follows it |
| Pipeline.TypeName | coding-assistant/src/App.tsx:774 | the type name is empty exactly for an empty request; otherwise the upper-cased first character followed by the slug of the rest |
| Pipeline.SampleCode | coding-assistant/src/App.tsx:737-790 | the Python, TypeScript or JavaScript template filled with the slug, the type name and the greeting of the language |
| Pipeline.Filled | coding-assistant/src/App.tsx:737-790 | a filled template starts with its declaration and contains its greeting |
| Pipeline.SampleCodeShape | coding-assistant/src/App.tsx:737-790 | every sample is non-empty, declares the slug (`def`, `function`) or the type name (`interface`) first, and greets in the requested language |
| Pipeline.UnknownLanguageUsesJavaScript | coding-assistant/src/App.tsx:789 | another language gets the JavaScript template, differing only in the greeting |
| Pipeline.LocalReplyShape | coding-assistant/src/App.tsx:704-723 | for a code request the reply carries the sample as code and after the intro, with its analysis; otherwise the canned answer, empty code and no analysis |
| Pipeline.AnalysisOnlyForLocalCode | coding-assistant/src/App.tsx:611-723 | no reply carries suggestions; an analysis is attached exactly to the simulator's code replies, and it is that code's analysis |
| Pipeline.LocalReply | coding-assistant/src/App.tsx:704-723 | the simulator's reply is an assistant message with the given id and time and no suggestions |
| Pipeline.ProviderReply | coding-assistant/src/App.tsx:611-630 | a provider's reply is an assistant message with the given id and time, with no analysis and no suggestions |
| Pipeline.Reply | coding-assistant/src/App.tsx:611-728 | the reply is the simulator's for the simulator and the provider's otherwise, an assistant message with the given id and time |
| Pipeline.ProviderReplyShape | coding-assistant/src/App.tsx:611-630 | enterprise: the intro with the text as code, or the error mark and the reason; demo: the text itself, or a fallback echoing the input; neither carries code except the enterprise success |
| Editor.EnhancedPromptShape | coding-assistant/src/App.tsx:419-426 | a blank editor gives the prompt alone; otherwise the prompt comes first, the editor text is quoted in full, and the result ends with the closing fence |
| Editor.EnhancedPrompt | coding-assistant/src/App.tsx:419-426 | the prompt always comes first |
| Editor.LastCode | coding-assistant/src/App.tsx:433-441 | none exactly when no message has non-empty code; otherwise the non-empty code of a message after which no message has code |
| Editor.LastCodeSkipsLast | coding-assistant/src/App.tsx:436-438 | a last message without code does not change the result of the search over the earlier ones |
| Editor.WithSuggestionShape | coding-assistant/src/App.tsx:487-490 | the text is kept, followed by a line break and the suggested code, and the line count grows by exactly the suggestion's lines |
| Editor.WithSuggestion | coding-assistant/src/App.tsx:487-490 | the text is kept and grows by a line break and the suggestion's code |
| App.InitialChat | coding-assistant/src/App.tsx:123-139 | the first chat is chat `1`, `New Chat`, unpinned, in no folder, with one assistant greeting |
| App.KeyFromEnvironment | coding-assistant/src/App.tsx:230-236 | the key taken from the environment is never the placeholder: it is the environment's value or empty |
| App.Assistant.constructor | coding-assistant/src/App.tsx:123-176 | the initial state: one chat, current; the initial folders; nothing dragged or expanded; both invariants hold |
| App.Assistant.CurrentMessages | coding-assistant/src/App.tsx:226-227 | the messages of the current chat, or none when it cannot be found |
| App.Assistant.SetInputValue | coding-assistant/src/App.tsx:2042 | the input field holds the typed value |
| App.Assistant.SetNewFolderName | coding-assistant/src/App.tsx:1399 | the folder-name field holds the typed value |
| App.Assistant.SelectLanguage | coding-assistant/src/App.tsx:1807 | the selected language is the chosen one |
| App.Assistant.CreateNewChat | coding-assistant/src/App.tsx:502-552 | the new chat is prepended and becomes current, and the terms are no longer accepted |
| App.Assistant.DeleteChat | coding-assistant/src/App.tsx:1030-1040 | the state after the delete, with the fallback to the first remaining or a new chat; the current chat exists and the deleted id is gone |
| App.Assistant.UpdateChatTitle | coding-assistant/src/App.tsx:1042-1046 | the chat with the id is renamed and leaves editing; the invariants are kept |
| App.Assistant.TogglePinChat | coding-assistant/src/App.tsx:1048-1052 | the pin of the chat with the id flips; the invariants are kept |
| App.Assistant.StartEditingChat | coding-assistant/src/App.tsx:1054-1058 | the chat with the id enters editing; the invariants are kept |
| App.Assistant.HandleDuplicateChat | coding-assistant/src/App.tsx:1228-1243 | the copy is prepended and made current when the id exists; otherwise nothing changes |
| App.Assistant.HandleSendMessage | coding-assistant/src/App.tsx:554-577 | blank input changes nothing; otherwise the message is sent to the current chat, the input is cleared, and the pending reply names that chat and the responder |
| App.Assistant.SubmitInput | coding-assistant/src/App.tsx:557-577 | the user message is sent to the current chat, the input is cleared, and the pending reply records chat, input, language and responder |
| App.Assistant.DeliverReply | coding-assistant/src/App.tsx:611-635 | the reply is appended to the chat captured at send time, and to no chat when that chat is gone |
| App.Assistant.EditChat | coding-assistant/src/App.tsx:1042-1058 | one `setChats(prev => prev.map(...))` step keeps both invariants |
| App.Assistant.HandleAcceptTerms | coding-assistant/src/App.tsx:928-930 | the terms are accepted |
| App.Assistant.CreateNewFolder | coding-assistant/src/App.tsx:1073-1084 | the folder list after the creation; the name field is cleared only when a folder was created |
| App.Assistant.UpdateFolder | coding-assistant/src/App.tsx:1086-1090 | the folder list after the patch; no chat names a missing folder when the patch keeps the id |
| App.Assistant.DeleteFolder | coding-assistant/src/App.tsx:1092-1099 | member chats are unassigned before the folder is removed; the invariants are kept |
| App.Assistant.MoveChatToFolder | coding-assistant/src/App.tsx:1101-1115 | the chat is moved; organization is kept when the folder exists |
| App.Assistant.RemoveChatFromFolder | coding-assistant/src/App.tsx:1066-1070 | the chat leaves its folder; the invariants are kept |
| App.Assistant.ToggleFolderExpansion | coding-assistant/src/App.tsx:1125-1135 | the folder's expansion flips |
| App.Assistant.MoveChatByName | coding-assistant/src/App.tsx:1489-1501 | the move by typed name; the invariants are kept |
| App.Assistant.HandleDragStart | coding-assistant/src/App.tsx:1153-1163 | the chat is being dragged |
| App.Assistant.HandleDragOver | coding-assistant/src/App.tsx:1165-1175 | the hover marker is the folder id, or `unassigned` |
| App.Assistant.HandleDragLeave | coding-assistant/src/App.tsx:1177-1180 | the hover marker is cleared |
| App.Assistant.HandleDrop | coding-assistant/src/App.tsx:1182-1201 | the drop's chat list, and the drag state is cleared in every case |
| App.Assistant.HandleDragEnd | coding-assistant/src/App.tsx:1203-1211 | the drag state is cleared |
| App.Assistant.HandleCodeChange | coding-assistant/src/App.tsx:474-485 | the text is stored; above 10 characters the suggestions are recomputed; they are shown exactly when that leaves some |
| App.Assistant.ApplySuggestion | coding-assistant/src/App.tsx:487-490 | the suggested code is appended on a new line and the list is hidden |
| App.Assistant.HandlePromptTemplate | coding-assistant/src/App.tsx:419-426 | the input becomes the enhanced prompt for the editor text and language |
| App.Assistant.ToggleSplitView | coding-assistant/src/App.tsx:428-442 | the split view flips; on opening with a blank editor, the last code of the current chat is loaded |

## Left out

- The OpenAI `fetch` calls, their JSON bodies and HTTP errors (App.tsx:579-636, 641-695) are a remote service. The model keeps only which branch runs and the message each outcome turns into, with the provider's text or error message as a parameter.
- The `setTimeout` delay of the simulator and the `isLoading` flag (App.tsx:698-734) are asynchronous scheduling. The model keeps only the rule that the reply goes to the chat captured at send time (`App.Assistant.DeliverReply`).
- Speech recognition (App.tsx:932-1028) is a browser API with callbacks.
- File upload (App.tsx:460-472) involves `File` objects, `alert` and floating-point size formatting.
- `Math.random` for the folder colour (App.tsx:1078) is taken as the parameter `draw`.
- The `prompt()` dialog of the move by name is taken as the parameter `answer`. `alert()`, the clipboard and `console.log` have no modelled effect.
- The enterprise-mode toggles and the API-key dialog (App.tsx:800-916) read the environment and reset state to fixed literals.
- `generateUnitTests` (App.tsx:322-381) and the prompt-template catalogue are constant text with no behaviour. `handlePromptTemplate` takes the template's prompt as its parameter.
- The JSX rendering (App.tsx:1258-2366) is left out, apart from the three sidebar filters and the move-by-name handler. The context menu, emoji picker, quick actions, `forceSplitView` and scrolling are display-only.
- `addChatToFolder` (App.tsx:1060-1064) is never called.
- `getChatsByFolder` (App.tsx:1117-1119) only feeds the folder count of the folder manager (App.tsx:1413), which is rendering and is left out. That count includes pinned chats, unlike the per-folder section filter that `Folders.ChatsIn` models.
- `getUnassignedChats` (App.tsx:1121-1123) is never called.
- Selecting a chat by clicking it (`setCurrentChatId`) is left out. It is a single field write that may name any chat, and `Valid()` assumes the chat exists.
- JavaScript string lengths count UTF-16 code units; the model counts Unicode scalar values. The two agree except for characters outside the Basic Multilingual Plane in the 30-character title cut, in the 10-character threshold of `handleCodeChange`, and in the first character of the TypeScript type name: for such a first character, `charAt(0)` is a lone high surrogate and `slice(1)` begins with the low one, which the letter filter drops, whereas `Pipeline.TypeName` keeps the whole character.
- JsText.Lower: models `toLowerCase` only for the ASCII capitals and the two characters whose lower case contains an ASCII letter (U+0130, U+212A); every other character is kept as is. This is exact for the keyword test and the slug; in the folder-name match, two names that differ only in the case of a non-ASCII letter count as different.
- The rendering conditions of the sidebar are not modelled: the folder sections appear only while the folder dropdown is open (App.tsx:1537), which it is not at first (App.tsx:169), and a folder's chats only while the folder is expanded and has chats (App.tsx:1600). `Folders.Listed` says which section filter lists a chat, not whether it is on screen.
- The `disabled` state of the message box and the send button in enterprise mode before the terms are accepted (App.tsx:2047, 2106) is rendering. `App.Assistant.HandleSendMessage` models the handler, which itself does not look at the terms outside the enterprise branch.
- JsText.UpperChar: models `toUpperCase` of one character only for `a`-`z`; other characters, whose upper case may be several characters long, are kept as is.
- `chats.find` and property lookups work on plain JavaScript values; lookups by a key such as `__proto__` are not modelled.
- `Date.now().toString()` ids and `new Date()` timestamps are parameters, so no two are assumed distinct or ordered.
- The constant greeting and template texts are copied as the file's text stores them, including their mis-decoded emoji.
- App.Assistant.DeleteChat: the fallback performs the effect of `createNewChat` (a new chat prepended to the filtered list, made current, terms reset) rather than calling that method. The two `setChats` updaters run in order, so the new chat is prepended to the already filtered, empty list.
