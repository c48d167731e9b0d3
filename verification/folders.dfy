/** The folder organizer (App.tsx:25-30, 162-176, 1066-1135, 1153-1211):
    folders, the assignment of chats to folders, the expanded set, the
    result of a drop, the move by typed folder name, and the three
    sections the sidebar shows. A chat refers to a folder by the folder's
    id; "no folder" is an absent or empty `folder` field. */
module Folders {
  import opened Wrappers
  import opened JsText
  import opened ChatStore
  import opened Texts

  datatype ChatFolder = ChatFolder(id: string, name: string, color: string, icon: string)

  /** `Partial<ChatFolder>`: the fields an update overwrites. */
  datatype FolderPatch = FolderPatch(
    id: Option<string>, name: Option<string>, color: Option<string>, icon: Option<string>)

  /** The folders the component starts with (App.tsx:162-167). */
  const InitialFolders := [
    ChatFolder("1", "General", "#6b7280", FolderIcon),
    ChatFolder("2", "Work", "#3b82f6", WorkIcon),
    ChatFolder("3", "Personal", "#10b981", PersonalIcon),
    ChatFolder("4", "Projects", "#f59e0b", ProjectsIcon)
  ]

  /** The id of the folder the sidebar never offers to delete (App.tsx:1423). */
  const ProtectedFolderId := "1"

  /** The hover marker of the unassigned area (App.tsx:1173). */
  const UnassignedMarker := "unassigned"

  /** The exclusive upper bound of the random colour draw (App.tsx:1078). */
  const ColorRange := 16777215

  // ---------------------------------------------------------------------
  // Colours: `'#' + n.toString(16)`

  /** The digits `toString(16)` writes: `0`-`9` and `a`-`f`. */
  predicate IsHexDigit(c: char) {
    '0' <= c <= '9' || 'a' <= c <= 'f'
  }

  /** The lower-case hexadecimal digit for `d`, `0`-`9` then `a`-`f`. */
  function HexDigit(d: nat): (c: char)
    requires d < 16
    ensures IsHexDigit(c) && DigitValue(c) == d
  {
    if d < 10 then ('0' as int + d) as char else ('a' as int + d - 10) as char
  }

  /** The value of a lower-case hexadecimal digit. */
  function DigitValue(c: char): nat {
    if '0' <= c <= '9' then c as int - '0' as int
    else if 'a' <= c <= 'f' then c as int - 'a' as int + 10
    else 0
  }

  /** `n.toString(16)`: lower-case hexadecimal digits, no leading zeros. */
  function Hex(n: nat): (s: string)
    ensures 1 <= |s|
    ensures forall i :: 0 <= i < |s| ==> IsHexDigit(s[i])
    ensures s[0] == '0' <==> n == 0
    ensures |s| > 1 ==> s[0] != '0'
    decreases n
  {
    if n < 16 then [HexDigit(n)] else Hex(n / 16) + [HexDigit(n % 16)]
  }

  /** The number a string of hexadecimal digits denotes. */
  function HexValue(s: string): nat {
    if s == [] then 0 else HexValue(s[..|s| - 1]) * 16 + DigitValue(s[|s| - 1])
  }

  /** Reading the digits back gives the number: the colour determines the draw. */
  lemma {:induction false} HexRoundTrip(n: nat)
    ensures HexValue(Hex(n)) == n
    decreases n
  {
    var s := Hex(n);
    if n < 16 {
      assert s[..0] == [];
    } else {
      HexRoundTrip(n / 16);
      assert s[..|s| - 1] == Hex(n / 16);
      assert DigitValue(s[|s| - 1]) == n % 16;
    }
  }

  /** Below 16^k a number has at most k hexadecimal digits. */
  lemma {:induction false} HexLength(n: nat, k: nat, bound: nat)
    requires 1 <= k && bound == Pow16(k) && n < bound
    ensures |Hex(n)| <= k
    decreases k
  {
    if n >= 16 {
      assert k > 1;
      HexLength(n / 16, k - 1, Pow16(k - 1));
    }
  }

  function Pow16(k: nat): nat {
    if k == 0 then 1 else 16 * Pow16(k - 1)
  }

  /** The colour of a new folder, from the random draw. */
  function FolderColor(draw: nat): string {
    "#" + Hex(draw)
  }

  /** A colour drawn in range is `#` and one to six hexadecimal digits that
      spell the draw. */
  lemma FolderColorShape(draw: nat)
    requires draw < ColorRange
    ensures var c := FolderColor(draw);
      && 2 <= |c| <= 7 && c[0] == '#' && HexValue(c[1..]) == draw
      && (forall i :: 1 <= i < |c| ==> IsHexDigit(c[i]))
      && (c[1] == '0' <==> draw == 0)
      && (|c| > 2 ==> c[1] != '0')
  {
    assert Pow16(6) == 16777216;
    HexLength(draw, 6, Pow16(6));
    HexRoundTrip(draw);
    assert FolderColor(draw)[1..] == Hex(draw);
  }

  // ---------------------------------------------------------------------
  // Folder list

  /** The folder list after `createNewFolder` (App.tsx:1073-1084): a blank
      name is refused; otherwise a folder with the trimmed name, the given
      id and colour and the folder icon goes at the end. */
  function CreateFolder(folders: seq<ChatFolder>, input: string, id: string, color: string): (r: seq<ChatFolder>)
    ensures folders <= r && |r| <= |folders| + 1
  {
    if IsBlank(input) then folders
    else folders + [ChatFolder(id, Trim(input), color, FolderIcon)]
  }

  lemma CreateFolderSpec(folders: seq<ChatFolder>, input: string, id: string, color: string)
    ensures var r := CreateFolder(folders, input, id, color);
      && (IsBlank(input) ==> r == folders)
      && (!IsBlank(input) ==>
            && |r| == |folders| + 1 && r[..|folders|] == folders
            && r[|folders|] == ChatFolder(id, Trim(input), color, FolderIcon)
            && r[|folders|].name != []
            && !IsWhitespace(r[|folders|].name[0])
            && !IsWhitespace(r[|folders|].name[|r[|folders|].name| - 1]))
  {
    var r := CreateFolder(folders, input, id, color);
    if !IsBlank(input) {
      assert r[..|folders|] == folders;
    }
  }

  function ApplyPatch(f: ChatFolder, p: FolderPatch): ChatFolder {
    ChatFolder(p.id.GetOr(f.id), p.name.GetOr(f.name), p.color.GetOr(f.color), p.icon.GetOr(f.icon))
  }

  /** `prev.map(folder => folder.id === id ? { ...folder, ...updates } : folder)`
      (App.tsx:1086-1090). */
  function UpdateFolder(folders: seq<ChatFolder>, id: string, p: FolderPatch): (r: seq<ChatFolder>)
    ensures |r| == |folders|
    ensures forall i :: 0 <= i < |folders| ==>
      r[i] == if folders[i].id == id then ApplyPatch(folders[i], p) else folders[i]
  {
    if folders == [] then []
    else
      var head := if folders[0].id == id then ApplyPatch(folders[0], p) else folders[0];
      var rest := UpdateFolder(folders[1..], id, p);
      assert forall i :: 1 <= i < |folders| ==> folders[i] == folders[1..][i - 1];
      [head] + rest
  }

  /** A patch overwrites exactly the fields it carries. */
  lemma PatchFields(f: ChatFolder, p: FolderPatch)
    ensures var g := ApplyPatch(f, p);
      && (p.id.Some? ==> g.id == p.id.value) && (p.id.None? ==> g.id == f.id)
      && (p.name.Some? ==> g.name == p.name.value) && (p.name.None? ==> g.name == f.name)
      && (p.color.Some? ==> g.color == p.color.value) && (p.color.None? ==> g.color == f.color)
      && (p.icon.Some? ==> g.icon == p.icon.value) && (p.icon.None? ==> g.icon == f.icon)
  {
  }

  /** `prev.filter(folder => folder.id !== id)` (App.tsx:1098). */
  function RemoveFolder(folders: seq<ChatFolder>, id: string): (r: seq<ChatFolder>)
    ensures |r| <= |folders|
    ensures forall f :: f in r <==> f in folders && f.id != id
    ensures (forall i :: 0 <= i < |folders| ==> folders[i].id != id) ==> r == folders
    ensures (forall i :: 0 <= i < |folders| ==> folders[i].id == id) ==> r == []
  {
    if folders == [] then []
    else
      var rest := RemoveFolder(folders[1..], id);
      assert forall f :: f in folders <==> f == folders[0] || f in folders[1..];
      if folders[0].id != id then [folders[0]] + rest else rest
  }

  /** The filter works piece by piece, so the folders left keep their order. */
  lemma {:induction false} RemoveFolderAppend(a: seq<ChatFolder>, b: seq<ChatFolder>, id: string)
    ensures RemoveFolder(a + b, id) == RemoveFolder(a, id) + RemoveFolder(b, id)
  {
    if a == [] {
      assert a + b == b;
    } else {
      assert (a + b)[0] == a[0] && (a + b)[1..] == a[1..] + b;
      RemoveFolderAppend(a[1..], b, id);
    }
  }

  /** `prev.map(chat => chat.folder === id ? { ...chat, folder: undefined } : chat)`
      (App.tsx:1094-1096). */
  function UnassignFolder(chats: seq<Chat>, id: string): (r: seq<Chat>)
    ensures |r| == |chats|
    ensures forall i :: 0 <= i < |chats| ==>
      r[i] == if chats[i].folder == Some(id) then chats[i].(folder := None) else chats[i]
  {
    if chats == [] then []
    else
      var head := if chats[0].folder == Some(id) then chats[0].(folder := None) else chats[0];
      var rest := UnassignFolder(chats[1..], id);
      assert forall i :: 1 <= i < |chats| ==> chats[i] == chats[1..][i - 1];
      [head] + rest
  }

  /** After `deleteFolder(id)` no chat is in folder `id` and no folder has
      that id; every other folder survives; chats in other folders or in
      none are unchanged, and the former members keep everything but
      their folder. Folder "1" is not special here: only the sidebar
      withholds its delete button. */
  lemma DeleteFolderSpec(chats: seq<Chat>, folders: seq<ChatFolder>, id: string)
    ensures var cs := UnassignFolder(chats, id);
      var fs := RemoveFolder(folders, id);
      && (forall i :: 0 <= i < |cs| ==> cs[i].folder != Some(id))
      && (forall f :: f in fs ==> f.id != id)
      && (forall f :: f in folders && f.id != id ==> f in fs)
      && |fs| <= |folders|
      && |cs| == |chats|
      && (forall i :: 0 <= i < |chats| && chats[i].folder != Some(id) ==> cs[i] == chats[i])
      && (forall i :: 0 <= i < |chats| && chats[i].folder == Some(id) ==>
            cs[i].folder == None && cs[i].(folder := chats[i].folder) == chats[i])
  {
  }

  /** `moveChatToFolder` (App.tsx:1101-1115). */
  function MoveChatToFolder(chats: seq<Chat>, chatId: string, folderId: string): (r: seq<Chat>)
    ensures |r| == |chats|
    ensures forall i :: 0 <= i < |chats| ==>
      r[i] == if chats[i].id == chatId then chats[i].(folder := Some(folderId)) else chats[i]
  {
    UpdateChat(chats, chatId, SetFolder(Some(folderId)))
  }

  /** `removeChatFromFolder` (App.tsx:1066-1070). */
  function RemoveChatFromFolder(chats: seq<Chat>, chatId: string): (r: seq<Chat>)
    ensures |r| == |chats|
    ensures forall i :: 0 <= i < |chats| ==>
      r[i] == if chats[i].id == chatId then chats[i].(folder := None) else chats[i]
  {
    UpdateChat(chats, chatId, SetFolder(None))
  }

  /** `toggleFolderExpansion` (App.tsx:1125-1135). */
  function ToggleExpanded(expanded: set<string>, id: string): (r: set<string>)
    ensures id in r <==> id !in expanded
    ensures forall x :: x != id ==> (x in r <==> x in expanded)
  {
    if id in expanded then expanded - {id} else expanded + {id}
  }

  /** Toggling twice restores the set. */
  lemma ToggleTwice(expanded: set<string>, id: string)
    ensures ToggleExpanded(ToggleExpanded(expanded, id), id) == expanded
  {
    var r := ToggleExpanded(ToggleExpanded(expanded, id), id);
    assert forall x :: x in r <==> x in expanded;
  }

  // ---------------------------------------------------------------------
  // Sections of the sidebar

  datatype Section = Pinned | InFolder(folderId: string) | Unassigned

  /** The section filters: `chat.isPinned` (App.tsx:1441),
      `!chat.isPinned && chat.folder === folder.id` (App.tsx:1540) and
      `!chat.isPinned && !chat.folder` (App.tsx:1675). */
  predicate InSection(c: Chat, s: Section) {
    match s
    case Pinned => c.isPinned
    case InFolder(id) => !c.isPinned && c.folder == Some(id)
    case Unassigned => !c.isPinned && !Truthy(c.folder)
  }

  /** The chats a section lists, in list order. */
  function ChatsIn(chats: seq<Chat>, s: Section): (r: seq<Chat>)
    ensures |r| <= |chats|
    ensures forall c :: c in r <==> c in chats && InSection(c, s)
    ensures (forall i :: 0 <= i < |chats| ==> InSection(chats[i], s)) ==> r == chats
    ensures (forall i :: 0 <= i < |chats| ==> !InSection(chats[i], s)) ==> r == []
  {
    if chats == [] then []
    else
      var rest := ChatsIn(chats[1..], s);
      assert forall c :: c in chats <==> c == chats[0] || c in chats[1..];
      if InSection(chats[0], s) then [chats[0]] + rest else rest
  }

  /** A section lists the chats of each part of the list in turn, so it
      keeps the list's order. */
  lemma {:induction false} ChatsInAppend(a: seq<Chat>, b: seq<Chat>, s: Section)
    ensures ChatsIn(a + b, s) == ChatsIn(a, s) + ChatsIn(b, s)
  {
    if a == [] {
      assert a + b == b;
    } else {
      assert (a + b)[0] == a[0] && (a + b)[1..] == a[1..] + b;
      ChatsInAppend(a[1..], b, s);
    }
  }

  /** The chat names a folder id, and no folder in the list has it. */
  predicate RefersToMissingFolder(c: Chat, folders: seq<ChatFolder>) {
    Truthy(c.folder) && forall i :: 0 <= i < |folders| ==> folders[i].id != c.folder.value
  }

  /** Some section filter of the sidebar lists the chat. Whether the list
      is rendered is another matter: the folder sections appear only while
      the folder dropdown is open (App.tsx:1537), and a folder's chats
      only while it is expanded (App.tsx:1600). */
  predicate Listed(c: Chat, folders: seq<ChatFolder>) {
    InSection(c, Pinned) || InSection(c, Unassigned)
    || exists i :: 0 <= i < |folders| && InSection(c, InFolder(folders[i].id))
  }

  /** A chat is listed exactly when it is pinned or does not refer to a
      missing folder: an unpinned chat whose folder id matches no folder
      is in no section at all, since the unassigned filter only takes
      chats without a folder. */
  lemma ListedIff(c: Chat, folders: seq<ChatFolder>)
    ensures Listed(c, folders) <==> c.isPinned || !RefersToMissingFolder(c, folders)
  {
    if !c.isPinned && Truthy(c.folder) && !RefersToMissingFolder(c, folders) {
      var i :| 0 <= i < |folders| && folders[i].id == c.folder.value;
      assert InSection(c, InFolder(folders[i].id));
    }
  }

  /** Sections overlap only in one corner: an unpinned chat whose folder is
      the empty string is both unassigned and in a folder whose id is the
      empty string. */
  lemma SectionsOverlap(c: Chat, a: Section, b: Section)
    requires InSection(c, a) && InSection(c, b) && a != b
    ensures (a == Unassigned && b == InFolder("")) || (a == InFolder("") && b == Unassigned)
  {
  }

  /** No chat refers to a missing folder. */
  predicate NoDangling(chats: seq<Chat>, folders: seq<ChatFolder>) {
    forall i :: 0 <= i < |chats| ==> !RefersToMissingFolder(chats[i], folders)
  }

  predicate HasFolder(folders: seq<ChatFolder>, id: string) {
    exists i :: 0 <= i < |folders| && folders[i].id == id
  }

  /** Deleting a folder leaves no chat pointing at it or at any other
      missing folder. */
  lemma DeleteFolderKeepsNoDangling(chats: seq<Chat>, folders: seq<ChatFolder>, id: string)
    requires NoDangling(chats, folders)
    ensures NoDangling(UnassignFolder(chats, id), RemoveFolder(folders, id))
  {
    var cs := UnassignFolder(chats, id);
    var fs := RemoveFolder(folders, id);
    forall i | 0 <= i < |cs| ensures !RefersToMissingFolder(cs[i], fs) {
      if Truthy(cs[i].folder) {
        assert cs[i] == chats[i];
        var j :| 0 <= j < |folders| && folders[j].id == chats[i].folder.value;
        assert folders[j] in fs;
        var k :| 0 <= k < |fs| && fs[k] == folders[j];
      }
    }
  }

  /** A chat list with the same folder fields, place by place, has the
      same references. */
  lemma SameFoldersKeepNoDangling(a: seq<Chat>, b: seq<Chat>, folders: seq<ChatFolder>)
    requires NoDangling(a, folders)
    requires |a| == |b| && forall i :: 0 <= i < |a| ==> a[i].folder == b[i].folder
    ensures NoDangling(b, folders)
  {
    forall i | 0 <= i < |b| ensures !RefersToMissingFolder(b[i], folders) {
      assert !RefersToMissingFolder(a[i], folders);
    }
  }

  /** Edits other than a folder edit keep every chat findable and every
      reference valid. */
  lemma EditKeepsOrganized(chats: seq<Chat>, id: string, e: ChatEdit, current: string, folders: seq<ChatFolder>)
    requires !e.SetFolder?
    ensures FindChat(UpdateChat(chats, id, e), current).Some? <==> FindChat(chats, current).Some?
    ensures NoDangling(chats, folders) ==> NoDangling(UpdateChat(chats, id, e), folders)
  {
    EditKeepsFolders(chats, id, e);
    SameIdsFind(chats, UpdateChat(chats, id, e), current);
    if NoDangling(chats, folders) {
      SameFoldersKeepNoDangling(chats, UpdateChat(chats, id, e), folders);
    }
  }

  /** Deleting chats keeps the references of the others valid. */
  lemma DeleteChatKeepsNoDangling(chats: seq<Chat>, folders: seq<ChatFolder>, chatId: string)
    requires NoDangling(chats, folders)
    ensures NoDangling(RemoveChat(chats, chatId), folders)
  {
    var r := RemoveChat(chats, chatId);
    forall i | 0 <= i < |r| ensures !RefersToMissingFolder(r[i], folders) {
      assert r[i] in r;
      var j :| 0 <= j < |chats| && chats[j] == r[i];
    }
  }

  /** A deletion, and the fresh chat it may create, keep every reference valid. */
  lemma DeleteChatOutcomeKeepsNoDangling(chats: seq<Chat>, folders: seq<ChatFolder>, current: string,
                                        chatId: string, newId: string, now: nat, enterpriseMode: bool)
    requires NoDangling(chats, folders)
    ensures NoDangling(DeleteChatOutcome(chats, current, chatId, newId, now, enterpriseMode).chats, folders)
  {
    DeleteChatKeepsNoDangling(chats, folders, chatId);
  }

  /** Moving a chat into a folder that exists keeps every reference valid. */
  lemma MoveKeepsNoDangling(chats: seq<Chat>, folders: seq<ChatFolder>, chatId: string, folderId: string)
    requires NoDangling(chats, folders) && HasFolder(folders, folderId)
    ensures NoDangling(MoveChatToFolder(chats, chatId, folderId), folders)
  {
  }

  /** Taking a chat out of its folder keeps every reference valid. */
  lemma RemoveKeepsNoDangling(chats: seq<Chat>, folders: seq<ChatFolder>, chatId: string)
    requires NoDangling(chats, folders)
    ensures NoDangling(RemoveChatFromFolder(chats, chatId), folders)
  {
  }

  /** Creating a folder only adds targets. */
  lemma CreateKeepsNoDangling(chats: seq<Chat>, folders: seq<ChatFolder>, input: string, id: string, color: string)
    requires NoDangling(chats, folders)
    ensures NoDangling(chats, CreateFolder(folders, input, id, color))
  {
    var fs := CreateFolder(folders, input, id, color);
    forall i | 0 <= i < |chats| ensures !RefersToMissingFolder(chats[i], fs) {
      if Truthy(chats[i].folder) {
        var j :| 0 <= j < |folders| && folders[j].id == chats[i].folder.value;
        assert fs[j] == folders[j];
      }
    }
  }

  /** An update that does not rename the id keeps every reference valid. */
  lemma UpdateKeepsNoDangling(chats: seq<Chat>, folders: seq<ChatFolder>, id: string, p: FolderPatch)
    requires NoDangling(chats, folders) && p.id.None?
    ensures NoDangling(chats, UpdateFolder(folders, id, p))
  {
    var fs := UpdateFolder(folders, id, p);
    forall i | 0 <= i < |chats| ensures !RefersToMissingFolder(chats[i], fs) {
      if Truthy(chats[i].folder) {
        var j :| 0 <= j < |folders| && folders[j].id == chats[i].folder.value;
        assert fs[j].id == folders[j].id;
      }
    }
  }

  /** With no dangling references, some section filter lists every chat. */
  lemma AllListed(chats: seq<Chat>, folders: seq<ChatFolder>)
    requires NoDangling(chats, folders)
    ensures forall i :: 0 <= i < |chats| ==> Listed(chats[i], folders)
  {
    forall i | 0 <= i < |chats| ensures Listed(chats[i], folders) {
      ListedIff(chats[i], folders);
    }
  }

  // ---------------------------------------------------------------------
  // Drop and manual move

  /** The hover marker `handleDragOver` records (App.tsx:1165-1175): the
      folder id, or "unassigned" for the area without one. */
  function HoverTarget(folderId: Option<string>): (r: string)
    ensures r != []
    ensures Truthy(folderId) ==> r == folderId.value
    ensures !Truthy(folderId) ==> r == UnassignedMarker
  {
    if Truthy(folderId) then folderId.value else UnassignedMarker
  }

  /** The chat list after `handleDrop` (App.tsx:1182-1201): with a chat
      being dragged, a drop on a folder moves it there and a drop anywhere
      else takes it out of its folder; with none, nothing changes. */
  function DropChats(chats: seq<Chat>, dragged: Option<string>, target: Option<string>): (r: seq<Chat>)
    ensures |r| == |chats|
  {
    if !Truthy(dragged) then chats
    else if Truthy(target) then MoveChatToFolder(chats, dragged.value, target.value)
    else RemoveChatFromFolder(chats, dragged.value)
  }

  /** What a drop does to each chat: only the dragged chat's folder changes,
      to the target or to none. */
  lemma DropSpec(chats: seq<Chat>, dragged: Option<string>, target: Option<string>)
    ensures var r := DropChats(chats, dragged, target);
      && |r| == |chats|
      && (forall i :: 0 <= i < |chats| && !(Truthy(dragged) && chats[i].id == dragged.value) ==> r[i] == chats[i])
      && (forall i :: 0 <= i < |chats| && Truthy(dragged) && chats[i].id == dragged.value ==>
            r[i] == chats[i].(folder := if Truthy(target) then target else None))
  {
  }

  /** A drop on a listed folder, or off all folders, keeps every reference valid. */
  lemma DropKeepsNoDangling(chats: seq<Chat>, folders: seq<ChatFolder>, dragged: Option<string>, target: Option<string>)
    requires NoDangling(chats, folders)
    requires Truthy(target) ==> HasFolder(folders, target.value)
    ensures NoDangling(DropChats(chats, dragged, target), folders)
  {
    if Truthy(dragged) && Truthy(target) {
      MoveKeepsNoDangling(chats, folders, dragged.value, target.value);
    }
  }

  /** `chatFolders.find(f => f.name.toLowerCase() === name.toLowerCase())`. */
  function FindFolderByName(folders: seq<ChatFolder>, name: string): (r: Option<ChatFolder>)
    ensures r.None? <==> forall i :: 0 <= i < |folders| ==> Lower(folders[i].name) != Lower(name)
    ensures r.Some? ==> exists i :: (0 <= i < |folders| && folders[i] == r.value
      && Lower(r.value.name) == Lower(name)
      && forall j :: 0 <= j < i ==> Lower(folders[j].name) != Lower(name))
  {
    if folders == [] then None
    else if Lower(folders[0].name) == Lower(name) then Some(folders[0])
    else
      var r := FindFolderByName(folders[1..], name);
      assert forall i :: 1 <= i < |folders| ==> folders[i] == folders[1..][i - 1];
      r
  }

  /** The chat list after the move button (App.tsx:1492-1500): a cancelled
      prompt changes nothing; a name matching a folder's case-insensitively
      moves the chat to the first such folder; an otherwise blank answer
      takes the chat out of its folder; any other answer changes nothing. */
  function MoveByName(chats: seq<Chat>, folders: seq<ChatFolder>, chatId: string, answer: Option<string>): (r: seq<Chat>)
    ensures |r| == |chats|
  {
    match answer
    case None => chats
    case Some(name) =>
      match FindFolderByName(folders, name)
      case Some(f) => MoveChatToFolder(chats, chatId, f.id)
      case None => if IsBlank(name) then RemoveChatFromFolder(chats, chatId) else chats
  }

  /** The first folder whose name matches is the one the chat goes to. */
  lemma MoveByNameMatch(chats: seq<Chat>, folders: seq<ChatFolder>, chatId: string, name: string, k: nat)
    requires k < |folders| && Lower(folders[k].name) == Lower(name)
    requires forall j :: 0 <= j < k ==> Lower(folders[j].name) != Lower(name)
    ensures MoveByName(chats, folders, chatId, Some(name)) == MoveChatToFolder(chats, chatId, folders[k].id)
  {
    var f := FindFolderByName(folders, name);
    var i :| 0 <= i < |folders| && folders[i] == f.value
      && forall j :: 0 <= j < i ==> Lower(folders[j].name) != Lower(name);
    assert !(i < k) && !(k < i);
  }

  /** Without a matching folder: a cancelled prompt and a non-blank answer
      change nothing, and a blank answer takes the chat out of its folder. */
  lemma MoveByNameNoMatch(chats: seq<Chat>, folders: seq<ChatFolder>, chatId: string, answer: Option<string>)
    requires answer.Some? ==> forall i :: 0 <= i < |folders| ==> Lower(folders[i].name) != Lower(answer.value)
    ensures answer.None? ==> MoveByName(chats, folders, chatId, answer) == chats
    ensures answer.Some? && IsBlank(answer.value) ==>
      MoveByName(chats, folders, chatId, answer) == RemoveChatFromFolder(chats, chatId)
    ensures answer.Some? && !IsBlank(answer.value) ==> MoveByName(chats, folders, chatId, answer) == chats
  {
  }

  /** Answers that differ only in the case of ASCII letters pick the same folder. */
  lemma {:induction false} FolderNameIgnoresCase(folders: seq<ChatFolder>, a: string, b: string)
    requires SameUpToAsciiCase(a, b)
    ensures FindFolderByName(folders, a) == FindFolderByName(folders, b)
  {
    LowerIgnoresAsciiCase(a, b);
    if folders != [] {
      FolderNameIgnoresCase(folders[1..], a, b);
    }
  }

  /** A move by name never points a chat at a missing folder. */
  lemma MoveByNameKeepsNoDangling(chats: seq<Chat>, folders: seq<ChatFolder>, chatId: string, answer: Option<string>)
    requires NoDangling(chats, folders)
    ensures NoDangling(MoveByName(chats, folders, chatId, answer), folders)
  {
    if answer.Some? {
      var found := FindFolderByName(folders, answer.value);
      if found.Some? {
        var i :| 0 <= i < |folders| && folders[i] == found.value;
        MoveKeepsNoDangling(chats, folders, chatId, found.value.id);
      }
    }
  }
}
