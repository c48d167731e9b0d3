/** The code editor beside the chat (App.tsx:419-490): the prompt a
    template fills in, the code the split view opens with, and a
    suggestion applied to the editor text. */
module Editor {
  import opened Wrappers
  import opened JsText
  import opened Analyzer
  import opened Suggestions
  import opened ChatStore

  const Fence := "```"

  /** What precedes the quoted editor text: the prompt, a heading and the
      opening fence with the language. */
  function CodeHeading(prompt: string, language: string): string {
    prompt + "\n\nCode to analyze:\n" + Fence + language + "\n"
  }

  /** What follows the quoted editor text: the closing fence on its own line. */
  const ClosingFence := "\n" + Fence

  /** The input `handlePromptTemplate` writes (App.tsx:419-426): the
      template's prompt alone when the editor is blank, else the prompt
      followed by the editor text fenced as code in the selected language. */
  function EnhancedPrompt(prompt: string, language: string, code: string): (r: string)
    ensures prompt <= r
  {
    if IsBlank(code) then prompt
    else CodeHeading(prompt, language) + code + ClosingFence
  }

  /** The prompt always comes first; a non-blank editor text is quoted in
      full, untrimmed, and closes the fence. */
  lemma EnhancedPromptShape(prompt: string, language: string, code: string)
    ensures IsBlank(code) ==> EnhancedPrompt(prompt, language, code) == prompt
    ensures !IsBlank(code) ==>
      var r := EnhancedPrompt(prompt, language, code);
      && prompt <= r
      && Contains(r, code)
      && |r| >= 4 && r[|r| - 4..] == "\n" + Fence
  {
    if !IsBlank(code) {
      var head := CodeHeading(prompt, language);
      ContainsMiddle(head, code, ClosingFence);
      Framed(head, code, ClosingFence);
      Framed(prompt, "\n\nCode to analyze:\n" + Fence + language, "\n");
      assert prompt <= head;
    }
  }

  /** The code of `messages.filter(m => m.code).pop()` (App.tsx:433-441):
      the last message whose code is present and not empty. */
  function LastCode(messages: seq<Message>): (r: Option<string>)
    ensures r.None? <==> forall i :: 0 <= i < |messages| ==> !Truthy(messages[i].code)
    ensures r.Some? ==> r.value != [] && exists i :: (0 <= i < |messages| && messages[i].code == r
      && forall j :: i < j < |messages| ==> !Truthy(messages[j].code))
  {
    if messages == [] then None
    else
      var last := messages[|messages| - 1];
      if Truthy(last.code) then last.code
      else
        var r := LastCode(messages[..|messages| - 1]);
        LastCodeSkipsLast(messages, r);
        r
  }

  /** A last message without code changes nothing about which earlier
      message holds the last code. */
  lemma LastCodeSkipsLast(messages: seq<Message>, r: Option<string>)
    requires messages != [] && !Truthy(messages[|messages| - 1].code)
    requires var p := messages[..|messages| - 1];
      && (r.None? <==> forall i :: 0 <= i < |p| ==> !Truthy(p[i].code))
      && (r.Some? ==> r.value != [] && exists i :: (0 <= i < |p| && p[i].code == r
           && forall j :: i < j < |p| ==> !Truthy(p[j].code)))
    ensures r.None? <==> forall i :: 0 <= i < |messages| ==> !Truthy(messages[i].code)
    ensures r.Some? ==> r.value != [] && exists i :: (0 <= i < |messages| && messages[i].code == r
      && forall j :: i < j < |messages| ==> !Truthy(messages[j].code))
  {
    var p := messages[..|messages| - 1];
    assert forall i :: 0 <= i < |p| ==> messages[i] == p[i];
    if r.Some? {
      var i :| 0 <= i < |p| && p[i].code == r && forall j :: i < j < |p| ==> !Truthy(p[j].code);
      assert messages[i].code == r;
    }
  }

  /** The editor text after `applySuggestion` (App.tsx:487-490). */
  function WithSuggestion(text: string, s: CodeSuggestion): (r: string)
    ensures text <= r && |r| == |text| + 1 + |s.code|
  {
    text + "\n" + s.code
  }

  /** Applying a suggestion keeps the text, puts the suggested code on new
      lines at the end, and adds exactly the suggestion's lines to the
      line count the analyzer buckets. */
  lemma {:induction false} WithSuggestionShape(text: string, s: CodeSuggestion)
    ensures var r := WithSuggestion(text, s);
      && text <= r
      && r[|text| + 1..] == s.code
      && r[|text|] == '\n'
      && LineCount(r) == LineCount(text) + LineCount(s.code)
  {
    var r := WithSuggestion(text, s);
    CountCharAppend(text, "\n", '\n');
    CountCharAppend(text + "\n", s.code, '\n');
    assert CountChar("\n", '\n') == 1;
    SplitLength(r, '\n');
    SplitLength(text, '\n');
    SplitLength(s.code, '\n');
  }
}
