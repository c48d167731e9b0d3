/** The message pipeline of `handleSendMessage` (App.tsx:554-735) without
    the network: which responder answers a message, the local simulator's
    keyword test and sample code (App.tsx:698-790), and the assistant
    message each responder appends. A remote provider's answer is a
    parameter: its text, or the reason it failed. */
module Pipeline {
  import opened Wrappers
  import opened JsText
  import opened Analyzer
  import opened ChatStore
  import opened Texts

  /** The key value treated as "no key" (App.tsx:232, 639). */
  const ApiKeyPlaceholder := "your_openai_api_key_here"

  /** The enterprise ChatGPT 4.1 call (App.tsx:577-636), the demo GPT-4 call
      (App.tsx:639-695) and the offline simulator (App.tsx:696-731). */
  datatype Responder = EnterpriseProvider | DemoProvider | LocalSimulator

  /** The branch `handleSendMessage` takes. A key is present when it is not
      empty; the enterprise branch does not look at the placeholder. */
  function ChooseResponder(enterpriseMode: bool, apiKey: string, acceptedTerms: bool): (r: Responder)
    ensures r == EnterpriseProvider ==> enterpriseMode && acceptedTerms
    ensures apiKey == "" ==> r == LocalSimulator
    ensures r == DemoProvider ==> apiKey != ApiKeyPlaceholder
  {
    if enterpriseMode && apiKey != "" && acceptedTerms then EnterpriseProvider
    else if apiKey != "" && apiKey != ApiKeyPlaceholder then DemoProvider
    else LocalSimulator
  }

  /** Each responder is chosen exactly under its condition. */
  lemma ResponderCases(enterpriseMode: bool, apiKey: string, acceptedTerms: bool)
    ensures var r := ChooseResponder(enterpriseMode, apiKey, acceptedTerms);
      && (r == EnterpriseProvider <==> enterpriseMode && apiKey != "" && acceptedTerms)
      && (r == DemoProvider <==>
            !(enterpriseMode && acceptedTerms) && apiKey != "" && apiKey != ApiKeyPlaceholder)
      && (r == LocalSimulator <==>
            apiKey == "" || (apiKey == ApiKeyPlaceholder && !(enterpriseMode && acceptedTerms)))
  {
  }

  /** With the terms not accepted the enterprise provider is never chosen
      (App.tsx:577); the branch falls through to the demo test (App.tsx:639).
      The page disables both send controls in that state (App.tsx:2047,
      2106), so from the page this case is not reached at all. */
  lemma TermsGateEnterprise(apiKey: string)
    ensures ChooseResponder(true, apiKey, false) != EnterpriseProvider
    ensures apiKey != "" && apiKey != ApiKeyPlaceholder ==> ChooseResponder(true, apiKey, false) == DemoProvider
  {
  }

  // ---------------------------------------------------------------------
  // The local simulator

  const CodeKeywords: seq<string> := ["code", "function", "algorithm", "write"]

  /** `isCodeRequest` (App.tsx:699-702): the lower-cased input mentions one
      of the four keywords. */
  predicate IsCodeRequest(input: string)
    ensures IsCodeRequest(input) <==>
      var t := Lower(input);
      Contains(t, "code") || Contains(t, "function") || Contains(t, "algorithm") || Contains(t, "write")
  {
    assert CodeKeywords[0] == "code" && CodeKeywords[1] == "function";
    assert CodeKeywords[2] == "algorithm" && CodeKeywords[3] == "write";
    exists k :: 0 <= k < |CodeKeywords| && Contains(Lower(input), CodeKeywords[k])
  }

  /** The keyword test ignores case. */
  lemma CodeRequestIgnoresCase(input: string)
    ensures IsCodeRequest(Lower(input)) <==> IsCodeRequest(input)
  {
    LowerIdempotent(input);
  }

  /** Requests that differ only in the case of ASCII letters are both code
      requests or neither. */
  lemma CodeRequestCaseInsensitive(a: string, b: string)
    requires SameUpToAsciiCase(a, b)
    ensures IsCodeRequest(a) <==> IsCodeRequest(b)
  {
    LowerIgnoresAsciiCase(a, b);
  }

  /** A request mentioning a keyword, in lower case, is a code request
      whatever follows it. */
  lemma CodeRequestByKeyword(input: string, k: nat, rest: string)
    requires k < |CodeKeywords| && Contains(Lower(input), CodeKeywords[k])
    ensures IsCodeRequest(input + rest)
  {
    LowerAppend(input, rest);
    ContainsInPrefix(Lower(input), Lower(rest), CodeKeywords[k]);
  }

  /** `request.charAt(0).toUpperCase() + request.slice(1).toLowerCase().replace(/[^a-zA-Z]/g, '')`:
      the type name of the TypeScript sample. The first character is
      upper-cased but not filtered. */
  function TypeName(request: string): (r: string)
    ensures r == [] <==> request == []
    ensures r != [] ==> r[0] == UpperChar(request[0]) && forall c :: c in r[1..] ==> IsAsciiLower(c)
    ensures r != [] ==> r[1..] == Slug(request[1..])
  {
    if request == [] then [] else [UpperChar(request[0])] + Slug(request[1..])
  }

  /** The `console.log` greeting every sample carries. */
  function Greeting(language: string): string {
    "Hello from " + language + "!"
  }

  const JsOpen :=
    "() {\n" +
    "  // TODO: Implement your logic " +
    "here\n" +
    "  console.log(\""
  const JsBody :=
    "\");\n" +
    "  \n" +
    "  // Example implementation\n" +
    "  return {\n" +
    "    success: true,\n" +
    "    message: \"Function executed " +
    "successfully\"\n" +
    "  };\n" +
    "}\n" +
    "\n" +
    "// Usage\n" +
    "const result = "
  const JsTail :=
    "();\n" +
    "console.log(result);"

  const PyOpen :=
    "():\n" +
    "    \"\"\"\n" +
    "    TODO: Add your function " +
    "description here\n" +
    "    \"\"\"\n" +
    "    # Example implementation\n" +
    "    print(\""
  const PyBody :=
    "\")\n" +
    "    \n" +
    "    return {\n" +
    "        \"success\": True,\n" +
    "        \"message\": \"Function " +
    "executed successfully\"\n" +
    "    }\n" +
    "\n" +
    "# Usage\n" +
    "if __name__ == \"__main__\":\n" +
    "    result = "
  const PyTail :=
    "()\n" +
    "    print(result)"

  const TsInterface :=
    "Result {\n" +
    "  success: boolean;\n" +
    "  message: string;\n" +
    "}\n" +
    "\n" +
    "function "
  const TsOpen :=
    "Result {\n" +
    "  // TODO: Implement your logic " +
    "here\n" +
    "  console.log(\""
  const TsBody :=
    "\");\n" +
    "  \n" +
    "  return {\n" +
    "    success: true,\n" +
    "    message: \"Function executed " +
    "successfully\"\n" +
    "  };\n" +
    "}\n" +
    "\n" +
    "// Usage\n" +
    "const result: "

  /** A template with its greeting `g` between the text `p` after the
      declared name `head` and the rest `q`. */
  function Fill(head: string, p: string, g: string, q: string): string {
    head + p + g + q
  }

  /** A template filled in starts with its head and contains its greeting. */
  lemma Filled(head: string, p: string, g: string, q: string)
    ensures head <= Fill(head, p, g, q)
    ensures Contains(Fill(head, p, g, q), g)
  {
    ContainsMiddle(head + p, g, q);
  }

  /** `generateSampleCode(request, language)` (App.tsx:737-790): the
      JavaScript, Python or TypeScript template around the request's slug;
      any other language gets the JavaScript template, still greeting in
      the requested language. */
  function SampleCode(request: string, language: string): string {
    var name := Slug(request);
    if language == "python" then
      Fill("def " + name, PyOpen, Greeting(language), PyBody + name + PyTail)
    else if language == "typescript" then
      var t := TypeName(request);
      Fill("interface " + t, TsInterface + name + "(): " + t + TsOpen, Greeting(language),
        TsBody + t + "Result = " + name + JsTail)
    else
      Fill("function " + name, JsOpen, Greeting(language), JsBody + name + JsTail)
  }

  /** Every sample declares the slug (or, in TypeScript, the type name)
      first and greets in the requested language. */
  lemma SampleCodeShape(request: string, language: string)
    ensures var code := SampleCode(request, language);
      && |code| > 0
      && (language == "python" ==> "def " + Slug(request) <= code)
      && (language == "typescript" ==> "interface " + TypeName(request) <= code)
      && (language != "python" && language != "typescript" ==> "function " + Slug(request) <= code)
      && Contains(code, Greeting(language))
  {
    var name := Slug(request);
    var g := Greeting(language);
    if language == "python" {
      Filled("def " + name, PyOpen, g, PyBody + name + PyTail);
    } else if language == "typescript" {
      var t := TypeName(request);
      Filled("interface " + t, TsInterface + name + "(): " + t + TsOpen, g,
        TsBody + t + "Result = " + name + JsTail);
    } else {
      Filled("function " + name, JsOpen, g, JsBody + name + JsTail);
    }
  }

  /** Languages without a template get the JavaScript sample, which differs
      from the one for "javascript" only in the language it greets in. */
  lemma UnknownLanguageUsesJavaScript(request: string, language: string)
    requires language != "python" && language != "typescript"
    ensures var before := "function " + Slug(request) + JsOpen;
      var after := JsBody + Slug(request) + JsTail;
      && SampleCode(request, language) == before + Greeting(language) + after
      && SampleCode(request, "javascript") == before + Greeting("javascript") + after
  {
  }

  // ---------------------------------------------------------------------
  // Replies

  /** A send waiting for its reply: the chat current at send time, the
      input as typed, the language selected then, and the responder. */
  datatype PendingReply = PendingReply(chatId: string, input: string, language: string, responder: Responder)

  /** What a remote call produced: the text of the first choice (empty
      when the response carries none), or the error's message. */
  datatype ProviderOutcome = Completed(text: string) | Failed(reason: string)

  const EnterpriseIntro :=
    "Here's your code generated by " +
    "ChatGPT 4.1:\n" +
    "\n"

  const ErrorLabel := " **Error**: "

  const ErrorHint :=
    "\n" +
    "\n" +
    "Please check your API key and " +
    "try again."

  const EchoOpen := "I understand you're asking about: \""

  const FallbackNote :=
    "\"\n" +
    "\n" +
    "This is a fallback response. " +
    "Please check your API key " +
    "configuration."

  const SimulatedNote :=
    "\"\n" +
    "\n" +
    "This is a simulated response. " +
    "Add your API key for real " +
    "ChatGPT 4 responses."

  function EnterpriseError(reason: string): string {
    ErrorMark + ErrorLabel + reason + ErrorHint
  }

  function DemoFallback(input: string): string {
    EchoOpen + input + FallbackNote
  }

  function CodeIntro(language: string): string {
    "I'll help you with that! Here's a " +
    "solution using " + language + ":\n" +
    "\n"
  }

  function SimulatedAnswer(input: string): string {
    EchoOpen + input + SimulatedNote
  }

  /** The simulator's message (App.tsx:704-723): for a code request the
      sample code, both inside the text and as the message's code, with its
      analysis; otherwise a canned answer with empty code and no analysis. */
  function LocalReply(input: string, language: string, id: string, now: nat): (m: Message)
    ensures m.role == Assistant && m.id == id && m.timestamp == now
    ensures m.suggestions == None
  {
    var code := if IsCodeRequest(input) then SampleCode(input, language) else "";
    var content := if IsCodeRequest(input) then CodeIntro(language) + code else SimulatedAnswer(input);
    Message(id, Assistant, content, now, Some(code), Some(language), None,
            if code != "" then Some(Analyze(code)) else None)
  }

  /** The message a provider's outcome turns into (App.tsx:611-617,
      626-630, 670-675, 684-689). */
  function ProviderReply(responder: Responder, input: string, language: string,
                         outcome: ProviderOutcome, id: string, now: nat): (m: Message)
    requires responder != LocalSimulator
    ensures m.role == Assistant && m.id == id && m.timestamp == now
    ensures m.suggestions == None && m.analysis == None
  {
    match (responder, outcome)
    case (EnterpriseProvider, Completed(text)) =>
      Message(id, Assistant, EnterpriseIntro, now, Some(text), Some(language), None, None)
    case (EnterpriseProvider, Failed(reason)) => TextMessage(id, Assistant, EnterpriseError(reason), now)
    case (DemoProvider, Completed(text)) => TextMessage(id, Assistant, text, now)
    case (DemoProvider, Failed(_)) => TextMessage(id, Assistant, DemoFallback(input), now)
  }

  /** The assistant message appended for a pending send. The simulator
      makes no call, so it disregards the outcome. */
  function Reply(p: PendingReply, outcome: ProviderOutcome, id: string, now: nat): (m: Message)
    ensures m.role == Assistant && m.id == id && m.timestamp == now
    ensures p.responder == LocalSimulator ==> m == LocalReply(p.input, p.language, id, now)
    ensures p.responder != LocalSimulator ==> m == ProviderReply(p.responder, p.input, p.language, outcome, id, now)
  {
    if p.responder == LocalSimulator then LocalReply(p.input, p.language, id, now)
    else ProviderReply(p.responder, p.input, p.language, outcome, id, now)
  }

  /** The simulator's message, case by case. */
  lemma LocalReplyShape(input: string, language: string, id: string, now: nat)
    ensures var m := LocalReply(input, language, id, now);
      && m.role == Assistant && m.id == id && m.timestamp == now && m.language == Some(language)
      && (IsCodeRequest(input) ==>
            && m.code == Some(SampleCode(input, language)) && m.code.value != []
            && m.content == CodeIntro(language) + m.code.value
            && m.analysis == Some(Analyze(m.code.value)))
      && (!IsCodeRequest(input) ==>
            m.code == Some("") && m.analysis == None && m.content == SimulatedAnswer(input))
  {
    SampleCodeShape(input, language);
  }

  /** Only the simulator attaches an analysis, exactly for code requests,
      and the analysis is always that of the attached code. No reply
      carries suggestions. */
  lemma AnalysisOnlyForLocalCode(p: PendingReply, outcome: ProviderOutcome, id: string, now: nat)
    ensures var m := Reply(p, outcome, id, now);
      && m.suggestions == None
      && (m.analysis.Some? <==> p.responder == LocalSimulator && IsCodeRequest(p.input))
      && (m.analysis.Some? ==> m.code.Some? && m.analysis.value == Analyze(m.code.value))
  {
    if p.responder == LocalSimulator {
      LocalReplyShape(p.input, p.language, id, now);
    }
  }

  /** A provider's reply: the enterprise one carries the returned text as
      code in the selected language, or the error reason; the demo one
      shows the returned text, or falls back to echoing the input. */
  lemma ProviderReplyShape(p: PendingReply, outcome: ProviderOutcome, id: string, now: nat)
    requires p.responder != LocalSimulator
    ensures var m := Reply(p, outcome, id, now);
      && m.role == Assistant && m.id == id && m.timestamp == now
      && (p.responder == EnterpriseProvider && outcome.Completed? ==>
            m.content == EnterpriseIntro && m.code == Some(outcome.text) && m.language == Some(p.language))
      && (p.responder == EnterpriseProvider && outcome.Failed? ==>
            ErrorMark <= m.content && Contains(m.content, outcome.reason) && m.code == None)
      && (p.responder == DemoProvider && outcome.Completed? ==> m.content == outcome.text && m.code == None)
      && (p.responder == DemoProvider && outcome.Failed? ==>
            Contains(m.content, p.input) && m.code == None)
  {
    if p.responder == EnterpriseProvider && outcome.Failed? {
      ContainsMiddle(ErrorMark + ErrorLabel, outcome.reason, ErrorHint);
    }
    if p.responder == DemoProvider && outcome.Failed? {
      ContainsMiddle(EchoOpen, p.input, FallbackNote);
    }
  }
}
