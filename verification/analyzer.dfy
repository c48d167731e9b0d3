/** The heuristic analyzer (`analyzeCode`, App.tsx:259-320): fixed substring
    rules that report security and performance findings and best-practice
    advice, and a complexity bucket from the number of lines. */
module Analyzer {
  import opened Wrappers
  import opened JsText
  import opened Rules

  /** `'low' | 'medium' | 'high'`, used both for severities and for complexity. */
  datatype Level = Low | Medium | High

  datatype SecurityKind = SqlInjection | Xss | UnsafeInput | HardcodedSecrets

  datatype PerformanceKind = Algorithm | Memory | Io | Complexity

  datatype SecurityIssue = SecurityIssue(
    kind: SecurityKind, severity: Level, description: string, fix: string, line: Option<nat>)

  datatype PerformanceIssue = PerformanceIssue(
    kind: PerformanceKind, severity: Level, description: string, suggestion: string, line: Option<nat>)

  datatype CodeAnalysis = CodeAnalysis(
    security: seq<SecurityIssue>,
    performance: seq<PerformanceIssue>,
    bestPractices: seq<string>,
    complexity: Level)

  const SqlInjectionIssue := SecurityIssue(SqlInjection, High,
    "Potential SQL injection vulnerability detected",
    "Use parameterized queries or prepared statements", None)

  const XssIssue := SecurityIssue(Xss, Medium,
    "Potential XSS vulnerability detected",
    "Use textContent or proper sanitization", None)

  const IndexedLoopIssue := PerformanceIssue(Algorithm, Low,
    "Consider using forEach or for...of for better readability",
    "Use array.forEach() or for...of loop", None)

  const TimerLeakIssue := PerformanceIssue(Memory, Medium,
    "Potential memory leak with timers",
    "Clear timers when component unmounts", None)

  const VarAdvice := "Use const or let instead of var"

  const StrictEqualityAdvice := "Use strict equality (===) instead of loose equality (==)"

  const IndexedLoopText := "for (let i = 0; i < array.length; i++)"

  /** The rule table, in the order the source evaluates it. */
  const SecurityRules: seq<(Pattern, SecurityIssue)> := [
    (Pattern(["SELECT", "${"], [], ["parameterized"]), SqlInjectionIssue),
    (Pattern([], ["innerHTML", "document.write"], []), XssIssue)
  ]

  const PerformanceRules: seq<(Pattern, PerformanceIssue)> := [
    (Pattern([IndexedLoopText], [], []), IndexedLoopIssue),
    (Pattern(["setTimeout", "setInterval"], [], []), TimerLeakIssue)
  ]

  const BestPracticeRules: seq<(Pattern, string)> := [
    (Pattern(["var "], [], []), VarAdvice),
    (Pattern(["=="], [], ["==="]), StrictEqualityAdvice)
  ]

  /** `code.split('\n').length`. */
  function LineCount(code: string): nat {
    |Split(code, '\n')|
  }

  /** More than 50 lines is high, more than 20 is medium, the rest is low. */
  function ComplexityOf(lines: nat): Level {
    if lines > 50 then High else if lines > 20 then Medium else Low
  }

  /** The analysis as a rule table: what `analyzeCode` is meant to compute. */
  function Analyze(code: string): (a: CodeAnalysis)
    ensures |a.security| <= 2 && |a.performance| <= 2 && |a.bestPractices| <= 2
  {
    CodeAnalysis(
      Fired(SecurityRules, code),
      Fired(PerformanceRules, code),
      Fired(BestPracticeRules, code),
      ComplexityOf(LineCount(code)))
  }

  predicate SqlInjectionSuspected(code: string) {
    Contains(code, "SELECT") && Contains(code, "${") && !Contains(code, "parameterized")
  }

  predicate XssSuspected(code: string) {
    Contains(code, "innerHTML") || Contains(code, "document.write")
  }

  predicate LooseEquality(code: string) {
    Contains(code, "==") && !Contains(code, "===")
  }

  /** Security findings: SQL injection before XSS, each present exactly when its test holds. */
  lemma SecurityFindings(code: string)
    ensures Analyze(code).security
         == (if SqlInjectionSuspected(code) then [SqlInjectionIssue] else [])
          + (if XssSuspected(code) then [XssIssue] else [])
  {
    FiredPair(SecurityRules[0], SecurityRules[1], code);
    assert SecurityRules == [SecurityRules[0], SecurityRules[1]];
    MatchesBothWithout("SELECT", "${", "parameterized", code);
    MatchesEither("innerHTML", "document.write", code);
  }

  /** Performance findings: the indexed loop before the timer pair. */
  lemma PerformanceFindings(code: string)
    ensures Analyze(code).performance
         == (if Contains(code, IndexedLoopText) then [IndexedLoopIssue] else [])
          + (if Contains(code, "setTimeout") && Contains(code, "setInterval") then [TimerLeakIssue] else [])
  {
    FiredPair(PerformanceRules[0], PerformanceRules[1], code);
    assert PerformanceRules == [PerformanceRules[0], PerformanceRules[1]];
    MatchesOne(IndexedLoopText, code);
    MatchesBoth("setTimeout", "setInterval", code);
  }

  /** Best-practice advice: the `var ` advice before the loose-equality advice. */
  lemma BestPracticeFindings(code: string)
    ensures Analyze(code).bestPractices
         == (if Contains(code, "var ") then [VarAdvice] else [])
          + (if LooseEquality(code) then [StrictEqualityAdvice] else [])
  {
    FiredPair(BestPracticeRules[0], BestPracticeRules[1], code);
    assert BestPracticeRules == [BestPracticeRules[0], BestPracticeRules[1]];
    MatchesOne("var ", code);
    MatchesOneWithout("==", "===", code);
  }

  /** A high-severity SQL injection finding is reported exactly when the code
      mentions `SELECT` and `${` but not `parameterized`. */
  lemma SqlInjectionIff(code: string)
    ensures (exists i :: 0 <= i < |Analyze(code).security|
               && Analyze(code).security[i].kind == SqlInjection
               && Analyze(code).security[i].severity == High)
        <==> SqlInjectionSuspected(code)
  {
    SecurityFindings(code);
    var s := Analyze(code).security;
    if SqlInjectionSuspected(code) {
      assert s[0] == SqlInjectionIssue;
    }
  }

  /** The strict-equality advice is given exactly when `==` occurs and `===` does not. */
  lemma StrictEqualityIff(code: string)
    ensures StrictEqualityAdvice in Analyze(code).bestPractices <==> LooseEquality(code)
  {
    BestPracticeFindings(code);
  }

  /** The const/let advice is given exactly when `var ` occurs. */
  lemma VarAdviceIff(code: string)
    ensures VarAdvice in Analyze(code).bestPractices <==> Contains(code, "var ")
  {
    BestPracticeFindings(code);
  }

  /** The complexity bucket as a function of the number of line breaks: one
      more than that number is the line count, and 20 lines is still low
      while 21 is medium. */
  lemma ComplexityBuckets(code: string)
    ensures var lines := CountChar(code, '\n') + 1;
      && (Analyze(code).complexity == High <==> lines > 50)
      && (Analyze(code).complexity == Medium <==> 21 <= lines <= 50)
      && (Analyze(code).complexity == Low <==> lines <= 20)
  {
    SplitLength(code, '\n');
  }

  /** `analyzeCode` as the source writes it: start from an empty analysis and
      push one finding per rule that fires, then bucket the line count. The
      `language` argument is not consulted. */
  method AnalyzeCode(code: string, language: string) returns (analysis: CodeAnalysis)
    ensures analysis == Analyze(code)
  {
    var security := ScanSecurity(code);
    var performance := ScanPerformance(code);
    var bestPractices := ScanBestPractices(code);
    var complexity := Low;

    // Complexity analysis
    var lines := |Split(code, '\n')|;
    if lines > 50 {
      complexity := High;
    } else if lines > 20 {
      complexity := Medium;
    }

    analysis := CodeAnalysis(security, performance, bestPractices, complexity);
  }

  /** The security part of `analyzeCode`. */
  method ScanSecurity(code: string) returns (security: seq<SecurityIssue>)
    ensures security == Analyze(code).security
  {
    security := [];
    if Contains(code, "SELECT") && Contains(code, "${") && !Contains(code, "parameterized") {
      security := security + [SqlInjectionIssue];
    }
    if Contains(code, "innerHTML") || Contains(code, "document.write") {
      security := security + [XssIssue];
    }
    SecurityFindings(code);
  }

  /** The performance part of `analyzeCode`. */
  method ScanPerformance(code: string) returns (performance: seq<PerformanceIssue>)
    ensures performance == Analyze(code).performance
  {
    performance := [];
    if Contains(code, IndexedLoopText) {
      performance := performance + [IndexedLoopIssue];
    }
    if Contains(code, "setTimeout") && Contains(code, "setInterval") {
      performance := performance + [TimerLeakIssue];
    }
    PerformanceFindings(code);
  }

  /** The best-practice part of `analyzeCode`. */
  method ScanBestPractices(code: string) returns (bestPractices: seq<string>)
    ensures bestPractices == Analyze(code).bestPractices
  {
    bestPractices := [];
    if Contains(code, "var ") {
      bestPractices := bestPractices + [VarAdvice];
    }
    if Contains(code, "==") && !Contains(code, "===") {
      bestPractices := bestPractices + [StrictEqualityAdvice];
    }
    BestPracticeFindings(code);
  }
}
