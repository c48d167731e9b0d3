/** The suggestion engine (`generateCodeSuggestions`, App.tsx:383-417): three
    ordered substring rules, each proposing a fixed patch with a fixed
    confidence. Confidences are whole percentages (0.9 is 90). */
module Suggestions {
  import opened JsText
  import opened Rules

  datatype SuggestionKind = Autocomplete | Refactor | Optimization | Security | Test

  datatype CodeSuggestion = CodeSuggestion(
    kind: SuggestionKind, code: string, description: string, confidence: nat)

  const AddReturn := CodeSuggestion(Autocomplete, "return result;", "Add return statement", 90)

  const SimplifyBoolean := CodeSuggestion(Refactor, "if (condition)", "Simplify boolean comparison", 80)

  const UseReduce := CodeSuggestion(Optimization, "array.reduce()", "Use reduce for better performance", 70)

  const BooleanComparisonText := "if (condition === true)"

  const FilterMapText := "array.filter().map()"

  /** The rule table, in the order the source evaluates it. */
  const SuggestionRules: seq<(Pattern, CodeSuggestion)> := [
    (Pattern(["function"], [], ["return"]), AddReturn),
    (Pattern([BooleanComparisonText], [], []), SimplifyBoolean),
    (Pattern([FilterMapText], [], []), UseReduce)
  ]

  /** The suggestions as a rule table: what `generateCodeSuggestions` is meant to compute. */
  function Suggest(code: string): (r: seq<CodeSuggestion>)
    ensures |r| <= 3
    ensures forall s :: s in r ==> s == AddReturn || s == SimplifyBoolean || s == UseReduce
  {
    Fired(SuggestionRules, code)
  }

  predicate MissingReturn(code: string) {
    Contains(code, "function") && !Contains(code, "return")
  }

  /** The suggestions, in rule order, each present exactly when its test holds. */
  lemma SuggestionsInRuleOrder(code: string)
    ensures Suggest(code)
         == (if MissingReturn(code) then [AddReturn] else [])
          + (if Contains(code, BooleanComparisonText) then [SimplifyBoolean] else [])
          + (if Contains(code, FilterMapText) then [UseReduce] else [])
  {
    FiredTriple(SuggestionRules[0], SuggestionRules[1], SuggestionRules[2], code);
    assert SuggestionRules == [SuggestionRules[0], SuggestionRules[1], SuggestionRules[2]];
    MatchesOneWithout("function", "return", code);
    MatchesOne(BooleanComparisonText, code);
    MatchesOne(FilterMapText, code);
  }

  /** At most three suggestions, no kind twice, and confidences strictly
      falling along the list (90, then 80, then 70): rule order is
      confidence order. */
  lemma SuggestionsRanked(code: string)
    ensures |Suggest(code)| <= 3
    ensures forall i, j :: 0 <= i < j < |Suggest(code)| ==>
      Suggest(code)[i].confidence > Suggest(code)[j].confidence
        && Suggest(code)[i].kind != Suggest(code)[j].kind
    ensures forall s :: s in Suggest(code) ==> 70 <= s.confidence <= 90
  {
    SuggestionsInRuleOrder(code);
  }

  /** The return-statement suggestion is offered exactly when the code
      mentions `function` but not `return`, and it then comes first. */
  lemma AutocompleteIff(code: string)
    ensures (exists i :: 0 <= i < |Suggest(code)| && Suggest(code)[i].kind == Autocomplete)
        <==> MissingReturn(code)
    ensures MissingReturn(code) ==> Suggest(code)[0] == AddReturn
  {
    SuggestionsInRuleOrder(code);
  }

  /** `generateCodeSuggestions` as the source writes it: push one suggestion
      per rule that fires. The `language` argument is not consulted. */
  method GenerateCodeSuggestions(code: string, language: string) returns (suggestions: seq<CodeSuggestion>)
    ensures suggestions == Suggest(code)
  {
    suggestions := [];
    // Autocomplete suggestions
    if Contains(code, "function") && !Contains(code, "return") {
      suggestions := suggestions + [AddReturn];
    }
    // Refactoring suggestions
    if Contains(code, BooleanComparisonText) {
      suggestions := suggestions + [SimplifyBoolean];
    }
    // Performance suggestions
    if Contains(code, FilterMapText) {
      suggestions := suggestions + [UseReduce];
    }
    SuggestionsInRuleOrder(code);
  }
}
