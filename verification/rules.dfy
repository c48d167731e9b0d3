/** The rule-table shape shared by the code analyzer and the suggestion
    engine: each rule is a substring pattern paired with the finding it
    produces, and the findings of a table are those of its matching rules,
    in table order. */
module Rules {
  import opened JsText

  /** A pattern matches when every `required` text occurs, at least one
      `anyOf` text occurs (when any are listed) and no `forbidden` text
      occurs. */
  datatype Pattern = Pattern(required: seq<string>, anyOf: seq<string>, forbidden: seq<string>)

  predicate Matches(p: Pattern, code: string) {
    && (forall t :: t in p.required ==> Contains(code, t))
    && (p.anyOf == [] || exists t :: t in p.anyOf && Contains(code, t))
    && (forall t :: t in p.forbidden ==> !Contains(code, t))
  }

  /** The findings of the rules whose pattern matches `code`, in rule order. */
  function Fired<T>(rules: seq<(Pattern, T)>, code: string): (findings: seq<T>)
    ensures |findings| <= |rules|
    ensures forall f :: f in findings ==> exists i :: 0 <= i < |rules| && rules[i].1 == f && Matches(rules[i].0, code)
  {
    if rules == [] then []
    else
      var rest := Fired(rules[1..], code);
      assert forall i :: 0 <= i < |rules| - 1 ==> rules[1..][i] == rules[i + 1];
      (if Matches(rules[0].0, code) then [rules[0].1] else []) + rest
  }

  /** A table with two rules fires the first, the second, both or neither. */
  lemma FiredPair<T>(a: (Pattern, T), b: (Pattern, T), code: string)
    ensures Fired([a, b], code)
         == (if Matches(a.0, code) then [a.1] else []) + (if Matches(b.0, code) then [b.1] else [])
  {
    assert [a, b][1..] == [b];
    assert [b][1..] == [];
  }

  /** The same, for a table with three rules. */
  lemma FiredTriple<T>(a: (Pattern, T), b: (Pattern, T), c: (Pattern, T), code: string)
    ensures Fired([a, b, c], code)
         == (if Matches(a.0, code) then [a.1] else [])
          + (if Matches(b.0, code) then [b.1] else [])
          + (if Matches(c.0, code) then [c.1] else [])
  {
    assert [a, b, c][1..] == [b, c];
    FiredPair(b, c, code);
  }

  lemma MatchesOne(a: string, code: string)
    ensures Matches(Pattern([a], [], []), code) <==> Contains(code, a)
  {
    assert forall t :: t in [a] <==> t == a;
  }

  lemma MatchesBoth(a: string, b: string, code: string)
    ensures Matches(Pattern([a, b], [], []), code) <==> Contains(code, a) && Contains(code, b)
  {
    assert forall t :: t in [a, b] <==> t == a || t == b;
  }

  lemma MatchesEither(a: string, b: string, code: string)
    ensures Matches(Pattern([], [a, b], []), code) <==> Contains(code, a) || Contains(code, b)
  {
    assert forall t :: t in [a, b] <==> t == a || t == b;
  }

  lemma MatchesOneWithout(a: string, c: string, code: string)
    ensures Matches(Pattern([a], [], [c]), code) <==> Contains(code, a) && !Contains(code, c)
  {
    assert forall t :: t in [a] <==> t == a;
    assert forall t :: t in [c] <==> t == c;
  }

  lemma MatchesBothWithout(a: string, b: string, c: string, code: string)
    ensures Matches(Pattern([a, b], [], [c]), code) <==> Contains(code, a) && Contains(code, b) && !Contains(code, c)
  {
    assert forall t :: t in [a, b] <==> t == a || t == b;
    assert forall t :: t in [c] <==> t == c;
  }
}
