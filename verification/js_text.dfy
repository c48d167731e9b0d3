/** The JavaScript string operations the assistant relies on: `includes`,
    `trim`, `toLowerCase`, `split('\n').length`, `substring`, and the slug
    filter `replace(/[^a-zA-Z]/g, '')`. Strings are sequences of Unicode
    scalar values. */
module JsText {

  /** `part` occurs in `s` starting at offset `k`. */
  predicate SliceAt(s: string, part: string, k: int) {
    0 <= k <= |s| - |part| && s[k..k + |part|] == part
  }

  lemma SliceAtShift(s: string, part: string, k: int)
    requires |s| > 0 && k >= 1
    ensures SliceAt(s, part, k) <==> SliceAt(s[1..], part, k - 1)
  {
    if 0 <= k <= |s| - |part| {
      var x := s[k..k + |part|];
      var y := s[1..][k - 1..k - 1 + |part|];
      forall j | 0 <= j < |x| ensures x[j] == y[j] {
        assert x[j] == s[k + j];
      }
      assert x == y;
    }
  }

  lemma ContainsStep(haystack: string, needle: string)
    requires |haystack| > 0 && !(needle <= haystack)
    ensures (exists i :: SliceAt(haystack, needle, i)) <==> (exists j :: SliceAt(haystack[1..], needle, j))
  {
    if i :| SliceAt(haystack, needle, i) {
      SliceAtShift(haystack, needle, i);
    }
    if j :| SliceAt(haystack[1..], needle, j) {
      SliceAtShift(haystack, needle, j + 1);
    }
  }

  /** `haystack.includes(needle)`: the needle occurs at some offset. */
  function Contains(haystack: string, needle: string): (r: bool)
    ensures r <==> exists i :: SliceAt(haystack, needle, i)
    decreases |haystack|
  {
    if needle <= haystack then
      assert SliceAt(haystack, needle, 0);
      true
    else if |haystack| == 0 then
      false
    else
      ContainsStep(haystack, needle);
      Contains(haystack[1..], needle)
  }

  /** A needle that occurs in a string also occurs in any extension of it. */
  lemma ContainsInPrefix(s: string, t: string, needle: string)
    requires Contains(s, needle)
    ensures Contains(s + t, needle)
  {
    var i :| SliceAt(s, needle, i);
    assert (s + t)[i..i + |needle|] == needle;
    assert SliceAt(s + t, needle, i);
  }

  /** A string contains each of its middle parts. */
  lemma ContainsMiddle(a: string, b: string, c: string)
    ensures Contains(a + b + c, b)
  {
    assert (a + b + c)[|a|..|a| + |b|] == b;
    assert SliceAt(a + b + c, b, |a|);
  }

  /** A string made of three parts starts with the first and ends with the last. */
  lemma Framed(a: string, b: string, c: string)
    ensures a <= a + b + c
    ensures (a + b + c)[|a| + |b|..] == c
  {
    assert (a + b + c)[..|a|] == a;
  }

  /** The characters `String.prototype.trim` removes: the WhiteSpace and
      LineTerminator code points of the ECMAScript standard (section 12.2 and
      12.3 of ECMA-262). */
  predicate IsWhitespace(c: char) {
    c == '\t' || c == '\n' || c == '\U{000B}' || c == '\U{000C}' || c == '\r' || c == ' '
    || c == '\U{00A0}' || c == '\U{1680}' || ('\U{2000}' <= c <= '\U{200A}')
    || c == '\U{2028}' || c == '\U{2029}' || c == '\U{202F}' || c == '\U{205F}'
    || c == '\U{3000}' || c == '\U{FEFF}'
  }

  /** The number of whitespace characters `s` starts with. */
  function LeadingSpace(s: string): (n: nat)
    ensures n <= |s|
    ensures forall i :: 0 <= i < n ==> IsWhitespace(s[i])
    ensures n == |s| || !IsWhitespace(s[n])
  {
    if s != [] && IsWhitespace(s[0]) then
      var m := LeadingSpace(s[1..]);
      assert forall i :: 1 <= i < m + 1 ==> s[i] == s[1..][i - 1];
      m + 1
    else 0
  }

  /** The number of whitespace characters `s` ends with. */
  function TrailingSpace(s: string): (n: nat)
    ensures n <= |s|
    ensures forall i :: |s| - n <= i < |s| ==> IsWhitespace(s[i])
    ensures n == |s| || !IsWhitespace(s[|s| - n - 1])
  {
    if s != [] && IsWhitespace(s[|s| - 1]) then 1 + TrailingSpace(s[..|s| - 1]) else 0
  }

  /** `s.trim()`: what is left of `s` once the whitespace at both ends is
      dropped; it neither starts nor ends with whitespace. */
  function Trim(s: string): (r: string)
    ensures r == [] || (!IsWhitespace(r[0]) && !IsWhitespace(r[|r| - 1]))
    ensures exists k :: (SliceAt(s, r, k)
      && (forall i :: 0 <= i < k ==> IsWhitespace(s[i]))
      && (forall i :: k + |r| <= i < |s| ==> IsWhitespace(s[i])))
  {
    var k := LeadingSpace(s);
    var t := TrailingSpace(s[k..]);
    TrimCut(s, k, t);
    s[k..|s| - t]
  }

  /** Cutting the leading and then the trailing whitespace leaves a middle
      part that starts and ends with something else; only whitespace is cut. */
  lemma TrimCut(s: string, k: nat, t: nat)
    requires k == LeadingSpace(s) && t == TrailingSpace(s[k..])
    ensures k <= |s| - t
    ensures var r := s[k..|s| - t];
      && (r == [] || (!IsWhitespace(r[0]) && !IsWhitespace(r[|r| - 1])))
      && SliceAt(s, r, k)
      && (forall i :: 0 <= i < k ==> IsWhitespace(s[i]))
      && (forall i :: k + |r| <= i < |s| ==> IsWhitespace(s[i]))
  {
    var a := s[k..];
    var r := s[k..|s| - t];
    if r != [] {
      assert r[0] == a[0];
      assert r[|r| - 1] == a[|a| - t - 1];
    }
    forall i | |s| - t <= i < |s| ensures IsWhitespace(s[i]) {
      assert s[i] == a[i - k];
    }
  }

  /** `!s.trim()`: the string is empty after trimming. */
  predicate IsBlank(s: string) {
    Trim(s) == []
  }

  /** A string is blank exactly when every character of it is whitespace. */
  lemma BlankIffAllWhitespace(s: string)
    ensures IsBlank(s) <==> forall i :: 0 <= i < |s| ==> IsWhitespace(s[i])
  {
    var r := Trim(s);
    var k :| (SliceAt(s, r, k)
      && (forall i :: 0 <= i < k ==> IsWhitespace(s[i]))
      && (forall i :: k + |r| <= i < |s| ==> IsWhitespace(s[i])));
    if r != [] {
      assert s[k] == r[0];
    }
  }

  predicate IsAsciiUpper(c: char) { 'A' <= c <= 'Z' }
  predicate IsAsciiLower(c: char) { 'a' <= c <= 'z' }
  predicate IsAsciiLetter(c: char) { IsAsciiUpper(c) || IsAsciiLower(c) }

  /** The ASCII-only lower case of one character: a capital becomes its
      small letter, anything else is kept. */
  function AsciiLower(c: char): (r: char)
    ensures IsAsciiUpper(c) ==> IsAsciiLower(r) && r as int == c as int + 32
    ensures !IsAsciiUpper(c) ==> r == c
  {
    if IsAsciiUpper(c) then (c as int + 32) as char else c
  }

  /** `c.toLowerCase()` for one character, as far as the model needs it: the
      ASCII capitals, LATIN CAPITAL LETTER I WITH DOT ABOVE (which lower-cases
      to `i` followed by COMBINING DOT ABOVE) and KELVIN SIGN (which
      lower-cases to `k`). These are the only characters whose lower case
      contains an ASCII letter; every other character is kept as is. */
  function LowerChar(c: char): (r: string)
    ensures 1 <= |r| <= 2
    ensures forall c' :: c' in r ==> !IsAsciiUpper(c')
    ensures c != '\U{0130}' && c != '\U{212A}' ==> r == [AsciiLower(c)]
    ensures c == '\U{0130}' ==> r[0] == 'i'
    ensures c == '\U{212A}' ==> r == ['k']
  {
    if IsAsciiUpper(c) then [(c as int + 32) as char]
    else if c == '\U{0130}' then ['i', '\U{0307}']
    else if c == '\U{212A}' then ['k']
    else [c]
  }

  /** `s.toLowerCase()`, one character at a time. */
  function Lower(s: string): (r: string)
    ensures forall c :: c in r ==> !IsAsciiUpper(c)
  {
    if s == [] then [] else LowerChar(s[0]) + Lower(s[1..])
  }

  /** Away from the two special characters, lower-casing keeps the length
      and maps every character to its ASCII lower case, in place. */
  lemma {:induction false} LowerPointwise(s: string)
    requires forall i :: 0 <= i < |s| ==> s[i] != '\U{0130}' && s[i] != '\U{212A}'
    ensures |Lower(s)| == |s|
    ensures forall i :: 0 <= i < |s| ==> Lower(s)[i] == AsciiLower(s[i])
  {
    if s != [] {
      LowerPointwise(s[1..]);
      assert Lower(s) == [AsciiLower(s[0])] + Lower(s[1..]);
    }
  }

  /** Two strings that differ at most in the case of ASCII letters. */
  predicate SameUpToAsciiCase(s: string, t: string) {
    |s| == |t| && forall i :: 0 <= i < |s| ==> AsciiLower(s[i]) == AsciiLower(t[i])
  }

  /** Strings that differ only in ASCII case lower-case to the same string. */
  lemma {:induction false} LowerIgnoresAsciiCase(s: string, t: string)
    requires SameUpToAsciiCase(s, t)
    ensures Lower(s) == Lower(t)
  {
    if s != [] {
      assert SameUpToAsciiCase(s[1..], t[1..]) by {
        forall i | 0 <= i < |s| - 1 ensures AsciiLower(s[1..][i]) == AsciiLower(t[1..][i]) {
          assert AsciiLower(s[i + 1]) == AsciiLower(t[i + 1]);
        }
      }
      LowerIgnoresAsciiCase(s[1..], t[1..]);
      assert AsciiLower(s[0]) == AsciiLower(t[0]);
      assert LowerChar(s[0]) == LowerChar(t[0]);
    }
  }

  lemma {:induction false} LowerAppend(s: string, t: string)
    ensures Lower(s + t) == Lower(s) + Lower(t)
  {
    if s != [] {
      assert s + t != [];
      calc {
        Lower(s + t);
        LowerChar((s + t)[0]) + Lower((s + t)[1..]);
        { assert (s + t)[0] == s[0]; assert (s + t)[1..] == s[1..] + t; }
        LowerChar(s[0]) + Lower(s[1..] + t);
        { LowerAppend(s[1..], t); }
        LowerChar(s[0]) + (Lower(s[1..]) + Lower(t));
        LowerChar(s[0]) + Lower(s[1..]) + Lower(t);
      }
    } else {
      assert s + t == t;
    }
  }

  /** `s.replace(/[^a-zA-Z]/g, '')`: keep the ASCII letters, in order. */
  function KeepLetters(s: string): (r: string)
    ensures |r| <= |s|
    ensures forall c :: c in r ==> c in s && IsAsciiLetter(c)
    ensures forall c :: IsAsciiLetter(c) ==> CountChar(r, c) == CountChar(s, c)
  {
    if s == [] then []
    else if IsAsciiLetter(s[0]) then
      var rest := KeepLetters(s[1..]);
      assert ([s[0]] + rest)[1..] == rest;
      [s[0]] + rest
    else KeepLetters(s[1..])
  }

  /** The filter works piece by piece, so the letters keep their order. */
  lemma {:induction false} KeepLettersAppend(s: string, t: string)
    ensures KeepLetters(s + t) == KeepLetters(s) + KeepLetters(t)
  {
    if s == [] {
      assert s + t == t;
    } else {
      assert (s + t)[0] == s[0] && (s + t)[1..] == s[1..] + t;
      KeepLettersAppend(s[1..], t);
    }
  }

  /** A string made only of ASCII letters passes the filter unchanged. */
  lemma {:induction false} KeepLettersOfLetters(s: string)
    requires forall c :: c in s ==> IsAsciiLetter(c)
    ensures KeepLetters(s) == s
  {
    if s != [] {
      KeepLettersOfLetters(s[1..]);
    }
  }

  /** `s.toLowerCase().replace(/[^a-zA-Z]/g, '')`: the function name the
      local responder derives from a request. */
  function Slug(s: string): (r: string)
    ensures forall c :: c in r ==> IsAsciiLower(c)
  {
    KeepLetters(Lower(s))
  }

  /** Slugs concatenate, so a slug keeps the order of the letters. */
  lemma SlugAppend(s: string, t: string)
    ensures Slug(s + t) == Slug(s) + Slug(t)
  {
    LowerAppend(s, t);
    KeepLettersAppend(Lower(s), Lower(t));
  }

  /** The slug of one character: an ASCII letter in lower case, `i` for
      LATIN CAPITAL LETTER I WITH DOT ABOVE, `k` for KELVIN SIGN, and
      nothing for anything else. */
  lemma SlugChar(c: char)
    ensures Slug([c]) == if IsAsciiLetter(c) then [AsciiLower(c)]
      else if c == '\U{0130}' then "i"
      else if c == '\U{212A}' then "k"
      else []
  {
    assert [c][1..] == [] && Lower([]) == [];
    assert Lower([c]) == LowerChar(c) + Lower([]);
    assert LowerChar(c) + [] == LowerChar(c);
    assert Slug([c]) == KeepLetters(LowerChar(c));
    if c == '\U{0130}' {
      var d := ['\U{0307}'];
      assert LowerChar(c) == ['i'] + d;
      assert KeepLetters(d) == KeepLetters(d[1..]) == [];
      assert KeepLetters(['i'] + d) == ['i'] + KeepLetters(d);
    } else {
      var e := LowerChar(c);
      assert e == [e[0]];
      assert KeepLetters(e) == (if IsAsciiLetter(e[0]) then [e[0]] else []) + KeepLetters([]);
    }
  }

  /** Lower-casing or slugging an already slugged string changes nothing. */
  lemma SlugIdempotent(s: string)
    ensures Lower(Slug(s)) == Slug(s)
    ensures Slug(Slug(s)) == Slug(s)
  {
    LowerOfLowercase(Slug(s));
    KeepLettersOfLetters(Slug(s));
  }

  lemma {:induction false} LowerOfLowercase(s: string)
    requires forall c :: c in s ==> IsAsciiLower(c)
    ensures Lower(s) == s
  {
    if s != [] {
      assert s[0] in s;
      assert forall c :: c in s[1..] ==> c in s;
      LowerOfLowercase(s[1..]);
    }
  }

  /** Lower-casing twice is lower-casing once. */
  lemma {:induction false} LowerIdempotent(s: string)
    ensures Lower(Lower(s)) == Lower(s)
  {
    if s != [] {
      LowerIdempotent(s[1..]);
      LowerAppend(LowerChar(s[0]), Lower(s[1..]));
      var h := LowerChar(s[0]);
      assert Lower(h) == h by {
        if |h| == 1 {
          assert h == [h[0]];
          assert Lower([h[0]]) == LowerChar(h[0]) + Lower([]);
        } else {
          assert h == ['i', '\U{0307}'];
          assert Lower(h) == LowerChar('i') + Lower(['\U{0307}']);
        }
      }
    }
  }

  /** `c.toUpperCase()` for ASCII lower-case letters; other characters are kept. */
  function UpperChar(c: char): (r: char)
    ensures IsAsciiLower(c) ==> IsAsciiUpper(r) && r as int == c as int - 32
    ensures !IsAsciiLower(c) ==> r == c
  {
    if IsAsciiLower(c) then (c as int - 32) as char else c
  }

  /** Number of occurrences of `c` in `s`. */
  function CountChar(s: string, c: char): (n: nat)
    ensures n <= |s|
  {
    if s == [] then 0 else (if s[0] == c then 1 else 0) + CountChar(s[1..], c)
  }

  lemma {:induction false} CountCharAppend(s: string, t: string, c: char)
    ensures CountChar(s + t, c) == CountChar(s, c) + CountChar(t, c)
  {
    if s == [] {
      assert s + t == t;
    } else {
      assert (s + t)[0] == s[0] && (s + t)[1..] == s[1..] + t;
      CountCharAppend(s[1..], t, c);
    }
  }

  /** `s.split(sep)` for a one-character separator: the pieces between
      occurrences of `sep`; the empty string splits into one empty piece. */
  function Split(s: string, sep: char): (pieces: seq<string>)
    ensures |pieces| >= 1
    ensures forall k :: 0 <= k < |pieces| ==> sep !in pieces[k]
  {
    if s == [] then [[]]
    else
      var rest := Split(s[1..], sep);
      if s[0] == sep then [[]] + rest
      else [[s[0]] + rest[0]] + rest[1..]
  }

  /** `s.split('\n').length` is one more than the number of line breaks. */
  lemma {:induction false} SplitLength(s: string, sep: char)
    ensures |Split(s, sep)| == CountChar(s, sep) + 1
  {
    if s != [] {
      SplitLength(s[1..], sep);
    }
  }

  /** Gluing the pieces back together with the separator gives the string back. */
  function Join(pieces: seq<string>, sep: char): (s: string)
    requires |pieces| >= 1
  {
    if |pieces| == 1 then pieces[0] else pieces[0] + [sep] + Join(pieces[1..], sep)
  }

  lemma {:induction false} JoinSplit(s: string, sep: char)
    ensures Join(Split(s, sep), sep) == s
  {
    if s != [] {
      JoinSplit(s[1..], sep);
      var rest := Split(s[1..], sep);
      if s[0] != sep {
        if |rest| == 1 {
          assert Join(Split(s, sep), sep) == [s[0]] + rest[0];
        } else {
          assert rest[1..][1..] == rest[2..];
          assert Join(rest, sep) == rest[0] + [sep] + Join(rest[1..], sep);
          assert Join(Split(s, sep), sep) == [s[0]] + rest[0] + [sep] + Join(rest[1..], sep);
        }
      }
    }
  }
}
