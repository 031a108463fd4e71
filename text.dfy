/**
 * String helpers the backend relies on through Python built-ins: `str.lower`, the
 * `in` substring test, `str.split()[0]`, `int()` and `str()` on integers, and the
 * whitespace classes of Python and of JavaScript regular expressions.
 */
module Text {
  import opened Wrappers

  /** Characters for which Python's `str.isspace` holds (what `str.split()` splits on). */
  predicate IsPyWhitespace(c: char) {
    c == ' ' || ('\t' <= c <= '\r') || ('\U{1C}' <= c <= '\U{1F}') || c == '\U{85}' || c == '\U{A0}'
    || c == '\U{1680}' || ('\U{2000}' <= c <= '\U{200A}') || c == '\U{2028}' || c == '\U{2029}'
    || c == '\U{202F}' || c == '\U{205F}' || c == '\U{3000}'
  }

  /** Characters matched by `\s` in a JavaScript regular expression (`\S` is the complement). */
  predicate IsJsWhitespace(c: char) {
    c == ' ' || ('\t' <= c <= '\r') || c == '\U{A0}' || c == '\U{1680}'
    || ('\U{2000}' <= c <= '\U{200A}') || c == '\U{2028}' || c == '\U{2029}'
    || c == '\U{202F}' || c == '\U{205F}' || c == '\U{3000}' || c == '\U{FEFF}'
  }

  function LowerChar(c: char): (r: char)
    ensures 'A' <= c <= 'Z' ==> 'a' <= r <= 'z'
    ensures !('A' <= c <= 'Z') ==> r == c
  {
    if 'A' <= c <= 'Z' then (c as int - 'A' as int + 'a' as int) as char else c
  }

  /** `s.lower()`, restricted to the ASCII letters. */
  function Lower(s: string): (r: string)
    ensures |r| == |s|
    ensures forall i :: 0 <= i < |s| ==> r[i] == LowerChar(s[i])
  {
    seq(|s|, i requires 0 <= i < |s| => LowerChar(s[i]))
  }

  /** Python's `sub in s`, decided by scanning every start position. */
  function Contains(s: string, sub: string): bool
    decreases |s|
  {
    if |sub| > |s| then false
    else if s[..|sub|] == sub then true
    else Contains(s[1..], sub)
  }

  /** `sub` occurs in `s` starting at position `i`. */
  predicate OccursAt(s: string, sub: string, i: int) {
    0 <= i <= |s| - |sub| && s[i..i + |sub|] == sub
  }

  /** `s.endswith(suffix)`. */
  predicate EndsWith(s: string, suffix: string) {
    |suffix| <= |s| && s[|s| - |suffix|..] == suffix
  }

  /** `Contains` holds exactly when `sub` occurs at some position of `s`. */
  lemma {:induction false} ContainsIsOccurrence(s: string, sub: string)
    ensures Contains(s, sub) <==> exists i :: OccursAt(s, sub, i)
    decreases |s|
  {
    if |sub| > |s| {
    } else if s[..|sub|] == sub {
      assert OccursAt(s, sub, 0);
    } else {
      ContainsIsOccurrence(s[1..], sub);
      if Contains(s[1..], sub) {
        var i :| OccursAt(s[1..], sub, i);
        assert s[i + 1..i + 1 + |sub|] == s[1..][i..i + |sub|];
        assert OccursAt(s, sub, i + 1);
      } else {
        forall i | 0 <= i <= |s| - |sub|
          ensures !OccursAt(s, sub, i)
        {
          if i > 0 {
            var t := s[1..];
            var a, b := s[i..i + |sub|], t[i - 1..i - 1 + |sub|];
            assert forall j :: 0 <= j < |sub| ==> a[j] == b[j];
            assert a == b;
            assert !OccursAt(t, sub, i - 1);
          }
        }
      }
    }
  }

  /** `s.split()[0]`: the first maximal run of non-whitespace, or None when `s` is blank (the IndexError case). */
  function FirstToken(s: string): (r: Option<string>)
    ensures r.Some? ==> |r.value| > 0 && forall i :: 0 <= i < |r.value| ==> !IsPyWhitespace(r.value[i])
    ensures r.None? <==> forall i :: 0 <= i < |s| ==> IsPyWhitespace(s[i])
    decreases |s|
  {
    if |s| == 0 then None
    else if IsPyWhitespace(s[0]) then FirstToken(s[1..])
    else Some(TokenPrefix(s))
  }

  /** The longest prefix of `s` without whitespace. */
  function TokenPrefix(s: string): (r: string)
    ensures |r| <= |s| && r == s[..|r|]
    ensures forall i :: 0 <= i < |r| ==> !IsPyWhitespace(r[i])
    ensures |r| == |s| || IsPyWhitespace(s[|r|])
  {
    if |s| == 0 || IsPyWhitespace(s[0]) then "" else [s[0]] + TokenPrefix(s[1..])
  }

  predicate IsDigit(c: char) { '0' <= c <= '9' }

  predicate AllDigits(s: string) { forall i :: 0 <= i < |s| ==> IsDigit(s[i]) }

  /** The value of a string of decimal digits, most significant first. */
  function DigitsValue(s: string): (n: nat)
    requires AllDigits(s)
    decreases |s|
  {
    if |s| == 0 then 0 else DigitsValue(s[..|s| - 1]) * 10 + (s[|s| - 1] as int - '0' as int)
  }

  /**
   * Python's `int(token)` for a token without whitespace: an optional sign and one or more
   * ASCII digits; anything else is the ValueError case, None.
   */
  function ParseInt(tok: string): (r: Option<int>)
    ensures r.Some? ==> |tok| > 0
  {
    if |tok| > 0 && (tok[0] == '-' || tok[0] == '+') then
      var digits := tok[1..];
      if |digits| > 0 && AllDigits(digits) then
        var v: int := DigitsValue(digits);
        Some(if tok[0] == '-' then -v else v)
      else None
    else if |tok| > 0 && AllDigits(tok) then Some(DigitsValue(tok))
    else None
  }

  /** Python's `str(n)` for a natural number: its decimal digits without leading zeros. */
  function NatToString(n: nat): (s: string)
    ensures |s| > 0 && AllDigits(s)
    decreases n
  {
    if n < 10 then [('0' as int + n) as char]
    else NatToString(n / 10) + [('0' as int + n % 10) as char]
  }

  /** Python's `str(n)` for an integer. */
  function IntToString(n: int): (s: string)
    ensures |s| > 0
  {
    if n < 0 then "-" + NatToString(-n) else NatToString(n)
  }

  lemma {:induction false} DigitsValueOfNatToString(n: nat)
    ensures DigitsValue(NatToString(n)) == n
    decreases n
  {
    var s := NatToString(n);
    if n >= 10 {
      DigitsValueOfNatToString(n / 10);
      assert s[..|s| - 1] == NatToString(n / 10);
    }
  }

  /** Printing an integer and parsing it back with `int()` gives the integer again. */
  lemma IntToStringRoundTrip(n: int)
    ensures ParseInt(IntToString(n)) == Some(n)
  {
    if n < 0 {
      SignedDigitsRoundTrip(-n);
    } else {
      UnsignedDigitsRoundTrip(n);
    }
  }

  lemma UnsignedDigitsRoundTrip(n: nat)
    ensures ParseInt(NatToString(n)) == Some(n)
  {
    var s := NatToString(n);
    assert IsDigit(s[0]);
    DigitsValueOfNatToString(n);
  }

  lemma SignedDigitsRoundTrip(n: nat)
    ensures ParseInt("-" + NatToString(n)) == Some(-(n as int))
  {
    var d := NatToString(n);
    var s := "-" + d;
    assert s[0] == '-' && s[1..] == d;
    DigitsValueOfNatToString(n);
  }

  /** A string without upper-case ASCII letters is its own lower-case form. */
  lemma LowerOfLowerCase(s: string)
    requires forall i :: 0 <= i < |s| ==> !('A' <= s[i] <= 'Z')
    ensures Lower(s) == s
  {
  }

  /** A lower-case letter absent from `s` in both cases is absent from `Lower(s)`. */
  lemma LowerMissingChar(s: string, c: char)
    requires 'a' <= c <= 'z' && c !in s && (c as int - 32) as char !in s
    ensures c !in Lower(s)
  {
    forall i | 0 <= i < |s|
      ensures Lower(s)[i] != c
    {
      assert s[i] != c && s[i] != (c as int - 32) as char;
    }
  }

  /** A substring with a character that `s` lacks does not occur in `s`. */
  lemma MissingCharNotContained(s: string, sub: string, c: char)
    requires c in sub && c !in s
    ensures !Contains(s, sub)
  {
    ContainsIsOccurrence(s, sub);
  }

  /** A substring found at some position is contained. */
  lemma OccurrenceContained(s: string, sub: string, i: int)
    requires OccursAt(s, sub, i)
    ensures Contains(s, sub)
  {
    ContainsIsOccurrence(s, sub);
  }

  /** `(w + rest).split()[0] == w` for a non-empty string of digits followed by a space. */
  lemma FirstTokenOfDigits(w: string, rest: string)
    requires |w| > 0 && AllDigits(w) && |rest| > 0 && rest[0] == ' '
    ensures FirstToken(w + rest) == Some(w)
  {
    forall i | 0 <= i < |w|
      ensures !IsPyWhitespace(w[i])
    {
      assert IsDigit(w[i]);
    }
    FirstTokenOfWord(w, rest);
  }

  /** Digits followed by a text without upper-case ASCII letters are their own lower-case form. */
  lemma LowerOfDigitsThen(w: string, rest: string)
    requires AllDigits(w) && forall i :: 0 <= i < |rest| ==> !('A' <= rest[i] <= 'Z')
    ensures Lower(w + rest) == w + rest
  {
    var s := w + rest;
    forall i | 0 <= i < |s|
      ensures !('A' <= s[i] <= 'Z')
    {
      if i < |w| {
        assert s[i] == w[i] && IsDigit(w[i]);
      } else {
        assert s[i] == rest[i - |w|];
      }
    }
    LowerOfLowerCase(s);
  }

  /** A word found at position `k` of `rest` is contained in `w + rest`. */
  lemma ContainedAfter(w: string, rest: string, sub: string, k: nat)
    requires k + |sub| <= |rest| && rest[k..k + |sub|] == sub
    ensures Contains(w + rest, sub)
  {
    var s := w + rest;
    assert s[|w| + k..|w| + k + |sub|] == rest[k..k + |sub|];
    OccurrenceContained(s, sub, |w| + k);
  }

  /** A substring with a non-digit character that `rest` lacks does not occur in digits followed by `rest`. */
  lemma NotContainedAfterDigits(w: string, rest: string, sub: string, c: char)
    requires AllDigits(w) && !IsDigit(c) && c in sub && c !in rest
    ensures !Contains(w + rest, sub)
  {
    var s := w + rest;
    forall i | 0 <= i < |s|
      ensures s[i] != c
    {
      if i < |w| {
        assert s[i] == w[i] && IsDigit(w[i]);
      } else {
        assert s[i] == rest[i - |w|];
      }
    }
    MissingCharNotContained(s, sub, c);
  }

  /** The token prefix of a word followed by whitespace is the word. */
  lemma {:induction false} TokenPrefixOfWord(w: string, rest: string)
    requires forall i :: 0 <= i < |w| ==> !IsPyWhitespace(w[i])
    requires |rest| > 0 && IsPyWhitespace(rest[0])
    ensures TokenPrefix(w + rest) == w
    decreases |w|
  {
    if |w| == 0 {
      assert w + rest == rest;
    } else {
      assert (w + rest)[1..] == w[1..] + rest;
      TokenPrefixOfWord(w[1..], rest);
    }
  }

  /** `(w + rest).split()[0] == w` for a non-empty word `w` followed by whitespace. */
  lemma FirstTokenOfWord(w: string, rest: string)
    requires |w| > 0 && forall i :: 0 <= i < |w| ==> !IsPyWhitespace(w[i])
    requires |rest| > 0 && IsPyWhitespace(rest[0])
    ensures FirstToken(w + rest) == Some(w)
  {
    assert (w + rest)[0] == w[0];
    TokenPrefixOfWord(w, rest);
  }
}
