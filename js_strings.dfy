/**
 * The JavaScript string built-ins the message handler relies on, as pure
 * functions over `seq<char>`, one char per code point: `toLowerCase`, `trim`,
 * `split(' ')[0]` and `replace(/[^a-zA-Z\s]/g, '')`.
 */
module JsStrings {

  /** ECMAScript WhiteSpace and LineTerminator code points: exactly what
      `String.prototype.trim` strips and what the regular-expression class
      `\s` matches. */
  predicate IsWhitespace(c: char) {
    || c == '\t' || c == '\n' || c == '\U{000B}' || c == '\U{000C}' || c == '\r'
    || c == ' ' || c == '\U{00A0}' || c == '\U{1680}'
    || ('\U{2000}' <= c <= '\U{200A}')
    || c == '\U{2028}' || c == '\U{2029}' || c == '\U{202F}' || c == '\U{205F}'
    || c == '\U{3000}' || c == '\U{FEFF}'
  }

  predicate IsAsciiLetter(c: char) {
    ('a' <= c <= 'z') || ('A' <= c <= 'Z')
  }

  predicate IsAsciiUpper(c: char) {
    'A' <= c <= 'Z'
  }

  /** `toLowerCase` on one character, for the Basic Latin and Latin-1
      upper-case letters (A-Z and U+00C0..U+00DE except the sign U+00D7);
      every other character is left as it is. */
  function LowerChar(c: char): (l: char)
    ensures !IsAsciiUpper(l)
    ensures IsAsciiLetter(c) <==> IsAsciiLetter(l)
    ensures IsWhitespace(c) ==> l == c
  {
    if 'A' <= c <= 'Z' then (c as int + 32) as char
    else if '\U{00C0}' <= c <= '\U{00DE}' && c != '\U{00D7}' then (c as int + 32) as char
    else c
  }

  lemma LowerCharIdempotent(c: char)
    ensures LowerChar(LowerChar(c)) == LowerChar(c)
  {
  }

  /** `s.toLowerCase()`. */
  function ToLower(s: string): (r: string)
    ensures |r| == |s|
    ensures forall i :: 0 <= i < |s| ==> r[i] == LowerChar(s[i])
  {
    seq(|s|, i requires 0 <= i < |s| => LowerChar(s[i]))
  }

  /** A string whose characters `toLowerCase` leaves unchanged. */
  predicate IsLowerCased(s: string) {
    forall i :: 0 <= i < |s| ==> LowerChar(s[i]) == s[i]
  }

  lemma ToLowerIsLowerCased(s: string)
    ensures IsLowerCased(ToLower(s))
  {
    forall i | 0 <= i < |s| ensures LowerChar(ToLower(s)[i]) == ToLower(s)[i] {
      LowerCharIdempotent(s[i]);
    }
  }

  lemma LowerCasedSlice(s: string, i: nat, j: nat)
    requires IsLowerCased(s) && i <= j <= |s|
    ensures IsLowerCased(s[i..j])
  {
    assert forall k :: 0 <= k < j - i ==> s[i..j][k] == s[i + k];
  }

  predicate AllWhitespace(s: string) {
    forall i :: 0 <= i < |s| ==> IsWhitespace(s[i])
  }

  /** `toLowerCase` leaves whitespace alone and distributes over `+`. */
  lemma {:induction false} ToLowerConcat(s: string, t: string)
    ensures ToLower(s + t) == ToLower(s) + ToLower(t)
  {
    assert forall i :: 0 <= i < |s + t| ==> ToLower(s + t)[i] == (ToLower(s) + ToLower(t))[i];
  }

  /** Strips the leading whitespace. */
  function TrimStart(s: string): string {
    if s != [] && IsWhitespace(s[0]) then TrimStart(s[1..]) else s
  }

  /** `TrimStart` keeps the longest suffix of `s` that does not start with
      whitespace: what it drops is all whitespace. */
  lemma {:induction false} TrimStartShape(s: string)
    ensures var r := TrimStart(s);
      && |r| <= |s| && r == s[|s| - |r|..]
      && (r == [] || !IsWhitespace(r[0]))
      && AllWhitespace(s[..|s| - |r|])
  {
    if s != [] && IsWhitespace(s[0]) {
      var t := s[1..];
      TrimStartShape(t);
      var r := TrimStart(t);
      assert TrimStart(s) == r;
      assert t[|t| - |r|..] == s[|s| - |r|..];
      var dropped := s[..|s| - |r|];
      var rest := t[..|t| - |r|];
      assert AllWhitespace(rest);
      forall i | 0 <= i < |dropped| ensures IsWhitespace(dropped[i]) {
        if i > 0 {
          assert dropped[i] == rest[i - 1];
        }
      }
    }
  }

  /** Strips the trailing whitespace. */
  function TrimEnd(s: string): string {
    if s != [] && IsWhitespace(s[|s| - 1]) then TrimEnd(s[..|s| - 1]) else s
  }

  /** `TrimEnd` keeps the longest prefix of `s` that does not end with
      whitespace: what it drops is all whitespace. */
  lemma {:induction false} TrimEndShape(s: string)
    ensures var r := TrimEnd(s);
      && |r| <= |s| && r == s[..|r|]
      && (r == [] || !IsWhitespace(r[|r| - 1]))
      && AllWhitespace(s[|r|..])
  {
    if s != [] && IsWhitespace(s[|s| - 1]) {
      var r := TrimEnd(s[..|s| - 1]);
      TrimEndShape(s[..|s| - 1]);
      assert s[..|s| - 1][|r|..] == s[|r|..|s| - 1];
      forall i | 0 <= i < |s| - |r| ensures IsWhitespace(s[|r|..][i]) {
        if i < |s| - |r| - 1 {
          assert s[|r|..][i] == s[|r|..|s| - 1][i];
        }
      }
    }
  }

  /** `s.trim()`: whitespace dropped at both ends. */
  function Trim(s: string): string {
    TrimEnd(TrimStart(s))
  }

  /** What `trim` leaves is a slice of its input that neither starts nor
      ends with whitespace. */
  lemma TrimShape(s: string)
    ensures var r := Trim(s);
      && |r| <= |s|
      && |TrimStart(s)| <= |s| && |r| <= |TrimStart(s)|
      && r == s[|s| - |TrimStart(s)|..][..|r|]
      && (r == [] || (!IsWhitespace(r[0]) && !IsWhitespace(r[|r| - 1])))
  {
    var t := TrimStart(s);
    TrimStartShape(s);
    TrimEndShape(t);
    var r := TrimEnd(t);
    if r != [] {
      assert r[0] == t[0];
    }
  }

  lemma {:induction false} TrimStartPadded(w: string, t: string)
    requires AllWhitespace(w)
    requires t == [] || !IsWhitespace(t[0])
    ensures TrimStart(w + t) == t
  {
    if w != [] {
      assert (w + t)[1..] == w[1..] + t;
      TrimStartPadded(w[1..], t);
    } else {
      assert w + t == t;
    }
  }

  lemma {:induction false} TrimEndPadded(t: string, w: string)
    requires AllWhitespace(w)
    requires t == [] || !IsWhitespace(t[|t| - 1])
    ensures TrimEnd(t + w) == t
  {
    if w != [] {
      assert (t + w)[..|t + w| - 1] == t + w[..|w| - 1];
      TrimEndPadded(t, w[..|w| - 1]);
    } else {
      assert t + w == t;
    }
  }

  lemma TrimKeepsLowerCased(s: string)
    requires IsLowerCased(s)
    ensures IsLowerCased(Trim(s))
  {
    var t := TrimStart(s);
    TrimStartShape(s);
    TrimEndShape(t);
    LowerCasedSlice(s, |s| - |t|, |s|);
    LowerCasedSlice(t, 0, |TrimEnd(t)|);
  }

  /** `trim` removes exactly the whitespace padding around a core that
      neither starts nor ends with whitespace. */
  lemma {:induction false} TrimPadded(w1: string, t: string, w2: string)
    requires AllWhitespace(w1) && AllWhitespace(w2)
    requires t == [] || (!IsWhitespace(t[0]) && !IsWhitespace(t[|t| - 1]))
    ensures Trim(w1 + t + w2) == t
  {
    assert w1 + t + w2 == w1 + (t + w2);
    if t == [] {
      assert t + w2 == w2;
      TrimStartPadded(w1 + w2, []);
      assert w1 + w2 + [] == w1 + w2;
      assert AllWhitespace(w1 + w2);
    } else {
      TrimStartPadded(w1, t + w2);
      TrimEndPadded(t, w2);
    }
  }

  /** `s.split(' ')[0]`: the text before the first U+0020 space, or all of
      `s` when it has none. Only U+0020 separates; tabs and other
      whitespace stay in the token. */
  function FirstToken(s: string): string {
    if s == [] || s[0] == ' ' then [] else [s[0]] + FirstToken(s[1..])
  }

  /** The token is a prefix without spaces, cut at the first space. */
  lemma {:induction false} FirstTokenShape(s: string)
    ensures var r := FirstToken(s);
      r <= s && ' ' !in r && (|r| < |s| ==> s[|r|] == ' ')
  {
    if s != [] && s[0] != ' ' {
      FirstTokenShape(s[1..]);
      var t := FirstToken(s[1..]);
      assert FirstToken(s) == [s[0]] + t;
      assert s == [s[0]] + s[1..];
    }
  }

  /** The characters that `/[^a-zA-Z\s]/g` does not match. */
  predicate KeptByNameFilter(c: char) {
    IsAsciiLetter(c) || IsWhitespace(c)
  }

  /** `s.replace(/[^a-zA-Z\s]/g, '')`: `s` with every character outside
      `a-zA-Z` and `\s` deleted, the rest kept in order. */
  function StripNonLetters(s: string): (r: string)
    ensures |r| <= |s|
  {
    if s == [] then []
    else if KeptByNameFilter(s[0]) then [s[0]] + StripNonLetters(s[1..])
    else StripNonLetters(s[1..])
  }

  /** Every character left is kept by the filter and comes from `s`. */
  lemma {:induction false} StripNonLettersShape(s: string)
    ensures forall i :: 0 <= i < |StripNonLetters(s)| ==> KeptByNameFilter(StripNonLetters(s)[i])
    ensures forall i :: 0 <= i < |StripNonLetters(s)| ==> StripNonLetters(s)[i] in s
  {
    if s != [] {
      StripNonLettersShape(s[1..]);
      var t := StripNonLetters(s[1..]);
      var r := StripNonLetters(s);
      forall i | 0 <= i < |r| ensures KeptByNameFilter(r[i]) && r[i] in s {
        if KeptByNameFilter(s[0]) {
          assert r == [s[0]] + t;
        }
        if !KeptByNameFilter(s[0]) || i > 0 {
          var j := if KeptByNameFilter(s[0]) then i - 1 else i;
          assert r[i] == t[j];
          assert t[j] in s[1..];
        }
      }
    }
  }

  lemma {:induction false} StripNonLettersConcat(s: string, t: string)
    ensures StripNonLetters(s + t) == StripNonLetters(s) + StripNonLetters(t)
  {
    if s == [] {
      assert s + t == t;
    } else {
      assert (s + t)[1..] == s[1..] + t;
      StripNonLettersConcat(s[1..], t);
    }
  }

  /** The filter deletes nothing from a string that holds only kept
      characters, and only such strings are left unchanged. */
  lemma {:induction false} StripNonLettersFixpoint(s: string)
    ensures StripNonLetters(s) == s <==> forall i :: 0 <= i < |s| ==> KeptByNameFilter(s[i])
  {
    if s != [] {
      StripNonLettersFixpoint(s[1..]);
      if !KeptByNameFilter(s[0]) {
        assert |StripNonLetters(s)| < |s|;
      }
    }
  }

  lemma StripNonLettersIdempotent(s: string)
    ensures StripNonLetters(StripNonLetters(s)) == StripNonLetters(s)
  {
    StripNonLettersFixpoint(StripNonLetters(s));
  }
}
