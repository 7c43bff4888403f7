/** The JavaScript string operations the validators and the chat box rely on:
    `String.prototype.trim` and `String.prototype.toLowerCase` (the ASCII part). */
module JsText {

  /** The white space and line terminator code points that `trim` removes. */
  predicate IsWhitespace(c: char) {
    || c == ' ' || c == '\t' || c == '\n' || c == '\r'
    || c == '\U{000B}' || c == '\U{000C}' || c == '\U{00A0}' || c == '\U{1680}'
    || ('\U{2000}' <= c <= '\U{200A}')
    || c == '\U{2028}' || c == '\U{2029}' || c == '\U{202F}' || c == '\U{205F}'
    || c == '\U{3000}' || c == '\U{FEFF}'
  }

  /** Drops the leading white space: what is left is a suffix of `s` that starts
      with a non-white-space character, and everything dropped was white space. */
  function TrimStart(s: string): (r: string)
    ensures |r| <= |s| && r == s[|s| - |r|..]
    ensures forall i :: 0 <= i < |s| - |r| ==> IsWhitespace(s[i])
    ensures r != [] ==> !IsWhitespace(r[0])
  {
    if s != [] && IsWhitespace(s[0]) then TrimStart(s[1..]) else s
  }

  /** Drops the trailing white space: what is left is a prefix of `s` that ends
      with a non-white-space character, and everything dropped was white space. */
  function TrimEnd(s: string): (r: string)
    ensures |r| <= |s| && r == s[..|r|]
    ensures forall i :: |r| <= i < |s| ==> IsWhitespace(s[i])
    ensures r != [] ==> !IsWhitespace(r[|r| - 1])
  {
    if s != [] && IsWhitespace(s[|s| - 1]) then TrimEnd(s[..|s| - 1]) else s
  }

  /** `s.trim()`: `s` without its leading and trailing white space; it neither starts nor
      ends with white space, and it is empty exactly when `s` is all white space
      (`TrimSurroundedByWhitespace` shows it is the slice between that white space). */
  function Trim(s: string): (r: string)
    ensures |r| <= |s|
    ensures r != [] ==> !IsWhitespace(r[0]) && !IsWhitespace(r[|r| - 1])
    ensures r == [] <==> forall i :: 0 <= i < |s| ==> IsWhitespace(s[i])
  {
    var t := TrimStart(s);
    var r := TrimEnd(t);
    TrimEmptyIff(s, t, r);
    TrimKeepsEnds(t, r);
    r
  }

  /** A prefix of a string that does not start with white space, ending in a non-white-space
      character, neither starts nor ends with white space. */
  lemma TrimKeepsEnds(t: string, r: string)
    requires t != [] ==> !IsWhitespace(t[0])
    requires |r| <= |t| && r == t[..|r|]
    requires r != [] ==> !IsWhitespace(r[|r| - 1])
    ensures r != [] ==> !IsWhitespace(r[0]) && !IsWhitespace(r[|r| - 1])
  {
    if r != [] {
      assert r[0] == t[0];
    }
  }

  /** `s.trim()` is a slice of `s` with only white space before and after it. */
  lemma TrimSurroundedByWhitespace(s: string)
    ensures exists i, j :: 0 <= i <= j <= |s| && Trim(s) == s[i..j]
                           && (forall k :: 0 <= k < i ==> IsWhitespace(s[k]))
                           && (forall k :: j <= k < |s| ==> IsWhitespace(s[k]))
  {
    var t := TrimStart(s);
    TrimIsSlice(s, t, TrimEnd(t));
  }

  /** Cutting white space off the front and then off the back leaves a slice of `s` with only
      white space around it. */
  lemma {:induction false} TrimIsSlice(s: string, t: string, r: string)
    requires |t| <= |s| && t == s[|s| - |t|..] && forall k :: 0 <= k < |s| - |t| ==> IsWhitespace(s[k])
    requires |r| <= |t| && r == t[..|r|] && forall k :: |r| <= k < |t| ==> IsWhitespace(t[k])
    ensures exists i, j :: 0 <= i <= j <= |s| && r == s[i..j]
                           && (forall k :: 0 <= k < i ==> IsWhitespace(s[k]))
                           && (forall k :: j <= k < |s| ==> IsWhitespace(s[k]))
  {
    var i := |s| - |t|;
    var j := i + |r|;
    assert r == s[i..j];
    forall k | j <= k < |s|
      ensures IsWhitespace(s[k])
    {
      assert s[k] == t[k - i];
    }
  }

  /** Cutting white space off the front and then off the back leaves nothing exactly when
      `s` is all white space. */
  lemma {:induction false} TrimEmptyIff(s: string, t: string, r: string)
    requires |t| <= |s| && t == s[|s| - |t|..] && forall k :: 0 <= k < |s| - |t| ==> IsWhitespace(s[k])
    requires t != [] ==> !IsWhitespace(t[0])
    requires |r| <= |t| && r == t[..|r|] && forall k :: |r| <= k < |t| ==> IsWhitespace(t[k])
    ensures r == [] <==> forall i :: 0 <= i < |s| ==> IsWhitespace(s[i])
  {
    var d := |s| - |t|;
    if t != [] {
      assert t[0] == s[d];
    }
  }

  /** Lower-cases one ASCII upper-case letter; every other character is kept. */
  function LowerChar(c: char): char {
    if 'A' <= c <= 'Z' then (c as int + 32) as char else c
  }

  /** Upper-cases one ASCII lower-case letter; every other character is kept. */
  function UpperChar(c: char): char {
    if 'a' <= c <= 'z' then (c as int - 32) as char else c
  }

  /** `s.toLowerCase()` restricted to ASCII: same length, each character lowered on its own. */
  function ToLower(s: string): (r: string)
    ensures |r| == |s|
    ensures forall i :: 0 <= i < |s| ==> r[i] == LowerChar(s[i])
  {
    if s == [] then [] else [LowerChar(s[0])] + ToLower(s[1..])
  }

  /** `s` spells the lower-case `word` with each letter written either in lower or in upper case. */
  predicate MatchesIgnoringCase(s: string, word: string) {
    |s| == |word| && forall i :: 0 <= i < |s| ==> s[i] == word[i] || s[i] == UpperChar(word[i])
  }

  predicate IsLowerWord(word: string) {
    forall i :: 0 <= i < |word| ==> 'a' <= word[i] <= 'z'
  }

  /** Lower-casing gives a lower-case word exactly when the input spells that word in any mix of cases. */
  lemma {:induction false} ToLowerEqualsIff(s: string, word: string)
    requires IsLowerWord(word)
    ensures ToLower(s) == word <==> MatchesIgnoringCase(s, word)
  {
    if |s| == |word| {
      if ToLower(s) == word {
        forall i | 0 <= i < |s| ensures s[i] == word[i] || s[i] == UpperChar(word[i]) {
          assert LowerChar(s[i]) == word[i];
        }
      }
      if MatchesIgnoringCase(s, word) {
        forall i | 0 <= i < |s| ensures ToLower(s)[i] == word[i] {
          assert s[i] == word[i] || s[i] == UpperChar(word[i]);
        }
      }
    } else {
      assert |ToLower(s)| != |word|;
    }
  }
}
