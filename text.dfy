/** String operations the assistant's turn handling relies on: JavaScript's
    `toLowerCase` (restricted to ASCII), `includes`, `trim` and the
    first-character capitalisation of the destination overview. */
module Text {

  /** ASCII lower-casing of one character; every other character is kept. */
  function LowerChar(c: char): char {
    if 'A' <= c <= 'Z' then (c as int + 32) as char else c
  }

  /** ASCII upper-casing of one character; every other character is kept. */
  function UpperChar(c: char): char {
    if 'a' <= c <= 'z' then (c as int - 32) as char else c
  }

  /** `s.toLowerCase()`, character by character. */
  function ToLower(s: string): (r: string)
    ensures |r| == |s|
    ensures forall i :: 0 <= i < |s| ==> r[i] == LowerChar(s[i])
  {
    if s == [] then [] else [LowerChar(s[0])] + ToLower(s[1..])
  }

  /** Lower-casing works piece by piece. */
  lemma ToLowerConcat(a: string, b: string)
    ensures ToLower(a + b) == ToLower(a) + ToLower(b)
  {
    var ab := a + b;
    assert forall i :: 0 <= i < |ab| ==> ab[i] == if i < |a| then a[i] else b[i - |a|];
  }

  /** `sub` occurs in `s` starting at index `i`. */
  ghost predicate OccursAt(s: string, sub: string, i: int) {
    0 <= i && i + |sub| <= |s| && s[i..i + |sub|] == sub
  }

  /** `s.includes(sub)`: `sub` is a prefix of `s` or of one of its suffixes.
      The empty string is contained in every string. */
  predicate Contains(s: string, sub: string)
    decreases |s|
  {
    sub <= s || (s != [] && Contains(s[1..], sub))
  }

  /** `Contains` holds exactly when `sub` occurs at some index of `s`. */
  lemma {:induction false} ContainsIff(s: string, sub: string)
    ensures Contains(s, sub) <==> exists i :: OccursAt(s, sub, i)
    decreases |s|
  {
    if sub <= s {
      assert OccursAt(s, sub, 0);
    } else if s == [] {
      assert forall i :: !OccursAt(s, sub, i);
    } else {
      var t := s[1..];
      forall j | OccursAt(t, sub, j) ensures OccursAt(s, sub, j + 1) {
        assert s[j + 1..j + 1 + |sub|] == t[j..j + |sub|];
      }
      forall i | OccursAt(s, sub, i) ensures i > 0 && OccursAt(t, sub, i - 1) {
        assert t[i - 1..i - 1 + |sub|] == s[i..i + |sub|];
      }
      ContainsIff(t, sub);
    }
  }

  /** A string contained in the middle part of a concatenation is contained in the whole. */
  lemma ContainsInConcat(a: string, b: string, c: string, sub: string)
    requires Contains(b, sub)
    ensures Contains(a + b + c, sub)
  {
    ContainsIff(b, sub);
    var j :| OccursAt(b, sub, j);
    var s := a + b + c;
    assert s[|a| + j..|a| + j + |sub|] == b[j..j + |sub|];
    assert OccursAt(s, sub, |a| + j);
    ContainsIff(s, sub);
  }

  /** Every character of a contained string occurs in the containing one;
      so a string with a character that `s` lacks is not contained in `s`. */
  lemma ContainedCharsOccur(s: string, sub: string, k: int)
    requires 0 <= k < |sub|
    ensures Contains(s, sub) ==> sub[k] in s
  {
    ContainsIff(s, sub);
    if Contains(s, sub) {
      var i :| OccursAt(s, sub, i);
      assert s[i..i + |sub|][k] == s[i + k];
    }
  }

  /** A string whose first character `a` lacks and whose second character `b`
      lacks is not contained in `a + b`: it cannot start inside `a`, and its
      second character cannot lie inside `b`. */
  lemma NotContainedAcrossSplit(a: string, b: string, sub: string)
    requires |sub| >= 2 && sub[0] !in a && sub[1] !in b
    ensures !Contains(a + b, sub)
  {
    ContainsIff(a + b, sub);
  }

  /** `words.some(w => s.includes(w))`, written as the source's `||` chain. */
  predicate ContainsAny(s: string, words: seq<string>)
    ensures ContainsAny(s, words) <==> exists i :: 0 <= i < |words| && Contains(s, words[i])
  {
    if words == [] then false
    else Contains(s, words[0]) || ContainsAny(s, words[1..])
  }

  /** No word of `words` is contained in `s` when each has a character, at the
      index given by `ks`, that `s` lacks. */
  lemma NoneContainedIfCharsMissing(s: string, words: seq<string>, ks: seq<int>)
    requires |ks| == |words|
    requires forall i :: 0 <= i < |words| ==> 0 <= ks[i] < |words[i]| && words[i][ks[i]] !in s
    ensures !ContainsAny(s, words)
  {
    forall i | 0 <= i < |words| ensures !Contains(s, words[i]) {
      ContainedCharsOccur(s, words[i], ks[i]);
    }
  }

  /** The same, with the characters of `s` bounded by an `alphabet`: no word
      is contained when each has a character outside the alphabet. */
  lemma NoneContainedOutside(s: string, alphabet: set<char>, words: seq<string>, ks: seq<int>)
    requires forall c :: c in s ==> c in alphabet
    requires |ks| == |words|
    requires forall i :: 0 <= i < |words| ==> 0 <= ks[i] < |words[i]| && words[i][ks[i]] !in alphabet
    ensures !ContainsAny(s, words)
  {
    NoneContainedIfCharsMissing(s, words, ks);
  }

  /** The characters `String.prototype.trim` removes: the ECMAScript WhiteSpace
      and LineTerminator code points. */
  predicate IsWhiteSpace(c: char) {
    c == '\t' || c == '\n' || c == '\U{000B}' || c == '\U{000C}' || c == '\r' || c == ' '
    || c == '\U{00A0}' || c == '\U{1680}' || ('\U{2000}' <= c <= '\U{200A}')
    || c == '\U{2028}' || c == '\U{2029}' || c == '\U{202F}' || c == '\U{205F}'
    || c == '\U{3000}' || c == '\U{FEFF}'
  }

  /** Every character of `s` is white space (the empty string included). */
  predicate IsBlank(s: string) {
    forall i :: 0 <= i < |s| ==> IsWhiteSpace(s[i])
  }

  /** Drops the leading white space: the result is a suffix of `s`, everything
      dropped is white space, and the result does not start with white space. */
  function TrimStart(s: string): (r: string)
    ensures |r| <= |s| && r == s[|s| - |r|..]
    ensures forall i :: 0 <= i < |s| - |r| ==> IsWhiteSpace(s[i])
    ensures r != [] ==> !IsWhiteSpace(r[0])
  {
    if s != [] && IsWhiteSpace(s[0]) then TrimStart(s[1..]) else s
  }

  /** Drops the trailing white space: the result is a prefix of `s`, everything
      dropped is white space, and the result does not end with white space. */
  function TrimEnd(s: string): (r: string)
    ensures |r| <= |s| && r == s[..|r|]
    ensures forall i :: |r| <= i < |s| ==> IsWhiteSpace(s[i])
    ensures r != [] ==> !IsWhiteSpace(r[|r| - 1])
  {
    if s != [] && IsWhiteSpace(s[|s| - 1]) then TrimEnd(s[..|s| - 1]) else s
  }

  /** `s.trim()`. */
  function Trim(s: string): string {
    TrimEnd(TrimStart(s))
  }

  /** `!s.trim()` holds exactly for the blank strings. */
  lemma TrimEmptyIffBlank(s: string)
    ensures Trim(s) == [] <==> IsBlank(s)
  {
    var t := TrimStart(s);
    assert t != [] ==> t[0] == s[|s| - |t|];
    forall i | |s| - |t| <= i < |s| ensures s[i] == t[i - (|s| - |t|)] {
    }
  }

  /** `!s.trim()`: whether `s` is empty once trimmed. */
  method TrimmedIsEmpty(s: string) returns (empty: bool)
    ensures empty <==> IsBlank(s)
  {
    TrimEmptyIffBlank(s);
    empty := Trim(s) == [];
  }

  /** `d.charAt(0).toUpperCase() + d.slice(1)` for an ASCII `d`. */
  function Capitalize(d: string): (r: string)
    ensures |r| == |d|
    ensures d != [] ==> r[0] == UpperChar(d[0]) && r[1..] == d[1..]
  {
    if d == [] then [] else [UpperChar(d[0])] + d[1..]
  }
}
