/** String helpers shared by the pages: ASCII lowercasing (standing in for
    `toLowerCase`), substring search (`includes`), the text before the first
    '@' (`split('@')[0]`) and the whitespace trimming of `String.prototype.trim`. */
module Text {

  /** ASCII upper-case letter. */
  predicate IsUpper(c: char) {
    'A' <= c <= 'Z'
  }

  function LowerChar(c: char): char {
    if IsUpper(c) then (c as int + 32) as char else c
  }

  /** ASCII upper-casing (standing in for `toUpperCase`): the result is never
      a lower-case ASCII letter and differs from `c` only in case. */
  function UpperChar(c: char): (r: char)
    ensures !('a' <= r <= 'z')
    ensures LowerChar(r) == LowerChar(c)
  {
    if 'a' <= c <= 'z' then (c as int - 32) as char else c
  }

  /** The number of UTF-16 code units of a character: two for a code point
      beyond U+FFFF (a surrogate pair), one otherwise. */
  function Utf16Width(c: char): nat {
    if c as int > 0xFFFF then 2 else 1
  }

  /** `s.length`: JavaScript counts UTF-16 code units, not characters. */
  function Utf16Length(s: string): (n: nat)
    ensures |s| <= n <= 2 * |s|
    ensures n == |s| <==> forall i :: 0 <= i < |s| ==> Utf16Width(s[i]) == 1
  {
    if s == [] then 0 else Utf16Width(s[0]) + Utf16Length(s[1..])
  }

  /** A character beyond the Basic Multilingual Plane counts twice. */
  lemma AstralCountsTwice()
    ensures Utf16Length("A!\U{1F600}\U{1F600}") == 6
    ensures |"A!\U{1F600}\U{1F600}"| == 4
  {
    assert "A!\U{1F600}\U{1F600}"[1..] == "!\U{1F600}\U{1F600}";
    assert "!\U{1F600}\U{1F600}"[1..] == "\U{1F600}\U{1F600}";
    assert "\U{1F600}\U{1F600}"[1..] == "\U{1F600}";
  }

  /** `s.toLowerCase()` restricted to ASCII letters. */
  function Lower(s: string): (r: string)
    ensures |r| == |s|
    ensures forall i :: 0 <= i < |s| ==> r[i] == LowerChar(s[i])
    ensures forall i :: 0 <= i < |r| ==> !IsUpper(r[i])
  {
    seq(|s|, i requires 0 <= i < |s| => LowerChar(s[i]))
  }

  /** `s.includes(t)`: `t` occurs in `s` as a contiguous block. */
  predicate Contains(s: string, t: string)
    decreases |s|
  {
    t <= s || (|s| > 0 && Contains(s[1..], t))
  }

  /** `Contains` agrees with the textbook definition: some suffix of `s` starts with `t`. */
  lemma {:induction false} ContainsIff(s: string, t: string)
    ensures Contains(s, t) <==> exists i :: 0 <= i <= |s| && t <= s[i..]
  {
    if t <= s {
      assert s[0..] == s;
    } else if |s| == 0 {
    } else {
      ContainsIff(s[1..], t);
      if Contains(s[1..], t) {
        var i :| 0 <= i <= |s[1..]| && t <= s[1..][i..];
        assert s[1..][i..] == s[i + 1..];
      } else {
        forall i | 0 <= i <= |s| ensures !(t <= s[i..]) {
          if i > 0 {
            assert s[1..][i - 1..] == s[i..];
          }
        }
      }
    }
  }

  /** The empty string is contained in every string (`"abc".includes("")` is true). */
  lemma ContainsEmpty(s: string)
    ensures Contains(s, "")
  {
  }

  /** `s.split('@')[0]`: the part of `s` before its first '@', or all of `s`. */
  function LocalPart(s: string): (r: string)
    ensures r <= s
    ensures '@' !in r
    ensures |r| < |s| ==> s[|r|] == '@'
  {
    if s == [] || s[0] == '@' then [] else [s[0]] + LocalPart(s[1..])
  }

  /** The characters `String.prototype.trim` removes: the ECMAScript
      WhiteSpace code points (TAB, VT, FF, SP, NBSP, ZWNBSP and the Unicode
      space separators) and the LineTerminator code points (LF, CR, LS, PS). */
  predicate IsJsWhitespace(c: char): (b: bool)
    ensures c == ' ' || c == '\t' || c == '\n' || c == '\r' ==> b
    ensures '!' <= c <= '~' ==> !b
  {
    || c == '\t' || c == '\U{000B}' || c == '\U{000C}' || c == ' '
    || c == '\U{00A0}' || c == '\U{FEFF}'
    || c == '\U{1680}' || ('\U{2000}' <= c <= '\U{200A}')
    || c == '\U{202F}' || c == '\U{205F}' || c == '\U{3000}'
    || c == '\n' || c == '\r' || c == '\U{2028}' || c == '\U{2029}'
  }

  function TrimStart(s: string): (r: string)
    ensures |r| <= |s|
    ensures r == s[|s| - |r|..]
    ensures forall i :: 0 <= i < |s| - |r| ==> IsJsWhitespace(s[i])
    ensures r != [] ==> !IsJsWhitespace(r[0])
  {
    if s != [] && IsJsWhitespace(s[0]) then TrimStart(s[1..]) else s
  }

  function TrimEnd(s: string): (r: string)
    ensures |r| <= |s|
    ensures r == s[..|r|]
    ensures forall i :: |r| <= i < |s| ==> IsJsWhitespace(s[i])
    ensures r != [] ==> !IsJsWhitespace(r[|r| - 1])
  {
    if s != [] && IsJsWhitespace(s[|s| - 1]) then TrimEnd(s[..|s| - 1]) else s
  }

  /** `s.trim()`. */
  function Trim(s: string): string {
    TrimEnd(TrimStart(s))
  }

  /** The trimmed string is empty exactly when every character is whitespace. */
  lemma TrimEmptyIff(s: string)
    ensures Trim(s) == [] <==> forall i :: 0 <= i < |s| ==> IsJsWhitespace(s[i])
  {
    var u := TrimStart(s);
    if u != [] {
      // u starts with a non-whitespace character, which TrimEnd keeps
      assert u[0] == s[|s| - |u|];
      assert |TrimEnd(u)| > 0;
    }
  }
}
