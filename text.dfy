/**
 * Character and string helpers shared by the Python back end and the
 * TypeScript front end: ASCII case mapping, the two languages' notions of
 * whitespace, `strip`/`trim`, `str.split()` word counting, `str.title()`
 * and substring containment (`in` / `includes`).
 */
module Text {

  /** ASCII lower-casing of one character; every other character is left as it is. */
  function LowerChar(c: char): char {
    if 'A' <= c <= 'Z' then (c as int + 32) as char else c
  }

  function UpperChar(c: char): char {
    if 'a' <= c <= 'z' then (c as int - 32) as char else c
  }

  predicate IsAsciiLetter(c: char) {
    ('a' <= c <= 'z') || ('A' <= c <= 'Z')
  }

  /** `s.lower()` in Python, `s.toLowerCase()` in JavaScript, on the ASCII range. */
  function ToLower(s: string): string {
    seq(|s|, i requires 0 <= i < |s| => LowerChar(s[i]))
  }

  /** `s.upper()` on the ASCII range. */
  function ToUpper(s: string): string {
    seq(|s|, i requires 0 <= i < |s| => UpperChar(s[i]))
  }

  /** The characters Python's `str.isspace` accepts (what `strip()` and `split()` remove). */
  predicate IsPyWhitespace(c: char) {
    c == ' ' || ('\t' <= c <= '\r') || ('\U{1c}' <= c <= '\U{1f}') || c == '\U{85}'
    || c == '\U{a0}' || c == '\U{1680}' || ('\U{2000}' <= c <= '\U{200a}')
    || c == '\U{2028}' || c == '\U{2029}' || c == '\U{202f}' || c == '\U{205f}' || c == '\U{3000}'
  }

  /** The characters of JavaScript's `\s` class (what `trim()` removes). */
  predicate IsJsWhitespace(c: char) {
    c == ' ' || ('\t' <= c <= '\r') || c == '\U{a0}' || c == '\U{1680}'
    || ('\U{2000}' <= c <= '\U{200a}') || c == '\U{2028}' || c == '\U{2029}'
    || c == '\U{202f}' || c == '\U{205f}' || c == '\U{3000}' || c == '\U{feff}'
  }

  /** Drops the longest prefix whose characters satisfy `ws`. */
  function TrimStart(s: string, ws: char -> bool): (r: string)
    ensures |r| <= |s| && r == s[|s| - |r|..]
    ensures r != [] ==> !ws(r[0])
    ensures forall i :: 0 <= i < |s| - |r| ==> ws(s[i])
  {
    if s != [] && ws(s[0]) then TrimStart(s[1..], ws) else s
  }

  /** Drops the longest suffix whose characters satisfy `ws`. */
  function TrimEnd(s: string, ws: char -> bool): (r: string)
    ensures |r| <= |s| && r == s[..|r|]
    ensures r != [] ==> !ws(r[|r| - 1])
    ensures forall i :: |r| <= i < |s| ==> ws(s[i])
  {
    if s != [] && ws(s[|s| - 1]) then TrimEnd(s[..|s| - 1], ws) else s
  }

  /** Python's `s.strip()`. */
  function Strip(s: string): string {
    TrimEnd(TrimStart(s, IsPyWhitespace), IsPyWhitespace)
  }

  /** JavaScript's `s.trim()`. */
  function Trim(s: string): string {
    TrimEnd(TrimStart(s, IsJsWhitespace), IsJsWhitespace)
  }

  /** Number of words starting in `s`, given whether the character before `s` was whitespace. */
  function WordStarts(s: string, afterSpace: bool): nat {
    if s == [] then 0
    else (if afterSpace && !IsPyWhitespace(s[0]) then 1 else 0) + WordStarts(s[1..], IsPyWhitespace(s[0]))
  }

  /** `len(s.split())` in Python: the number of maximal runs of non-whitespace. */
  function WordCount(s: string): nat {
    WordStarts(s, true)
  }

  /** `str.title()` on `s`, given whether the character before `s` was a cased letter. */
  function TitleFrom(s: string, afterLetter: bool): string {
    if s == [] then []
    else [if afterLetter then LowerChar(s[0]) else UpperChar(s[0])] + TitleFrom(s[1..], IsAsciiLetter(s[0]))
  }

  /** Python's `s.title()` on the ASCII range: a letter is upper-cased after a non-letter, lower-cased after a letter. */
  function Title(s: string): string {
    TitleFrom(s, false)
  }

  predicate StartsWith(s: string, prefix: string) {
    |prefix| <= |s| && s[..|prefix|] == prefix
  }

  /** `needle in s` (Python) or `s.includes(needle)` (JavaScript). */
  predicate Contains(s: string, needle: string) {
    StartsWith(s, needle) || (s != [] && Contains(s[1..], needle))
  }

  /** True when `s` contains at least one of `needles` (Python's `any(w in s for w in needles)`). */
  predicate ContainsAny(s: string, needles: seq<string>) {
    needles != [] && (Contains(s, needles[0]) || ContainsAny(s, needles[1..]))
  }

  // ---- properties ----

  lemma ToLowerIdempotent(s: string)
    ensures ToLower(ToLower(s)) == ToLower(s)
  {
  }

  /** A string with no upper-case letter is its own lower case. */
  lemma ToLowerUnchanged(s: string)
    requires forall i :: 0 <= i < |s| ==> !('A' <= s[i] <= 'Z')
    ensures ToLower(s) == s
  {
  }

  /** Lower-casing a capitalised word lowers its first letter only. */
  lemma ToLowerCapitalised(s: string)
    requires s != [] && forall i :: 1 <= i < |s| ==> !('A' <= s[i] <= 'Z')
    ensures ToLower(s) == [LowerChar(s[0])] + s[1..]
  {
  }

  /** Lower-casing erases the difference between upper and lower case. */
  lemma ToLowerOfUpper(s: string)
    ensures ToLower(ToUpper(s)) == ToLower(s)
  {
  }

  lemma {:induction false} TitleFromLength(s: string, afterLetter: bool)
    ensures |TitleFrom(s, afterLetter)| == |s|
  {
    if s != [] {
      TitleFromLength(s[1..], IsAsciiLetter(s[0]));
    }
  }

  /** `title()` yields the empty string exactly for the empty string. */
  lemma TitleEmptyIff(s: string)
    ensures Title(s) == [] <==> s == []
  {
    TitleFromLength(s, false);
  }

  /** `needle` occurs in `s` starting at position `i`. */
  predicate OccursAt(s: string, needle: string, i: int) {
    0 <= i <= |s| - |needle| && s[i..i + |needle|] == needle
  }

  /** Containment is witnessed by a position, and every position witnesses it. */
  lemma {:induction false} ContainsIff(s: string, needle: string)
    ensures Contains(s, needle) <==> exists i :: OccursAt(s, needle, i)
  {
    if s == [] {
      if Contains(s, needle) {
        assert OccursAt(s, needle, 0);
      }
    } else {
      ContainsIff(s[1..], needle);
      if Contains(s, needle) {
        if !StartsWith(s, needle) {
          var i :| OccursAt(s[1..], needle, i);
          assert s[1..][i..i + |needle|] == s[i + 1..i + 1 + |needle|];
          assert OccursAt(s, needle, i + 1);
        } else {
          assert OccursAt(s, needle, 0);
        }
      } else {
        forall i | OccursAt(s, needle, i)
          ensures false
        {
          if i > 0 {
            assert s[1..][i - 1..i - 1 + |needle|] == s[i..i + |needle|];
            assert OccursAt(s[1..], needle, i - 1);
          }
        }
      }
    }
  }

  /** A string contains the empty string and itself. */
  lemma ContainsTrivial(s: string)
    ensures Contains(s, "") && Contains(s, s)
  {
  }

  /** A string contains each of its slices. */
  lemma ContainsSlice(s: string, i: nat, j: nat)
    requires i <= j <= |s|
    ensures Contains(s, s[i..j])
  {
    ContainsIff(s, s[i..j]);
    assert OccursAt(s, s[i..j], i);
  }

  /** Whatever a substring contains, the whole string contains. */
  lemma {:induction false} ContainsTransitive(s: string, mid: string, needle: string)
    requires Contains(s, mid) && Contains(mid, needle)
    ensures Contains(s, needle)
  {
    ContainsIff(s, mid);
    ContainsIff(mid, needle);
    ContainsIff(s, needle);
    var i :| OccursAt(s, mid, i);
    var j :| OccursAt(mid, needle, j);
    forall k | 0 <= k < |needle|
      ensures s[i + j + k] == needle[k]
    {
      assert needle[k] == mid[j + k] == s[i..i + |mid|][j + k];
    }
    assert s[i + j..i + j + |needle|] == needle;
    assert OccursAt(s, needle, i + j);
  }

  /** `ContainsAny` holds exactly when some needle occurs in `s`. */
  lemma {:induction false} ContainsAnyIff(s: string, needles: seq<string>)
    ensures ContainsAny(s, needles) <==> exists i :: 0 <= i < |needles| && Contains(s, needles[i])
  {
    if needles != [] {
      ContainsAnyIff(s, needles[1..]);
      if ContainsAny(s, needles[1..]) {
        var i :| 0 <= i < |needles[1..]| && Contains(s, needles[1..][i]);
        assert Contains(s, needles[i + 1]);
      }
      if exists i :: 0 <= i < |needles| && Contains(s, needles[i]) {
        var i :| 0 <= i < |needles| && Contains(s, needles[i]);
        if i > 0 {
          assert Contains(s, needles[1..][i - 1]);
        }
      }
    }
  }

  /** Case mapping never turns whitespace into non-whitespace or back, so it commutes with stripping. */
  lemma CaseKeepsWhitespace(c: char)
    ensures IsPyWhitespace(LowerChar(c)) == IsPyWhitespace(c)
    ensures IsPyWhitespace(UpperChar(c)) == IsPyWhitespace(c)
  {
  }

  lemma {:induction false} TrimStartLower(s: string)
    ensures TrimStart(ToLower(s), IsPyWhitespace) == ToLower(TrimStart(s, IsPyWhitespace))
  {
    if s != [] {
      CaseKeepsWhitespace(s[0]);
      assert ToLower(s)[0] == LowerChar(s[0]);
      if IsPyWhitespace(s[0]) {
        assert ToLower(s)[1..] == ToLower(s[1..]);
        TrimStartLower(s[1..]);
      }
    }
  }

  lemma {:induction false} TrimEndLower(s: string)
    ensures TrimEnd(ToLower(s), IsPyWhitespace) == ToLower(TrimEnd(s, IsPyWhitespace))
  {
    if s != [] {
      CaseKeepsWhitespace(s[|s| - 1]);
      assert ToLower(s)[|s| - 1] == LowerChar(s[|s| - 1]);
      if IsPyWhitespace(s[|s| - 1]) {
        assert ToLower(s)[..|s| - 1] == ToLower(s[..|s| - 1]);
        TrimEndLower(s[..|s| - 1]);
      }
    }
  }

  lemma {:induction false} TrimStartUpper(s: string)
    ensures TrimStart(ToUpper(s), IsPyWhitespace) == ToUpper(TrimStart(s, IsPyWhitespace))
  {
    if s != [] {
      CaseKeepsWhitespace(s[0]);
      assert ToUpper(s)[0] == UpperChar(s[0]);
      if IsPyWhitespace(s[0]) {
        assert ToUpper(s)[1..] == ToUpper(s[1..]);
        TrimStartUpper(s[1..]);
      }
    }
  }

  lemma {:induction false} TrimEndUpper(s: string)
    ensures TrimEnd(ToUpper(s), IsPyWhitespace) == ToUpper(TrimEnd(s, IsPyWhitespace))
  {
    if s != [] {
      CaseKeepsWhitespace(s[|s| - 1]);
      assert ToUpper(s)[|s| - 1] == UpperChar(s[|s| - 1]);
      if IsPyWhitespace(s[|s| - 1]) {
        assert ToUpper(s)[..|s| - 1] == ToUpper(s[..|s| - 1]);
        TrimEndUpper(s[..|s| - 1]);
      }
    }
  }

  /** `s.lower().strip() == s.strip().lower()`, and the same for `upper()`. */
  lemma StripCommutesWithCase(s: string)
    ensures Strip(ToLower(s)) == ToLower(Strip(s))
    ensures Strip(ToUpper(s)) == ToUpper(Strip(s))
  {
    TrimStartLower(s);
    TrimEndLower(TrimStart(s, IsPyWhitespace));
    TrimStartUpper(s);
    TrimEndUpper(TrimStart(s, IsPyWhitespace));
  }

  /** Stripping twice is stripping once. */
  lemma StripIdempotent(s: string)
    ensures Strip(Strip(s)) == Strip(s)
  {
    var t := TrimStart(s, IsPyWhitespace);
    var r := Strip(s);
    assert r != [] ==> r[0] == t[0];
    assert TrimStart(r, IsPyWhitespace) == r;
  }

  /** A string that neither starts nor ends with whitespace is its own `strip()`. */
  lemma StripUnpadded(s: string)
    requires s != [] ==> !IsPyWhitespace(s[0]) && !IsPyWhitespace(s[|s| - 1])
    ensures Strip(s) == s
  {
    assert TrimStart(s, IsPyWhitespace) == s;
  }

  /** After a letter, a run of lower-case letters is left as it is by `title()`. */
  lemma {:induction false} TitleFromLowerLetters(s: string)
    requires forall i :: 0 <= i < |s| ==> 'a' <= s[i] <= 'z'
    ensures TitleFrom(s, true) == s
  {
    if s != [] {
      TitleFromLowerLetters(s[1..]);
    }
  }

  /** `title()` of a lower-case word capitalises its first letter only. */
  lemma TitleOfLowerWord(s: string)
    requires s != [] && forall i :: 0 <= i < |s| ==> 'a' <= s[i] <= 'z'
    ensures Title(s) == [UpperChar(s[0])] + s[1..]
  {
    TitleFromLowerLetters(s[1..]);
  }
}
