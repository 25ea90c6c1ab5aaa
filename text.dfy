/**
 * The string primitives the two programs rely on: lower-casing and the
 * substring test of the keyword classifier, decimal rendering of integers in
 * the generated circuit text, and JavaScript's `trim()` used by the compile
 * handler's input check.
 */
module Text {

  // ---------------------------------------------------------------------------
  // Lower-casing (Python `str.lower()`, restricted to ASCII letters)
  // ---------------------------------------------------------------------------

  function LowerChar(c: char): (r: char)
    ensures 'A' <= c <= 'Z' ==> r as int == c as int + 32
    ensures !('A' <= c <= 'Z') ==> r == c
    ensures !('A' <= r <= 'Z')
  {
    if 'A' <= c <= 'Z' then (c as int + 32) as char else c
  }

  function Lower(s: string): (r: string)
    ensures |r| == |s|
    ensures forall i :: 0 <= i < |s| ==> r[i] == LowerChar(s[i])
  {
    if s == [] then [] else [LowerChar(s[0])] + Lower(s[1..])
  }

  /** Lower-casing twice is lower-casing once. */
  lemma LowerIdempotent(s: string)
    ensures Lower(Lower(s)) == Lower(s)
  {
  }

  // ---------------------------------------------------------------------------
  // Substring test (Python `needle in haystack`)
  // ---------------------------------------------------------------------------

  /** `needle` occurs in `s` starting at index `i`. */
  predicate OccursAt(s: string, needle: string, i: int)
  {
    0 <= i && i + |needle| <= |s| && s[i..i + |needle|] == needle
  }

  /** Python's `needle in s`: the empty needle occurs in every string. */
  predicate Contains(s: string, needle: string)
    ensures Contains(s, needle) ==> |needle| <= |s|
    ensures needle == [] ==> Contains(s, needle)
    decreases |s|
  {
    |needle| <= |s| && (s[..|needle|] == needle || Contains(s[1..], needle))
  }

  /** `Contains` holds exactly when there is a position where the needle occurs. */
  lemma {:induction false} ContainsIff(s: string, needle: string)
    ensures Contains(s, needle) <==> exists i :: OccursAt(s, needle, i)
    decreases |s|
  {
    if |needle| <= |s| {
      if s[..|needle|] == needle {
        assert OccursAt(s, needle, 0);
      } else {
        ContainsIff(s[1..], needle);
        if Contains(s[1..], needle) {
          var j :| OccursAt(s[1..], needle, j);
          assert s[j + 1..j + 1 + |needle|] == s[1..][j..j + |needle|];
          assert OccursAt(s, needle, j + 1);
        }
        if exists i :: OccursAt(s, needle, i) {
          var i :| OccursAt(s, needle, i);
          assert i != 0;
          assert s[1..][i - 1..i - 1 + |needle|] == s[i..i + |needle|];
          assert OccursAt(s[1..], needle, i - 1);
        }
      }
    }
  }

  // ---------------------------------------------------------------------------
  // Decimal rendering (Python f"{n}" for a non-negative int)
  // ---------------------------------------------------------------------------

  predicate IsDigit(c: char)
  {
    '0' <= c <= '9'
  }

  function DigitChar(d: nat): (c: char)
    requires d < 10
    ensures IsDigit(c) && c as int - '0' as int == d
  {
    ('0' as int + d) as char
  }

  /** The decimal digits of `n`, most significant first, with no leading zeros. */
  function Digits(n: nat): (r: string)
    ensures 1 <= |r|
    ensures forall i :: 0 <= i < |r| ==> IsDigit(r[i])
    ensures |r| > 1 ==> r[0] != '0'
    decreases n
  {
    if n < 10 then [DigitChar(n)] else Digits(n / 10) + [DigitChar(n % 10)]
  }

  function DigitValue(c: char): nat
    requires IsDigit(c)
  {
    c as int - '0' as int
  }

  /** Reads a string of decimal digits back as a number. */
  function ParseDecimal(s: string): nat
    requires forall i :: 0 <= i < |s| ==> IsDigit(s[i])
    decreases |s|
  {
    if s == [] then 0
    else ParseDecimal(s[..|s| - 1]) * 10 + DigitValue(s[|s| - 1])
  }

  /** Rendering a number in decimal loses nothing: parsing gives it back. */
  lemma {:induction false} DigitsRoundTrip(n: nat)
    ensures ParseDecimal(Digits(n)) == n
    decreases n
  {
    if n >= 10 {
      var d := Digits(n);
      assert d[..|d| - 1] == Digits(n / 10);
      DigitsRoundTrip(n / 10);
    }
  }

  // ---------------------------------------------------------------------------
  // JavaScript String.prototype.trim()
  // ---------------------------------------------------------------------------

  /** The ECMAScript WhiteSpace and LineTerminator code points that `trim` strips. */
  predicate IsJsWhitespace(c: char)
  {
    || c == '\t' || c == '\U{000B}' || c == '\U{000C}' || c == ' ' || c == '\U{00A0}' || c == '\U{FEFF}'
    || c == '\n' || c == '\r' || c == '\U{2028}' || c == '\U{2029}'
    || c == '\U{1680}' || ('\U{2000}' <= c <= '\U{200A}') || c == '\U{202F}' || c == '\U{205F}' || c == '\U{3000}'
  }

  /** Every character of `s` is whitespace (in particular, the empty string). */
  predicate IsBlank(s: string)
  {
    forall i :: 0 <= i < |s| ==> IsJsWhitespace(s[i])
  }

  /** Drops leading whitespace: the result is a suffix of `s` that does not start with whitespace. */
  function TrimStart(s: string): (r: string)
    ensures |r| <= |s| && r == s[|s| - |r|..]
    ensures r != [] ==> !IsJsWhitespace(r[0])
    ensures IsBlank(s[..|s| - |r|])
    decreases |s|
  {
    if s != [] && IsJsWhitespace(s[0]) then
      var r := TrimStart(s[1..]);
      assert IsBlank(s[..|s| - |r|]) by {
        var dropped := s[..|s| - |r|];
        var rest := s[1..][..|s| - 1 - |r|];
        forall i | 0 <= i < |dropped|
          ensures IsJsWhitespace(dropped[i])
        {
          if i > 0 {
            assert dropped[i] == rest[i - 1];
          }
        }
      }
      r
    else s
  }

  /** Drops trailing whitespace: the result is a prefix of `s` that does not end with whitespace. */
  function TrimEnd(s: string): (r: string)
    ensures |r| <= |s| && r == s[..|r|]
    ensures r != [] ==> !IsJsWhitespace(r[|r| - 1])
    ensures IsBlank(s[|r|..])
    decreases |s|
  {
    if s != [] && IsJsWhitespace(s[|s| - 1]) then
      var r := TrimEnd(s[..|s| - 1]);
      assert IsBlank(s[|r|..]) by {
        var dropped := s[|r|..];
        var rest := s[..|s| - 1][|r|..];
        forall i | 0 <= i < |dropped|
          ensures IsJsWhitespace(dropped[i])
        {
          if i < |rest| {
            assert dropped[i] == rest[i];
          }
        }
      }
      r
    else s
  }

  /** `r` sits in `s` at offset `k`, with only whitespace before and after it. */
  predicate TrimmedAt(s: string, r: string, k: nat)
  {
    k + |r| <= |s| && r == s[k..k + |r|] && IsBlank(s[..k]) && IsBlank(s[k + |r|..])
  }

  /**
   * JavaScript's `trim()`: the part of `s` left between its leading and its
   * trailing whitespace, neither starting nor ending with whitespace.
   */
  function Trim(s: string): (r: string)
    ensures TrimmedAt(s, r, |s| - |TrimStart(s)|)
    ensures r != [] ==> !IsJsWhitespace(r[0]) && !IsJsWhitespace(r[|r| - 1])
  {
    var t := TrimStart(s);
    var r := TrimEnd(t);
    assert t == s[|s| - |t|..];
    assert r == s[|s| - |t|..|s| - |t| + |r|];
    var k := |s| - |t|;
    assert t[|r|..] == s[k + |r|..];
    assert IsBlank(s[..k]) && IsBlank(t[|r|..]);
    assert TrimmedAt(s, r, k);
    r
  }

  /** `!s.trim()` in JavaScript: trimming leaves nothing exactly when every character is whitespace. */
  lemma TrimEmptyIff(s: string)
    ensures Trim(s) == [] <==> IsBlank(s)
  {
  }

  /**
   * Evaluates JavaScript's `!s.trim()`: trims, then tests for the empty string.
   * It is a method rather than a function so that its callers see only its
   * contract, not the definition of `Trim`; the page's compile handler is
   * verified against the contract alone.
   */
  method TrimsToEmpty(s: string) returns (blank: bool)
    ensures blank <==> IsBlank(s)
  {
    var trimmed := Trim(s);
    TrimEmptyIff(s);
    blank := trimmed == [];
  }
}
