/**
 * String helpers the browser provides to the feed code: `String.prototype.trim`,
 * case folding for the case-insensitive title match, and decimal rendering of
 * whole numbers (what `toString`/`toFixed` print for them).
 */
module Text {
  import opened Wrappers

  /** The characters `trim` removes: the white space and line terminators of ECMAScript. */
  predicate IsWhitespace(c: char) {
    c in {'\t', '\n', '\U{B}', '\U{C}', '\r', ' ', '\U{A0}', '\U{1680}',
          '\U{2000}', '\U{2001}', '\U{2002}', '\U{2003}', '\U{2004}', '\U{2005}',
          '\U{2006}', '\U{2007}', '\U{2008}', '\U{2009}', '\U{200A}',
          '\U{2028}', '\U{2029}', '\U{202F}', '\U{205F}', '\U{3000}', '\U{FEFF}'}
  }

  predicate AllWhitespace(s: string) {
    forall k :: 0 <= k < |s| ==> IsWhitespace(s[k])
  }

  /** Drops leading white space. */
  function TrimStart(s: string): (r: string)
    ensures |r| <= |s|
  {
    if s != [] && IsWhitespace(s[0]) then TrimStart(s[1..]) else s
  }

  /** `TrimStart` keeps the suffix that starts at the first other character; everything before it is white space. */
  lemma {:induction false} TrimStartKeepsSuffix(s: string)
    ensures var r := TrimStart(s);
            r == s[|s| - |r|..] && AllWhitespace(s[..|s| - |r|]) && (r == [] || !IsWhitespace(r[0]))
  {
    if s != [] && IsWhitespace(s[0]) {
      var r := TrimStart(s[1..]);
      TrimStartKeepsSuffix(s[1..]);
      assert s[1..][..|s| - 1 - |r|] == s[1..|s| - |r|];
      assert s[1..][|s| - 1 - |r|..] == s[|s| - |r|..];
      var cut := s[..|s| - |r|];
      forall k | 0 <= k < |cut|
        ensures IsWhitespace(cut[k])
      {
        if k > 0 {
          assert cut[k] == s[1..][..|s| - 1 - |r|][k - 1];
        }
      }
    }
  }

  /** Drops trailing white space. */
  function TrimEnd(s: string): (r: string)
    ensures |r| <= |s|
  {
    if s != [] && IsWhitespace(s[|s| - 1]) then TrimEnd(s[..|s| - 1]) else s
  }

  /** `TrimEnd` keeps the prefix that ends at the last other character; everything after it is white space. */
  lemma {:induction false} TrimEndKeepsPrefix(s: string)
    ensures var r := TrimEnd(s);
            r == s[..|r|] && AllWhitespace(s[|r|..]) && (r == [] || !IsWhitespace(r[|r| - 1]))
  {
    if s != [] && IsWhitespace(s[|s| - 1]) {
      var init := s[..|s| - 1];
      var r := TrimEnd(init);
      TrimEndKeepsPrefix(init);
      assert init[..|r|] == s[..|r|];
      var cut := s[|r|..];
      forall k | 0 <= k < |cut|
        ensures IsWhitespace(cut[k])
      {
        if k < |s| - 1 - |r| {
          assert cut[k] == init[|r|..][k];
        }
      }
    }
  }

  /** `s.trim()`: white space removed from both ends. */
  function Trim(s: string): (r: string)
    ensures |r| <= |s|
  {
    TrimEnd(TrimStart(s))
  }

  /**
   * What `trim` leaves is the longest slice of `s` that neither starts nor ends
   * with white space, everything cut away on either side being white space.
   */
  lemma TrimIsSlice(s: string)
    ensures var r := Trim(s);
            exists i :: 0 <= i <= |s| - |r| && r == s[i..i + |r|] && AllWhitespace(s[..i]) && AllWhitespace(s[i + |r|..])
    ensures var r := Trim(s);
            r == [] || (!IsWhitespace(r[0]) && !IsWhitespace(r[|r| - 1]))
  {
    var t := TrimStart(s);
    var r := TrimEnd(t);
    var i := |s| - |t|;
    TrimStartKeepsSuffix(s);
    TrimEndKeepsPrefix(t);
    assert r == s[i..i + |r|];
    assert s[i + |r|..] == t[|r|..];
  }

  /** A string that `trim` empties is white space throughout, and only such a string. */
  lemma TrimEmptyIff(s: string)
    ensures Trim(s) == [] <==> AllWhitespace(s)
  {
    TrimIsSlice(s);
    if Trim(s) == [] {
      var i :| 0 <= i <= |s| && [] == s[i..i] && AllWhitespace(s[..i]) && AllWhitespace(s[i..]);
      forall k | 0 <= k < |s|
        ensures IsWhitespace(s[k])
      {
        if k < i {
          assert s[..i][k] == s[k];
        } else {
          assert s[i..][k - i] == s[k];
        }
      }
    }
  }

  /** ASCII case folding, the one case mapping this model gives the database's `ILIKE`. */
  function LowerChar(c: char): char {
    if 'A' <= c <= 'Z' then (c as int - 'A' as int + 'a' as int) as char else c
  }

  function Lower(s: string): (r: string)
    ensures |r| == |s|
  {
    seq(|s|, i requires 0 <= i < |s| => LowerChar(s[i]))
  }

  predicate IsPrefix(p: string, s: string) {
    |p| <= |s| && s[..|p|] == p
  }

  /** `needle` occurs in `hay` at position `i`. */
  predicate OccursAt(needle: string, hay: string, i: int) {
    0 <= i <= |hay| - |needle| && hay[i..i + |needle|] == needle
  }

  /** `needle` occurs in `hay` at some position: the reference meaning of substring search. */
  ghost predicate OccursIn(needle: string, hay: string) {
    exists i :: OccursAt(needle, hay, i)
  }

  /** Substring search by scanning the start positions from left to right. */
  function Contains(hay: string, needle: string): bool
    decreases |hay|
  {
    IsPrefix(needle, hay) || (hay != [] && Contains(hay[1..], needle))
  }

  /** What the scan finds occurs in `hay`. */
  lemma {:induction false} ContainsOccurs(hay: string, needle: string)
    requires Contains(hay, needle)
    ensures OccursIn(needle, hay)
    decreases |hay|
  {
    if IsPrefix(needle, hay) {
      assert OccursAt(needle, hay, 0);
    } else {
      var tail := hay[1..];
      ContainsOccurs(tail, needle);
      var i :| OccursAt(needle, tail, i);
      var j := i + 1;
      assert tail[i..i + |needle|] == hay[j..j + |needle|];
      assert OccursAt(needle, hay, j);
    }
  }

  /** An occurrence at `i` is found by the scan. */
  lemma {:induction false} OccursContains(hay: string, needle: string, i: int)
    requires OccursAt(needle, hay, i)
    ensures Contains(hay, needle)
    decreases i
  {
    if i > 0 {
      var tail := hay[1..];
      var j := i - 1;
      assert tail[j..j + |needle|] == hay[i..i + |needle|];
      OccursContains(tail, needle, j);
    } else {
      assert IsPrefix(needle, hay);
    }
  }

  /** The scan finds `needle` exactly when it occurs in `hay`. */
  lemma ContainsIff(hay: string, needle: string)
    ensures Contains(hay, needle) <==> OccursIn(needle, hay)
  {
    if Contains(hay, needle) {
      ContainsOccurs(hay, needle);
    }
    if OccursIn(needle, hay) {
      var i :| OccursAt(needle, hay, i);
      OccursContains(hay, needle, i);
    }
  }

  /** Case-insensitive substring test on ASCII letters. */
  predicate ContainsIgnoringCase(hay: string, needle: string) {
    Contains(Lower(hay), Lower(needle))
  }

  // Decimal notation of whole numbers

  predicate IsDigit(c: char) {
    '0' <= c <= '9'
  }

  function DigitChar(d: nat): (c: char)
    requires d < 10
    ensures IsDigit(c)
  {
    ('0' as int + d) as char
  }

  function DigitValue(c: char): nat
    requires IsDigit(c)
  {
    c as int - '0' as int
  }

  predicate AllDigits(s: string) {
    forall k :: 0 <= k < |s| ==> IsDigit(s[k])
  }

  /** The decimal digits of `n`, most significant first, with no leading zero. */
  function DecimalDigits(n: nat): (s: string)
    ensures s != [] && AllDigits(s)
    ensures |s| > 1 ==> s[0] != '0'
  {
    if n < 10 then [DigitChar(n)] else DecimalDigits(n / 10) + [DigitChar(n % 10)]
  }

  /** The number a digit string denotes. */
  function DigitsValue(s: string): nat
    requires AllDigits(s)
  {
    if s == [] then 0 else 10 * DigitsValue(s[..|s| - 1]) + DigitValue(s[|s| - 1])
  }

  /** Reads a non-empty digit string back into a number. */
  function ParseDigits(s: string): Option<nat> {
    if s != [] && AllDigits(s) then Some(DigitsValue(s)) else None
  }

  /** Printing a number in decimal and reading it back gives the number. */
  lemma {:induction false} DecimalDigitsRoundTrip(n: nat)
    ensures ParseDigits(DecimalDigits(n)) == Some(n)
  {
    if n >= 10 {
      DecimalDigitsRoundTrip(n / 10);
      var s := DecimalDigits(n);
      assert s[..|s| - 1] == DecimalDigits(n / 10);
      assert DigitValue(s[|s| - 1]) == n % 10;
      assert DigitsValue(s) == 10 * (n / 10) + n % 10;
    }
  }
}
