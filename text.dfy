/**
 * String primitives the JavaScript code relies on: `trim`, `toLowerCase`,
 * `toUpperCase`, `includes`, `startsWith`, `split(c)[0]` and `String(n)`.
 * Strings are sequences of Unicode scalar values.
 */
module Text {

  /** JavaScript's WhiteSpace and LineTerminator characters, which `trim` removes. */
  predicate IsSpace(c: char) {
    c == ' ' || c == '\t' || c == '\n' || c == '\r' || c == '\U{000B}' || c == '\U{000C}'
    || c == '\U{00A0}' || c == '\U{1680}' || ('\U{2000}' <= c <= '\U{200A}')
    || c == '\U{2028}' || c == '\U{2029}' || c == '\U{202F}' || c == '\U{205F}'
    || c == '\U{3000}' || c == '\U{FEFF}'
  }

  function TrimStart(s: string): string {
    if |s| > 0 && IsSpace(s[0]) then TrimStart(s[1..]) else s
  }

  function TrimEnd(s: string): string {
    if |s| > 0 && IsSpace(s[|s| - 1]) then TrimEnd(s[..|s| - 1]) else s
  }

  /** `s.trim()`. */
  function Trim(s: string): string {
    TrimEnd(TrimStart(s))
  }

  /** Every character of `s` is white space. */
  predicate AllSpace(s: string) {
    forall j :: 0 <= j < |s| ==> IsSpace(s[j])
  }

  lemma {:induction false} TrimStartSpec(s: string)
    ensures var r := TrimStart(s);
      && |r| <= |s| && r == s[|s| - |r|..]
      && (r == [] || !IsSpace(r[0]))
      && AllSpace(s[..|s| - |r|])
  {
    if |s| > 0 && IsSpace(s[0]) {
      TrimStartSpec(s[1..]);
      var r := TrimStart(s);
      assert s[..|s| - |r|] == [s[0]] + s[1..][..|s| - 1 - |r|];
    }
  }

  lemma {:induction false} TrimEndSpec(s: string)
    ensures var r := TrimEnd(s);
      && |r| <= |s| && r == s[..|r|]
      && (r == [] || !IsSpace(r[|r| - 1]))
      && AllSpace(s[|r|..])
  {
    if |s| > 0 && IsSpace(s[|s| - 1]) {
      TrimEndSpec(s[..|s| - 1]);
      var r := TrimEnd(s);
      assert s[|r|..] == s[..|s| - 1][|r|..] + [s[|s| - 1]];
    }
  }

  /**
   * The trimmed text is the infix of `s` left after dropping white space
   * at both ends: it neither starts nor ends with white space, and only
   * white space was dropped.
   */
  lemma Infix(s: string, t: string, r: string)
    requires |t| <= |s| && t == s[|s| - |t|..] && |r| <= |t| && r == t[..|r|]
    requires AllSpace(s[..|s| - |t|]) && AllSpace(t[|r|..])
    ensures exists i :: (0 <= i <= |s| - |r| && r == s[i..i + |r|]
                         && AllSpace(s[..i]) && AllSpace(s[i + |r|..]))
  {
    var i := |s| - |t|;
    assert s[i + |r|..] == t[|r|..];
    assert r == s[i..i + |r|];
  }

  /**
   * The trimmed text is the infix of `s` left after dropping white space
   * at both ends: it neither starts nor ends with white space, and only
   * white space was dropped.
   */
  lemma {:induction false} TrimSpec(s: string)
    ensures var r := Trim(s);
      && (r == [] || (!IsSpace(r[0]) && !IsSpace(r[|r| - 1])))
      && (exists i :: 0 <= i <= |s| - |r| && r == s[i..i + |r|]
                      && AllSpace(s[..i]) && AllSpace(s[i + |r|..]))
  {
    var t := TrimStart(s);
    var r := TrimEnd(t);
    TrimStartSpec(s);
    TrimEndSpec(t);
    if r != [] {
      assert r[0] == t[0];
    }
    Infix(s, t, r);
  }

  lemma {:induction false} TrimStartOfTrimmed(s: string)
    requires s == [] || !IsSpace(s[0])
    ensures TrimStart(s) == s
  {
  }

  /**
   * JavaScript's `s.length`: the number of UTF-16 code units, one for a
   * character of the Basic Multilingual Plane and two (a surrogate pair) for
   * any character above U+FFFF.
   */
  function Utf16Length(s: string): (n: nat)
    ensures |s| <= n <= 2 * |s|
  {
    if s == [] then 0
    else (if s[0] as int > 0xFFFF then 2 else 1) + Utf16Length(s[1..])
  }

  /** On text of the Basic Multilingual Plane the two lengths agree. */
  lemma {:induction false} Utf16LengthBmp(s: string)
    requires forall i :: 0 <= i < |s| ==> s[i] as int <= 0xFFFF
    ensures Utf16Length(s) == |s|
  {
    if s != [] {
      Utf16LengthBmp(s[1..]);
    }
  }

  /** Trimming twice is trimming once. */
  lemma TrimIdempotent(s: string)
    ensures Trim(Trim(s)) == Trim(s)
  {
    var r := Trim(s);
    TrimSpec(s);
    TrimStartOfTrimmed(r);
    assert TrimEnd(r) == r;
  }

  /**
   * A character `toLowerCase` maps to a single different character: the
   * upper-case letters of ASCII, Latin-1 and Latin Extended-A that have a
   * one-character lower-case partner (İ, whose lower case has two characters,
   * is not one of them).
   */
  predicate IsUpperChar(c: char) {
    ('A' <= c <= 'Z')
    || ('\U{00C0}' <= c <= '\U{00DE}' && c != '\U{00D7}')
    || ('\U{0100}' <= c <= '\U{012F}' && (c as int) % 2 == 0)
    || ('\U{0132}' <= c <= '\U{0137}' && (c as int) % 2 == 0)
    || ('\U{0139}' <= c <= '\U{0148}' && (c as int) % 2 == 1)
    || ('\U{014A}' <= c <= '\U{0177}' && (c as int) % 2 == 0)
    || c == '\U{0178}'
    || ('\U{0179}' <= c <= '\U{017E}' && (c as int) % 2 == 1)
  }

  /** The lower-case partners of IsUpperChar: `toUpperCase` maps each back to its partner. */
  predicate IsLowerChar(c: char) {
    ('a' <= c <= 'z')
    || ('\U{00E0}' <= c <= '\U{00FE}' && c != '\U{00F7}')
    || c == '\U{00FF}'
    || ('\U{0101}' <= c <= '\U{0130}' && (c as int) % 2 == 1)
    || ('\U{0133}' <= c <= '\U{0138}' && (c as int) % 2 == 1)
    || ('\U{013A}' <= c <= '\U{0148}' && (c as int) % 2 == 0)
    || ('\U{014B}' <= c <= '\U{0178}' && (c as int) % 2 == 1)
    || ('\U{017A}' <= c <= '\U{017F}' && (c as int) % 2 == 0)
  }

  /**
   * The three lower-case letters whose upper case is a letter with a
   * different lower case: dotless ı (to I), long ſ (to S) and the micro
   * sign µ (to the Greek capital Μ).
   */
  predicate IsOneWayLower(c: char) {
    c == '\U{0131}' || c == '\U{017F}' || c == '\U{00B5}'
  }

  /**
   * The characters of these blocks for which lower-casing the upper case
   * differs from lower-casing the character in JavaScript: the one-way
   * letters, and ß and ŉ, whose upper case is two characters ("SS", "ʼN").
   */
  predicate IsCaseBreaker(c: char) {
    IsOneWayLower(c) || c == '\U{00DF}' || c == '\U{0149}'
  }

  function LowerChar(c: char): (r: char)
    ensures !IsUpperChar(r)
    ensures IsUpperChar(c) ==> IsLowerChar(r)
    ensures !IsUpperChar(c) ==> r == c
  {
    if !IsUpperChar(c) then c
    else if c == '\U{0178}' then '\U{00FF}'
    else if c <= '\U{00DE}' then (c as int + 32) as char
    else (c as int + 1) as char
  }

  function UpperChar(c: char): (r: char)
    ensures !IsLowerChar(r) && !IsOneWayLower(r)
    ensures IsLowerChar(c) ==> IsUpperChar(r)
    ensures c == '\U{0131}' ==> r == 'I'
    ensures c == '\U{017F}' ==> r == 'S'
    ensures c == '\U{00B5}' ==> r == '\U{039C}'
    ensures !IsLowerChar(c) && !IsOneWayLower(c) ==> r == c
  {
    if c == '\U{0131}' then 'I'
    else if c == '\U{017F}' then 'S'
    else if c == '\U{00B5}' then '\U{039C}'
    else if !IsLowerChar(c) then c
    else if c == '\U{00FF}' then '\U{0178}'
    else if c <= '\U{00FE}' then (c as int - 32) as char
    else (c as int - 1) as char
  }

  /** Lowering a character after raising it gives the lowered original, except for ı, ſ, µ, ß and ŉ. */
  lemma LowerUpperChar(c: char)
    ensures !IsCaseBreaker(c) ==> LowerChar(UpperChar(c)) == LowerChar(c)
  {
  }

  /** For the dotless ı it does not: `"ı".toUpperCase().toLowerCase()` is "i". */
  lemma DotlessIRoundTrip()
    ensures UpperChar('\U{0131}') == 'I' && LowerChar(UpperChar('\U{0131}')) == 'i'
    ensures LowerChar('\U{0131}') == '\U{0131}'
  {
  }

  /** `s.toLowerCase()`, character by character. */
  function Lower(s: string): (r: string)
    ensures |r| == |s|
    ensures forall i :: 0 <= i < |s| ==> r[i] == LowerChar(s[i])
  {
    seq(|s|, i requires 0 <= i < |s| => LowerChar(s[i]))
  }

  /** `s.toUpperCase()`, character by character. */
  function Upper(s: string): (r: string)
    ensures |r| == |s|
    ensures forall i :: 0 <= i < |s| ==> r[i] == UpperChar(s[i])
  {
    seq(|s|, i requires 0 <= i < |s| => UpperChar(s[i]))
  }

  lemma LowerIdempotent(s: string)
    ensures Lower(Lower(s)) == Lower(s)
  {
  }

  lemma UpperIdempotent(s: string)
    ensures Upper(Upper(s)) == Upper(s)
  {
  }

  /** No character of `s` is one of ı, ſ, µ, ß and ŉ. */
  predicate NoCaseBreaker(s: string) {
    forall i :: 0 <= i < |s| ==> !IsCaseBreaker(s[i])
  }

  /** Lowering ignores a preceding upper-casing, on texts without ı, ſ, µ, ß and ŉ. */
  lemma LowerOfUpper(s: string)
    ensures NoCaseBreaker(s) ==> Lower(Upper(s)) == Lower(s)
  {
    if NoCaseBreaker(s) {
      forall i | 0 <= i < |s| ensures Lower(Upper(s))[i] == Lower(s)[i] {
        LowerUpperChar(s[i]);
      }
    }
  }

  lemma LowerConcat(a: string, b: string)
    ensures Lower(a + b) == Lower(a) + Lower(b)
  {
  }

  /** `p` occurs in `s` starting at index `i`. */
  predicate OccursAt(s: string, p: string, i: int) {
    0 <= i && i + |p| <= |s| && s[i..i + |p|] == p
  }

  /** `s.includes(p)`. */
  predicate Contains(s: string, p: string) {
    exists i :: 0 <= i <= |s| && OccursAt(s, p, i)
  }

  /** `ps.some((p) => s.includes(p))`. */
  function AnyContains(s: string, ps: seq<string>): bool {
    if ps == [] then false else Contains(s, ps[0]) || AnyContains(s, ps[1..])
  }

  /** `some` holds exactly when one of the phrases occurs. */
  lemma {:induction false} AnyContainsSpec(s: string, ps: seq<string>)
    ensures AnyContains(s, ps) <==> exists k :: 0 <= k < |ps| && Contains(s, ps[k])
  {
    if ps != [] {
      AnyContainsSpec(s, ps[1..]);
      assert forall k :: 1 <= k < |ps| ==> ps[k] == ps[1..][k - 1];
    }
  }

  /** The empty string contains one of `ps` exactly when `ps` lists the empty string. */
  lemma EmptyAnyContains(ps: seq<string>)
    ensures AnyContains([], ps) <==> [] in ps
  {
    AnyContainsSpec([], ps);
    forall k | 0 <= k < |ps| ensures Contains([], ps[k]) <==> ps[k] == [] {
      if ps[k] == [] {
        assert OccursAt([], ps[k], 0);
      }
    }
  }

  /** `s.startsWith(p)`. */
  predicate StartsWith(s: string, p: string) {
    |p| <= |s| && s[..|p|] == p
  }

  /** The empty string contains only the empty string. */
  lemma EmptyContainsNothing(p: string)
    requires p != []
    ensures !Contains([], p)
  {
  }

  /** Whatever a string contains, every string around it contains too. */
  lemma ContainsInContext(a: string, s: string, b: string, p: string)
    requires Contains(s, p)
    ensures Contains(a + s + b, p)
  {
    var i :| 0 <= i <= |s| && OccursAt(s, p, i);
    assert (a + s + b)[|a| + i..|a| + i + |p|] == s[i..i + |p|];
    assert OccursAt(a + s + b, p, |a| + i);
  }

  /** A string that contains `q + p` contains `p`. */
  lemma ContainsSuffixOfNeedle(s: string, q: string, p: string)
    requires Contains(s, q + p)
    ensures Contains(s, p)
  {
    var i :| 0 <= i <= |s| && OccursAt(s, q + p, i);
    assert s[i + |q|..i + |q| + |p|] == (q + p)[|q|..];
    assert OccursAt(s, p, i + |q|);
  }

  /** `s.split(c)[0]`: the part of `s` before the first `c`. */
  function BeforeFirst(s: string, c: char): (r: string)
    ensures StartsWith(s, r)
    ensures c !in r
    ensures |r| < |s| ==> s[|r|] == c
  {
    if s == [] || s[0] == c then [] else [s[0]] + BeforeFirst(s[1..], c)
  }

  function DigitChar(d: nat): char
    requires d < 10
  {
    ('0' as int + d) as char
  }

  predicate IsDigit(c: char) { '0' <= c <= '9' }

  /** `String(n)` for a natural number: its decimal numeral. */
  function NatToString(n: nat): (r: string)
    decreases n
  {
    if n < 10 then [DigitChar(n)] else NatToString(n / 10) + [DigitChar(n % 10)]
  }

  /** `String(i)` for an integer. */
  function IntToString(i: int): string {
    if i < 0 then "-" + NatToString(-i) else NatToString(i)
  }

  /** The number a string of decimal digits denotes. */
  function DigitsValue(s: string): nat
    requires forall k :: 0 <= k < |s| ==> IsDigit(s[k])
  {
    if s == [] then 0
    else
      var last := s[|s| - 1];
      assert IsDigit(last);
      10 * DigitsValue(s[..|s| - 1]) + (last as int - '0' as int)
  }

  /** `NatToString(n)` is the canonical numeral of `n`: digits only, no leading zero, value `n`. */
  lemma {:induction false} NatToStringIsNumeral(n: nat)
    ensures var s := NatToString(n);
      && 0 < |s|
      && (forall k :: 0 <= k < |s| ==> IsDigit(s[k]))
      && (|s| > 1 ==> s[0] != '0')
      && DigitsValue(s) == n
  {
    if n >= 10 {
      NatToStringIsNumeral(n / 10);
      var s := NatToString(n);
      assert s[..|s| - 1] == NatToString(n / 10);
      assert DigitsValue(s) == 10 * (n / 10) + n % 10;
    }
  }

  /** Distinct numbers have distinct numerals. */
  lemma NatToStringInjective(m: nat, n: nat)
    requires NatToString(m) == NatToString(n)
    ensures m == n
  {
    NatToStringIsNumeral(m);
    NatToStringIsNumeral(n);
  }
}
