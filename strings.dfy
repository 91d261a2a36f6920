/** The few JavaScript string primitives the core relies on: `includes`, `trim`, the `\s`
    character class, and the decimal rendering of a non-negative integer in a template string. */
module Strings {

  /** The characters JavaScript's `trim` removes and its regular expression `\s` matches:
      the WhiteSpace and LineTerminator code points of ECMAScript. */
  predicate IsWhitespace(c: char) {
    c == '\t' || c == '\n' || c == '\U{000B}' || c == '\U{000C}' || c == '\r' || c == ' '
    || c == '\U{00A0}' || c == '\U{1680}' || ('\U{2000}' <= c <= '\U{200A}')
    || c == '\U{2028}' || c == '\U{2029}' || c == '\U{202F}' || c == '\U{205F}'
    || c == '\U{3000}' || c == '\U{FEFF}'
  }

  predicate NoWhitespace(s: string) {
    forall i :: 0 <= i < |s| ==> !IsWhitespace(s[i])
  }

  function TrimStart(s: string): string {
    if |s| > 0 && IsWhitespace(s[0]) then TrimStart(s[1..]) else s
  }

  function TrimEnd(s: string): string {
    if |s| > 0 && IsWhitespace(s[|s| - 1]) then TrimEnd(s[..|s| - 1]) else s
  }

  /** `String.prototype.trim`: drops leading and trailing whitespace. */
  function Trim(s: string): string {
    TrimEnd(TrimStart(s))
  }

  lemma TrimNoWhitespace(s: string)
    requires NoWhitespace(s)
    ensures Trim(s) == s
  {
  }

  /** `s.includes(k)`: k occurs in s as a contiguous block. */
  predicate Contains(s: string, k: string)
    decreases |s|
  {
    k <= s || (|s| > 0 && Contains(s[1..], k))
  }

  /** `ks.some(k => s.includes(k))`. */
  predicate ContainsSome(s: string, ks: seq<string>) {
    exists i :: 0 <= i < |ks| && Contains(s, ks[i])
  }

  /** A name that contains a word contains every leading part of that word. */
  lemma {:induction false} ContainsPrefixOfKeyword(s: string, k: string, p: string)
    requires Contains(s, k) && p <= k
    ensures Contains(s, p)
  {
    if !(k <= s) {
      ContainsPrefixOfKeyword(s[1..], k, p);
    }
  }

  /** Every character of a contained word occurs in the containing string; the first one is
      enough to refute containment of a literal. */
  lemma {:induction false} ContainedCharsOccur(s: string, k: string, j: nat)
    requires Contains(s, k) && j < |k|
    ensures k[j] in s
  {
    if k <= s {
      assert s[j] == k[j];
    } else {
      ContainedCharsOccur(s[1..], k, j);
      assert s[1..] <= s[1..];
    }
  }

  lemma FirstCharAbsent(s: string, k: string)
    requires |k| > 0 && k[0] !in s
    ensures !Contains(s, k)
  {
    if Contains(s, k) {
      ContainedCharsOccur(s, k, 0);
    }
  }

  function DigitChar(d: nat): (c: char)
    requires d < 10
  {
    "0123456789"[d]
  }

  /** The decimal text of a non-negative integer, as a template string `${n}` renders it. */
  function NatToString(n: nat): (r: string)
    decreases n
    ensures |r| > 0
    ensures forall i :: 0 <= i < |r| ==> '0' <= r[i] <= '9'
    ensures n >= 10 ==> r[0] != '0'
  {
    if n < 10 then [DigitChar(n)] else NatToString(n / 10) + [DigitChar(n % 10)]
  }

  lemma DigitCharInjective(a: nat, b: nat)
    requires a < 10 && b < 10 && DigitChar(a) == DigitChar(b)
    ensures a == b
  {
    var digits := "0123456789";
    assert forall i, j :: 0 <= i < j < 10 ==> digits[i] != digits[j];
  }

  /** Different numbers render as different texts. */
  lemma {:induction false} NatToStringInjective(a: nat, b: nat)
    requires NatToString(a) == NatToString(b)
    ensures a == b
    decreases a
  {
    var r := NatToString(a);
    if a < 10 && b < 10 {
      DigitCharInjective(a, b);
    } else if a >= 10 && b >= 10 {
      assert r[..|r| - 1] == NatToString(a / 10) && r[..|r| - 1] == NatToString(b / 10);
      NatToStringInjective(a / 10, b / 10);
      DigitCharInjective(a % 10, b % 10);
    }
  }
}
