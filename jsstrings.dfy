/**
  The few JavaScript string built-ins the modelled code relies on:
  `trim`, `toLowerCase` (ASCII part), `startsWith`, `split(sep)[0]`,
  the anchored slash-stripping regular expressions, and
  `Number.prototype.toString(radix)` for non-negative integers.
 */
module JsStrings {

  /** The WhiteSpace and LineTerminator code points of ECMAScript, which `trim` removes. */
  predicate IsJsSpace(c: char) {
    c == '\t' || c == '\n' || c == '\U{B}' || c == '\U{C}' || c == '\r' || c == ' '
    || c == '\U{A0}' || c == '\U{1680}' || ('\U{2000}' <= c <= '\U{200A}')
    || c == '\U{2028}' || c == '\U{2029}' || c == '\U{202F}' || c == '\U{205F}'
    || c == '\U{3000}' || c == '\U{FEFF}'
  }

  predicate IsSlash(c: char) { c == '/' }

  /** Removes the longest prefix whose characters all satisfy `p`. */
  function DropLeading(s: string, p: char -> bool): string {
    if s != [] && p(s[0]) then DropLeading(s[1..], p) else s
  }

  /** Removes the longest suffix whose characters all satisfy `p`. */
  function DropTrailing(s: string, p: char -> bool): string {
    if s != [] && p(s[|s| - 1]) then DropTrailing(s[..|s| - 1], p) else s
  }

  /** `DropLeading` keeps a suffix, drops only characters satisfying `p`, and stops at the first that does not. */
  lemma {:induction false} DropLeadingSpec(s: string, p: char -> bool)
    ensures var r := DropLeading(s, p);
      |r| <= |s| && r == s[|s| - |r|..]
      && (forall i :: 0 <= i < |s| - |r| ==> p(s[i]))
      && (r != [] ==> !p(r[0]))
  {
    if s != [] && p(s[0]) {
      DropLeadingSpec(s[1..], p);
      var r := DropLeading(s, p);
      forall i | 0 <= i < |s| - |r| ensures p(s[i]) {
        if i > 0 { assert s[i] == s[1..][i - 1]; }
      }
    }
  }

  /** `DropTrailing` keeps a prefix, drops only characters satisfying `p`, and stops at the last that does not. */
  lemma {:induction false} DropTrailingSpec(s: string, p: char -> bool)
    ensures var r := DropTrailing(s, p);
      |r| <= |s| && r == s[..|r|]
      && (forall i :: |r| <= i < |s| ==> p(s[i]))
      && (r != [] ==> !p(r[|r| - 1]))
  {
    if s != [] && p(s[|s| - 1]) {
      DropTrailingSpec(s[..|s| - 1], p);
      var r := DropTrailing(s, p);
      forall i | |r| <= i < |s| ensures p(s[i]) {
        if i < |s| - 1 { assert s[i] == s[..|s| - 1][i]; }
      }
    }
  }

  /** `String.prototype.trim`. */
  function Trim(s: string): string {
    DropTrailing(DropLeading(s, IsJsSpace), IsJsSpace)
  }

  predicate StartsWith(s: string, prefix: string) {
    |prefix| <= |s| && s[..|prefix|] == prefix
  }

  /** `s.split(sep)[0]`: everything before the first `sep`, or all of `s`. */
  function FirstSegment(s: string, sep: char): (r: string)
    ensures |r| <= |s| && r == s[..|r|]
    ensures sep !in r
    ensures |r| < |s| ==> s[|r|] == sep
  {
    if s == [] || s[0] == sep then [] else [s[0]] + FirstSegment(s[1..], sep)
  }

  /** The first segment of `a + sep + b` is `a` when `a` has no separator. */
  lemma {:induction false} FirstSegmentOfJoin(a: string, sep: char, b: string)
    requires sep !in a
    ensures FirstSegment(a + [sep] + b, sep) == a
  {
    if a != [] {
      assert (a + [sep] + b)[1..] == a[1..] + [sep] + b;
      FirstSegmentOfJoin(a[1..], sep, b);
    }
  }

  function LowerChar(c: char): char {
    if 'A' <= c <= 'Z' then (c as int + 32) as char else c
  }

  /** `toLowerCase` restricted to the ASCII letters. */
  function ToLower(s: string): (r: string)
    ensures |r| == |s|
    ensures forall i :: 0 <= i < |s| ==> r[i] == LowerChar(s[i])
  {
    seq(|s|, i requires 0 <= i < |s| => LowerChar(s[i]))
  }

  /** The digit characters used by `toString(radix)`: `0`-`9` then `a`-`z`. */
  function DigitChar(d: nat): (c: char)
    requires d < 36
  {
    if d < 10 then ('0' as int + d) as char else ('a' as int + d - 10) as char
  }

  predicate IsDigitChar(c: char, base: nat) {
    ('0' <= c <= '9' && (c as int - '0' as int) < base)
    || ('a' <= c <= 'z' && (c as int - 'a' as int) + 10 < base)
  }

  function DigitValue(c: char): nat {
    if '0' <= c <= '9' then c as int - '0' as int
    else if 'a' <= c <= 'z' then c as int - 'a' as int + 10
    else 0
  }

  /** `n.toString(base)` for a non-negative integer `n`. */
  function ToRadix(n: nat, base: nat): (r: string)
    requires 2 <= base <= 36
    ensures r != []
    ensures forall i :: 0 <= i < |r| ==> IsDigitChar(r[i], base)
    ensures r[0] == '0' ==> n == 0
    decreases n
  {
    if n < base then [DigitChar(n)]
    else
      DivModFacts(n, base);
      ToRadix(n / base, base) + [DigitChar(n % base)]
  }

  lemma DivModFacts(n: nat, base: nat)
    requires 2 <= base <= 36 && base <= n
    ensures 0 < n / base < n && n % base < base
    ensures (n / base) * base + n % base == n
  {
  }

  /** The value of a string of digits in the given base (the reading of `parseInt(s, base)`). */
  function FromRadix(s: string, base: nat): nat {
    if s == [] then 0 else FromRadix(s[..|s| - 1], base) * base + DigitValue(s[|s| - 1])
  }

  lemma DigitRoundTrip(d: nat, base: nat)
    requires d < base <= 36
    ensures DigitValue(DigitChar(d)) == d && IsDigitChar(DigitChar(d), base)
  {
  }

  /** Printing a number and reading it back gives the number. */
  lemma {:induction false} RadixRoundTrip(n: nat, base: nat)
    requires 2 <= base <= 36
    ensures FromRadix(ToRadix(n, base), base) == n
    decreases n
  {
    var s := ToRadix(n, base);
    if n < base {
      DigitRoundTrip(n, base);
      assert s[..|s| - 1] == [];
    } else {
      DivModFacts(n, base);
      RadixRoundTrip(n / base, base);
      DigitRoundTrip(n % base, base);
      assert s[..|s| - 1] == ToRadix(n / base, base);
    }
  }

  /** Different numbers print differently. */
  lemma RadixInjective(m: nat, n: nat, base: nat)
    requires 2 <= base <= 36
    requires ToRadix(m, base) == ToRadix(n, base)
    ensures m == n
  {
    RadixRoundTrip(m, base);
    RadixRoundTrip(n, base);
  }
}
