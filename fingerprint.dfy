/**
  The browser fingerprint of the tagger: a 32-bit FNV-1a hash over the UTF-16
  code units of `userAgent|WxH|timeZone|plugins|cores`, printed in base 36.
 */
module Fingerprint {
  import opened Wrappers
  import opened JsStrings

  /** What the tagger reads from the browser; absent or empty values are `None` or 0. */
  datatype Env = Env(userAgent: Option<string>, screenWidth: nat, screenHeight: nat,
                     timeZone: Option<string>, plugins: nat, cores: nat)

  /** A string value or `'unknown'` when it is absent or empty. */
  function OrUnknown(s: Option<string>): (r: string)
    ensures r != []
    ensures s.Some? && s.value != [] ==> r == s.value
  {
    if s.Some? && s.value != [] then s.value else "unknown"
  }

  function Decimal(n: nat): string {
    ToRadix(n, 10)
  }

  /** The `|`-joined tuple the hash is taken over. */
  function HashInput(env: Env): string {
    OrUnknown(env.userAgent) + "|" + Decimal(env.screenWidth) + "x" + Decimal(env.screenHeight)
    + "|" + OrUnknown(env.timeZone) + "|" + Decimal(env.plugins) + "|" + Decimal(env.cores)
  }

  /** The UTF-16 code units of one character, as `charCodeAt` sees them. */
  function CodeUnits(c: char): (r: seq<bv16>)
    ensures 1 <= |r| <= 2
    ensures |r| == 1 <==> (c as int) < 0x10000
  {
    var v := c as int;
    if v < 0x10000 then [v as bv16]
    else [(0xD800 + (v - 0x10000) / 0x400) as bv16, (0xDC00 + (v - 0x10000) % 0x400) as bv16]
  }

  /** The UTF-16 code units of a string. */
  function Utf16(s: string): (r: seq<bv16>)
    ensures |s| <= |r| <= 2 * |s|
  {
    if s == [] then [] else CodeUnits(s[0]) + Utf16(s[1..])
  }

  /** The 32-bit FNV-1a offset basis and prime. */
  const OffsetBasis: bv32 := 2166136261
  const Prime: bv32 := 16777619

  /** One FNV-1a round: xor in the code unit, then multiply modulo 2^32. */
  function FnvStep(h: bv32, u: bv16): bv32 {
    (h ^ (u as bv32)) * Prime
  }

  /** The FNV-1a hash of a sequence of code units, one round per unit from the left. */
  function Fnv1a(units: seq<bv16>): bv32 {
    if units == [] then OffsetBasis else FnvStep(Fnv1a(units[..|units| - 1]), units[|units| - 1])
  }

  /** Hashing `a + b` continues the rounds of `a` with those of `b`. */
  function FnvFrom(h: bv32, units: seq<bv16>): bv32
    decreases |units|
  {
    if units == [] then h else FnvFrom(FnvStep(h, units[0]), units[1..])
  }

  lemma {:induction false} FnvFromSnoc(h: bv32, units: seq<bv16>, u: bv16)
    ensures FnvFrom(h, units + [u]) == FnvStep(FnvFrom(h, units), u)
    decreases |units|
  {
    if units != [] {
      assert (units + [u])[1..] == units[1..] + [u];
      FnvFromSnoc(FnvStep(h, units[0]), units[1..], u);
    }
  }

  /** The left-to-right reading agrees with the basis-first fold. */
  lemma {:induction false} FnvFromBasis(units: seq<bv16>)
    ensures FnvFrom(OffsetBasis, units) == Fnv1a(units)
    decreases |units|
  {
    if units != [] {
      var init := units[..|units| - 1];
      FnvFromBasis(init);
      FnvFromSnoc(OffsetBasis, init, units[|units| - 1]);
      assert init + [units[|units| - 1]] == units;
    }
  }

  /** Hashing a concatenation resumes from the hash of the first part. */
  lemma {:induction false} FnvConcat(a: seq<bv16>, b: seq<bv16>)
    ensures Fnv1a(a + b) == FnvFrom(Fnv1a(a), b)
    decreases |b|
  {
    if b == [] {
      assert a + b == a;
    } else {
      var init := b[..|b| - 1];
      FnvConcat(a, init);
      FnvFromSnoc(Fnv1a(a), init, b[|b| - 1]);
      assert (a + b)[..|a + b| - 1] == a + init;
      assert init + [b[|b| - 1]] == b;
    }
  }

  /** The published FNV-1a test vector: the hash of `"a"` is `0xe40c292c`. */
  lemma TestVectorA()
    ensures Fnv1a(Utf16("a")) == 0xe40c292c
  {
    assert Utf16("a") == [0x61];
    assert Fnv1a([0x61]) == FnvStep(OffsetBasis, 0x61);
  }

  const FingerprintPrefix: string := "fp_"
  const FallbackPrefix: string := "fp_unknown_"

  /** The fingerprint of an environment whose reads all succeed. */
  function FingerprintOf(env: Env): string {
    FingerprintPrefix + ToRadix(HashOf(env), 36)
  }

  /** The hash of an environment as the unsigned number `h >>> 0`. */
  function HashOf(env: Env): nat {
    Fnv1a(Utf16(HashInput(env))) as nat
  }

  /** The fallback value when reading the environment throws, from a random draw in [0, 1). */
  function FallbackOf(draw: real): string
    requires 0.0 <= draw < 1.0
  {
    FallbackPrefix + Decimal(FallbackNumber(draw))
  }

  function FallbackNumber(draw: real): (n: nat)
    requires 0.0 <= draw < 1.0
    ensures n < 100000
  {
    (draw * 100000.0).Floor
  }

  /**
    `generateFingerprint`. `env` is `None` when one of the browser reads throws;
    `draw` is the `Math.random()` value used only on that path.
   */
  method GenerateFingerprint(env: Option<Env>, draw: real) returns (fp: string)
    requires 0.0 <= draw < 1.0
    ensures env.Some? ==> fp == FingerprintOf(env.value)
    ensures env.None? ==> fp == FallbackOf(draw)
  {
    if env.None? {
      return FallbackOf(draw);
    }
    var units := Utf16(HashInput(env.value));
    var h: bv32 := OffsetBasis;
    for i := 0 to |units|
      invariant h == Fnv1a(units[..i])
    {
      assert units[..i + 1][..i] == units[..i];
      h := FnvStep(h, units[i]);
    }
    assert units[..|units|] == units;
    fp := FingerprintPrefix + ToRadix(h as nat, 36);
  }

  /** The hash can be read back from a computed fingerprint. */
  lemma FingerprintRoundTrip(env: Env)
    ensures var fp := FingerprintOf(env);
      |fp| > 3 && fp[..3] == FingerprintPrefix
      && FromRadix(fp[3..], 36) == HashOf(env)
  {
    var digits := ToRadix(HashOf(env), 36);
    assert (FingerprintPrefix + digits)[3..] == digits;
    RadixRoundTrip(HashOf(env), 36);
  }

  /** A computed fingerprint is never mistaken for a fallback one. */
  lemma FingerprintNotFallback(env: Env, draw: real)
    requires 0.0 <= draw < 1.0
    ensures FingerprintOf(env) != FallbackOf(draw)
  {
    PrefixedNotFallback(HashOf(env), FallbackNumber(draw));
  }

  lemma PrefixedNotFallback(h: nat, n: nat)
    ensures FingerprintPrefix + ToRadix(h, 36) != FallbackPrefix + Decimal(n)
  {
    var digits := ToRadix(h, 36);
    var fb := FallbackPrefix + Decimal(n);
    if |digits| > 8 {
      assert (FingerprintPrefix + digits)[10] == digits[7];
      assert IsDigitChar(digits[7], 36);
      assert fb[10] == '_';
    } else {
      assert |FingerprintPrefix + digits| < |fb|;
    }
  }

  /** Different hashes give different fingerprints. */
  lemma FingerprintDistinguishesHashes(e1: Env, e2: Env)
    requires HashOf(e1) != HashOf(e2)
    ensures FingerprintOf(e1) != FingerprintOf(e2)
  {
    PrefixedInjective(HashOf(e1), HashOf(e2));
  }

  lemma PrefixedInjective(m: nat, n: nat)
    requires m != n
    ensures FingerprintPrefix + ToRadix(m, 36) != FingerprintPrefix + ToRadix(n, 36)
  {
    var dm := ToRadix(m, 36);
    var dn := ToRadix(n, 36);
    if FingerprintPrefix + dm == FingerprintPrefix + dn {
      assert (FingerprintPrefix + dm)[3..] == dm;
      assert (FingerprintPrefix + dn)[3..] == dn;
      RadixInjective(m, n, 36);
    }
  }
}
