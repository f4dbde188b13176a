/**
 * `hashCode`: the 32-bit string hash behind the symbol cache keys, and
 * `hashAndStringify`, which hashes a style's serialised text.
 */
module Hashing {
  import opened Wrappers
  import opened JsValues

  const TwoTo31: int := 0x8000_0000
  const TwoTo32: int := 0x1_0000_0000

  /** A value of a signed 32-bit integer. */
  predicate IsInt32(x: int)
  {
    -TwoTo31 <= x < TwoTo31
  }

  /** The two's-complement truncation `x | 0`: the int32 congruent to `x` modulo 2^32. */
  function ToInt32(x: int): (r: int)
    ensures IsInt32(r)
    ensures (r - x) % TwoTo32 == 0
    ensures IsInt32(x) ==> r == x
  {
    (x + TwoTo31) % TwoTo32 - TwoTo31
  }

  /** The character's code: the UTF-16 code unit `charCodeAt` reads, for characters of the Basic Multilingual Plane. */
  function CharCode(c: char): int
  {
    c as int
  }

  /** `hashCode(s)`: starting from 0, each character updates the accumulator to
      `acc * 31 + charCode`, truncated to 32 bits. */
  function HashCode(s: string): (r: int)
    ensures IsInt32(r)
  {
    if s == [] then 0
    else ToInt32(31 * HashCode(s[..|s| - 1]) + CharCode(s[|s| - 1]))
  }

  /** The same sum without truncation: sum of `charCode(s[i]) * 31^(|s|-1-i)`. */
  function PolyHash(s: string): int
  {
    if s == [] then 0
    else 31 * PolyHash(s[..|s| - 1]) + CharCode(s[|s| - 1])
  }

  /** Congruent integers truncate to the same int32. */
  lemma ToInt32Congruent(a: int, b: int)
    requires (a - b) % TwoTo32 == 0
    ensures ToInt32(a) == ToInt32(b)
  {
    var k := (a - b) / TwoTo32;
    assert a == b + k * TwoTo32;
    assert (a + TwoTo31) % TwoTo32 == (b + TwoTo31 + k * TwoTo32) % TwoTo32;
    ModShift(b + TwoTo31, k);
  }

  lemma ModShift(x: int, k: int)
    ensures (x + k * TwoTo32) % TwoTo32 == x % TwoTo32
  {
  }

  /** The hash is the polynomial hash wrapped to 32 bits: truncating at every step
      gives the same result as truncating once at the end. */
  lemma {:induction false} HashIsWrappedPolynomial(s: string)
    ensures HashCode(s) == ToInt32(PolyHash(s))
    ensures IsInt32(HashCode(s))
  {
    if s != [] {
      var p := s[..|s| - 1];
      var c := CharCode(s[|s| - 1]);
      HashIsWrappedPolynomial(p);
      var h, q := HashCode(p), PolyHash(p);
      assert (h - q) % TwoTo32 == 0;
      var k := (h - q) / TwoTo32;
      assert h - q == k * TwoTo32;
      assert (31 * h + c) - (31 * q + c) == (31 * k) * TwoTo32;
      ModShift(0, 31 * k);
      ToInt32Congruent(31 * h + c, 31 * q + c);
      assert ToInt32(31 * q + c) == ToInt32(PolyHash(s));
    }
  }

  /** While the polynomial stays in int32 range nothing wraps and the hash is the plain sum. */
  lemma NoWrapForSmallSums(s: string)
    requires IsInt32(PolyHash(s))
    ensures HashCode(s) == PolyHash(s)
  {
    HashIsWrappedPolynomial(s);
  }

  /** The loop of `hashCode`, one character at a time. */
  method HashCodeLoop(s: string) returns (hash: int)
    ensures hash == HashCode(s)
    ensures IsInt32(hash)
  {
    hash := 0;
    for i := 0 to |s|
      invariant hash == HashCode(s[..i])
    {
      assert s[..i + 1][..i] == s[..i];
      hash := ToInt32(31 * hash + CharCode(s[i]));
    }
    assert s[..|s|] == s;
  }

  /** `hashAndStringify(style)`: the hash of the style's serialised text; without a style it throws. */
  function HashAndStringify(style: Option<Fields>, stringify: Fields -> string): (r: Result<int>)
    ensures style.None? <==> r == Err("hashAndStringify: specify mandatory params: style")
    ensures style.Some? ==> r.Ok? && IsInt32(r.value) && r.value == ToInt32(PolyHash(stringify(style.value)))
  {
    match style
    case None => Err("hashAndStringify: specify mandatory params: style")
    case Some(st) =>
      HashIsWrappedPolynomial(stringify(st));
      Ok(HashCode(stringify(st)))
  }

  /** hashCode("str") is 114225 = (115 * 31 + 116) * 31 + 114. */
  lemma HashOfStr()
    ensures HashCode("str") == 114225
  {
    assert "str"[..2] == "st";
    assert "st"[..1] == "s";
    assert "s"[..0] == "";
  }
}
