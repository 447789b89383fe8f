/**
 * Java's 32-bit hash arithmetic: `String.hashCode` and the `Objects.hashCode(a, b, ...)`
 * combination that both `PosixPermission` and the cache `Key` use.
 */
module JavaHash {

  const TWO32: int := 0x1_0000_0000
  const MIN_INT: int := -0x8000_0000
  const MAX_INT: int := 0x7fff_ffff

  predicate IsInt(x: int) {
    MIN_INT <= x <= MAX_INT
  }

  /** Two's-complement wrap-around of an unbounded integer into Java's `int`. */
  function Wrap32(x: int): (r: int)
    ensures IsInt(r)
    ensures (x - r) % TWO32 == 0
    ensures IsInt(x) ==> r == x
  {
    var m := x % TWO32;
    if m > MAX_INT then m - TWO32 else m
  }

  /** Wrapping is insensitive to adding a multiple of 2^32. */
  lemma WrapShift(x: int, k: int)
    ensures Wrap32(x + TWO32 * k) == Wrap32(x)
  {
    assert (x + TWO32 * k) % TWO32 == x % TWO32;
  }

  /** `String.hashCode`: h = 31 * h + c over the characters, in `int` arithmetic. */
  function StringHash(s: string): (h: int)
    ensures IsInt(h)
  {
    if s == [] then 0 else Wrap32(31 * StringHash(s[..|s| - 1]) + s[|s| - 1] as int)
  }

  /** The same polynomial, s[0]*31^(n-1) + ... + s[n-1], without wrap-around. */
  function Polynomial(s: string): int
  {
    if s == [] then 0 else 31 * Polynomial(s[..|s| - 1]) + s[|s| - 1] as int
  }

  /** Wrapping after every step gives the wrapped value of the exact polynomial. */
  lemma {:induction false} StringHashIsPolynomial(s: string)
    ensures StringHash(s) == Wrap32(Polynomial(s))
  {
    if s != [] {
      var p := s[..|s| - 1];
      var c := s[|s| - 1] as int;
      StringHashIsPolynomial(p);
      var w := Wrap32(Polynomial(p));
      var k := (Polynomial(p) - w) / TWO32;
      assert Polynomial(p) == w + TWO32 * k;
      assert 31 * Polynomial(p) + c == (31 * w + c) + TWO32 * (31 * k);
      WrapShift(31 * w + c, 31 * k);
    }
  }

  /** `Arrays.hashCode` over the elements' hash codes: r = 31 * r + h, starting at 1. */
  function CombineHashes(hs: seq<int>): (h: int)
    ensures IsInt(h)
  {
    if hs == [] then 1 else Wrap32(31 * CombineHashes(hs[..|hs| - 1]) + hs[|hs| - 1])
  }
}
