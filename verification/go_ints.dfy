/** Go's fixed-width integer arithmetic, written out over Dafny's unbounded
    integers: two's-complement wrap-around of conversions, division and
    remainder that truncate toward zero, truncation of a float toward zero, and
    little-endian byte layout. */
module GoInts {

  /** A Go `byte` (uint8). */
  type u8 = x: int | 0 <= x < 256

  const MaxInt64: int := 0x7FFF_FFFF_FFFF_FFFF
  const MinInt64: int := -0x8000_0000_0000_0000

  /** 2^(8w): one more than the largest value that fits in w bytes. */
  function Pow256(w: nat): (p: int)
    ensures p >= 1
  {
    if w == 0 then 1 else 256 * Pow256(w - 1)
  }

  /** Go's conversion of an integer to a signed type of `m` values
      (`int8(x)` is `Wrap(0x100, x)`): keep the low bits and reinterpret them
      in two's complement. */
  function Wrap(m: int, x: int): (r: int)
    requires m >= 2 && m % 2 == 0
    ensures -(m / 2) <= r < m / 2
  {
    var low := x % m;
    if low >= m / 2 then low - m else low
  }

  /** Go's conversion of an integer to an unsigned type of `m` values. */
  function WrapUnsigned(m: int, x: int): (r: int)
    requires m >= 1
    ensures 0 <= r < m
  {
    x % m
  }

  /** Go's integer `/`: the quotient truncated toward zero. */
  function Quo(a: int, b: int): (q: int)
    requires b != 0
    ensures a >= 0 && b > 0 ==> q == a / b
  {
    var n := (if a < 0 then -a else a) / (if b < 0 then -b else b);
    if (a < 0) == (b < 0) then n else -n
  }

  /** Go's integer `%`: the remainder takes the sign of the dividend. */
  function Rem(a: int, b: int): int
    requires b != 0
  {
    a - b * Quo(a, b)
  }

  /** Go's conversion of a float to an integer type: truncation toward zero. */
  function Trunc(r: real): (i: int)
    ensures r >= 0.0 ==> i as real <= r < i as real + 1.0
    ensures r < 0.0 ==> i as real - 1.0 < r <= i as real
  {
    if r >= 0.0 then r.Floor else -((-r).Floor)
  }

  /** The `w` low bytes of `v`, least significant first: byte k is
      `byte(v >> (8*k))`. */
  function LittleEndian(v: int, w: nat): (bs: seq<u8>)
    ensures |bs| == w
    decreases w
  {
    if w == 0 then [] else [v % 256] + LittleEndian(v / 256, w - 1)
  }

  /** The unsigned integer whose little-endian bytes are `bs`. */
  function FromLittleEndian(bs: seq<u8>): (v: int)
    ensures 0 <= v < Pow256(|bs|)
  {
    if bs == [] then 0 else bs[0] + 256 * FromLittleEndian(bs[1..])
  }

  /** Packing a value that fits in `w` bytes and reading the bytes back
      gives the value again. */
  lemma {:induction false} LittleEndianRoundTrip(v: int, w: nat)
    requires 0 <= v < Pow256(w)
    ensures FromLittleEndian(LittleEndian(v, w)) == v
  {
    if w > 0 {
      LittleEndianRoundTrip(v / 256, w - 1);
      assert LittleEndian(v, w)[1..] == LittleEndian(v / 256, w - 1);
    }
  }

  /** Bit `i` of byte `b` is set: Go's `b & (1 << i) != 0`. */
  predicate BitSet(b: u8, i: int)
    requires 0 <= i < 8
  {
    (b / Pow2(i)) % 2 == 1
  }

  function Pow2(i: nat): (p: int)
    ensures p >= 1
  {
    if i == 0 then 1 else 2 * Pow2(i - 1)
  }
}
