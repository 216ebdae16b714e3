/**
 * Little-endian assembly of multi-byte integers (`convertFromLittleEndian`, and the explicit
 * shifts of the 64-bit Unix time) and the shift-and-mask extraction of bit fields, over
 * unbounded integers: a byte stored at a higher address weighs 256 times more. The encoders
 * are their inverses, used to state what the decoders recover.
 */
module ByteCodec {
  import opened FixedWidth

  function Pow2(n: nat): (p: nat)
    ensures p >= 1
  {
    if n == 0 then 1 else 2 * Pow2(n - 1)
  }

  /** `(x >> shift) & (2^width - 1)`: the `width` bits of `x` starting at bit `shift`. */
  function Bits(x: nat, shift: nat, width: nat): (r: nat)
    ensures r < Pow2(width)
  {
    (x / Pow2(shift)) % Pow2(width)
  }

  /** `k` whole `m`s, for `k` at least one, are at least `m`. */
  lemma {:induction false} MulAtLeast(m: int, k: int)
    requires m > 0 && k >= 1
    ensures m * k >= m
    decreases k
  {
    if k > 1 {
      MulAtLeast(m, k - 1);
      assert m * k == m * (k - 1) + m;
    }
  }

  /** Division by `m` of `q` whole `m`s and a remainder `a` below `m`. */
  lemma DivModUnique(w: int, m: int, q: int, a: int)
    requires m > 0 && 0 <= a < m && w == a + m * q
    ensures w / m == q && w % m == a
  {
    var q', a' := w / m, w % m;
    assert w == m * q' + a' && 0 <= a' < m;
    assert m * (q - q') == a' - a;
    if q - q' >= 1 {
      MulAtLeast(m, q - q');
    } else if q' - q >= 1 {
      MulAtLeast(m, q' - q);
    }
  }

  /** A 16-bit value from the two bytes at `at`, low byte first. */
  function LE16(d: seq<uint8>, at: nat): uint16
    requires at + 2 <= |d|
  {
    (d[at] as int + 0x100 * d[at + 1] as int) as uint16
  }

  /** A 32-bit value from the four bytes at `at`, low byte first. */
  function LE32(d: seq<uint8>, at: nat): uint32
    requires at + 4 <= |d|
  {
    (LE16(d, at) as int + 0x1_0000 * LE16(d, at + 2) as int) as uint32
  }

  /**
   * A 64-bit value from the eight bytes at `at`, low byte first, each byte shifted to its
   * place and the results combined; the shifted bytes do not overlap, so `|` is `+`.
   */
  function LE64(d: seq<uint8>, at: nat): uint64
    requires at + 8 <= |d|
  {
    (d[at] as int
      + 0x100 * d[at + 1] as int
      + 0x1_0000 * d[at + 2] as int
      + 0x100_0000 * d[at + 3] as int
      + 0x1_0000_0000 * d[at + 4] as int
      + 0x100_0000_0000 * d[at + 5] as int
      + 0x1_0000_0000_0000 * d[at + 6] as int
      + 0x100_0000_0000_0000 * d[at + 7] as int) as uint64
  }

  /** The two bytes of `x`, low byte first. */
  function ToLE16(x: uint16): (b: seq<uint8>)
    ensures |b| == 2
  {
    [(x % 0x100) as uint8, (x / 0x100) as uint8]
  }

  /** The four bytes of `x`, low byte first. */
  function ToLE32(x: uint32): (b: seq<uint8>)
    ensures |b| == 4
  {
    ToLE16((x % 0x1_0000) as uint16) + ToLE16((x / 0x1_0000) as uint16)
  }

  /** The eight bytes of `x`, low byte first. */
  function ToLE64(x: uint64): (b: seq<uint8>)
    ensures |b| == 8
  {
    ToLE32((x % 0x1_0000_0000) as uint32) + ToLE32((x / 0x1_0000_0000) as uint32)
  }

  /** The value a decoder reads depends only on the bytes it covers. */
  lemma LE16Local(d: seq<uint8>, at: nat)
    requires at + 2 <= |d|
    ensures LE16(d, at) == LE16(d[at..at + 2], 0)
  {
  }

  lemma LE32Local(d: seq<uint8>, at: nat)
    requires at + 4 <= |d|
    ensures LE32(d, at) == LE32(d[at..at + 4], 0)
  {
  }

  lemma LE64Local(d: seq<uint8>, at: nat)
    requires at + 8 <= |d|
    ensures LE64(d, at) == LE64(d[at..at + 8], 0)
  {
  }

  /** The eight-byte value is the low four-byte value plus 2^32 times the high one. */
  lemma LE64Halves(d: seq<uint8>, at: nat)
    requires at + 8 <= |d|
    ensures LE64(d, at) as int == LE32(d, at) as int + 0x1_0000_0000 * LE32(d, at + 4) as int
  {
  }

  /** Decoding the bytes of `x` gives `x`. */
  lemma LE16RoundTrip(x: uint16)
    ensures LE16(ToLE16(x), 0) == x
  {
  }

  /** Encoding the value read from two bytes gives those bytes back. */
  lemma ToLE16RoundTrip(d: seq<uint8>, at: nat)
    requires at + 2 <= |d|
    ensures ToLE16(LE16(d, at)) == d[at..at + 2]
  {
  }

  lemma LE32RoundTrip(x: uint32)
    ensures LE32(ToLE32(x), 0) == x
  {
    var lo, hi := (x % 0x1_0000) as uint16, (x / 0x1_0000) as uint16;
    var b := ToLE32(x);
    LE16RoundTrip(lo);
    LE16RoundTrip(hi);
    assert b[0..2] == ToLE16(lo) && b[2..4] == ToLE16(hi);
    LE16Local(b, 0);
    LE16Local(b, 2);
  }

  lemma ToLE32RoundTrip(d: seq<uint8>, at: nat)
    requires at + 4 <= |d|
    ensures ToLE32(LE32(d, at)) == d[at..at + 4]
  {
    var x := LE32(d, at);
    assert (x % 0x1_0000) as uint16 == LE16(d, at);
    assert (x / 0x1_0000) as uint16 == LE16(d, at + 2);
    ToLE16RoundTrip(d, at);
    ToLE16RoundTrip(d, at + 2);
  }

  lemma LE64RoundTrip(x: uint64)
    ensures LE64(ToLE64(x), 0) == x
  {
    var lo, hi := (x % 0x1_0000_0000) as uint32, (x / 0x1_0000_0000) as uint32;
    var b := ToLE64(x);
    LE32RoundTrip(lo);
    LE32RoundTrip(hi);
    assert b[0..4] == ToLE32(lo) && b[4..8] == ToLE32(hi);
    LE32Local(b, 0);
    LE32Local(b, 4);
    LE64Halves(b, 0);
  }

  lemma ToLE64RoundTrip(d: seq<uint8>, at: nat)
    requires at + 8 <= |d|
    ensures ToLE64(LE64(d, at)) == d[at..at + 8]
  {
    var x := LE64(d, at);
    LE64Halves(d, at);
    assert (x % 0x1_0000_0000) as uint32 == LE32(d, at);
    assert (x / 0x1_0000_0000) as uint32 == LE32(d, at + 4);
    ToLE32RoundTrip(d, at);
    ToLE32RoundTrip(d, at + 4);
  }

  /** The low nibble `0xf & b`. */
  function LowNibble(b: uint8): (r: uint8)
    ensures r < 16
  {
    Bits(b as nat, 0, 4) as uint8
  }

  /** The high nibble `0xf & (b >> 4)`. */
  function HighNibble(b: uint8): (r: uint8)
    ensures r < 16
  {
    Bits(b as nat, 4, 4) as uint8
  }

  /** The byte whose nibbles are `lo` and `hi`. */
  function Nibbles(lo: uint8, hi: uint8): uint8
    requires lo < 16 && hi < 16
  {
    lo + 16 * hi
  }

  /** A byte splits into its nibbles and is rebuilt from them, and the nibbles of a rebuilt byte are its parts. */
  lemma NibblesRoundTrip(b: uint8, lo: uint8, hi: uint8)
    requires lo < 16 && hi < 16
    ensures Nibbles(LowNibble(b), HighNibble(b)) == b
    ensures LowNibble(Nibbles(lo, hi)) == lo && HighNibble(Nibbles(lo, hi)) == hi
  {
    assert Pow2(4) == 16;
    assert Pow2(0) == 1;
    var v := b as int;
    DivModUnique(v, 1, v, 0);
    DivModUnique(v, 16, v / 16, v % 16);
    DivModUnique(v / 16, 16, 0, v / 16);
    var w := lo as int + 16 * hi as int;
    DivModUnique(w, 1, w, 0);
    DivModUnique(w, 16, hi as int, lo as int);
    DivModUnique(hi as int, 16, 0, hi as int);
  }
}
