/**
 * Definitions shared by the three parts of the model: an option type, the
 * C integer conversions and operators the sources rely on, and the copy of
 * a run of bytes into a buffer.
 */
module Common {

  datatype Option<T> = None | Some(value: T)

  /** Conversion of an integer to `s8`: two's complement truncation. */
  function S8(x: int): (r: int)
    ensures -0x80 <= r < 0x80
    ensures (x - r) % 0x100 == 0
    ensures -0x80 <= x < 0x80 ==> r == x
  {
    (x + 0x80) % 0x100 - 0x80
  }

  /** Conversion of an integer to `s16`: two's complement truncation. */
  function S16(x: int): (r: int)
    ensures -0x8000 <= r < 0x8000
    ensures (x - r) % 0x1_0000 == 0
    ensures -0x8000 <= x < 0x8000 ==> r == x
  {
    (x + 0x8000) % 0x1_0000 - 0x8000
  }

  /** Conversion of an integer to `u8`. */
  function U8(x: int): (r: nat)
    ensures r < 0x100
    ensures (x - r) % 0x100 == 0
    ensures 0 <= x < 0x100 ==> r == x
  {
    x % 0x100
  }

  /** Conversion of an integer to `u16`. */
  function U16(x: int): (r: nat)
    ensures r < 0x1_0000
    ensures (x - r) % 0x1_0000 == 0
    ensures 0 <= x < 0x1_0000 ==> r == x
  {
    x % 0x1_0000
  }

  /** Conversion of an integer to `u32`: the arithmetic of C's unsigned 32-bit type. */
  function U32(x: int): (r: nat)
    ensures r < 0x1_0000_0000
    ensures (x - r) % 0x1_0000_0000 == 0
    ensures 0 <= x < 0x1_0000_0000 ==> r == x
  {
    x % 0x1_0000_0000
  }

  /** C's `%` on signed operands, which truncates toward zero (Dafny's `%` is Euclidean). */
  function CRem(a: int, b: int): (r: int)
    requires b > 0
    ensures a >= 0 ==> r == a % b
    ensures a < 0 ==> -b < r <= 0
  {
    if a >= 0 then a % b else -((-a) % b)
  }

  // ---------------------------------------------------------------------
  // Byte buffers.
  // ---------------------------------------------------------------------

  /** A number below 256 converted to a byte and back is the number. */
  lemma ByteOfSmall(x: int)
    requires 0 <= x < 256
    ensures (x as bv8) as int == x
  {
    assert x % 256 == x;
  }

  /** A byte converted to a number and back is the byte. */
  lemma SmallOfByte(b: bv8)
    ensures (b as nat) as bv8 == b
  {
  }

  /** `dst` with `src` written at `at`. */
  function CopyInto(dst: seq<bv8>, at: nat, src: seq<bv8>): (r: seq<bv8>)
    requires at + |src| <= |dst|
    ensures |r| == |dst|
  {
    seq(|dst|, k requires 0 <= k < |dst| => if at <= k < at + |src| then src[k - at] else dst[k])
  }

  /** The written span of a copy holds the source. */
  lemma CopyIntoSpan(d: seq<bv8>, at: nat, src: seq<bv8>)
    requires at + |src| <= |d|
    ensures CopyInto(d, at, src)[at .. at + |src|] == src
  {
  }

  /** A copy leaves a span it does not touch as it was. */
  lemma CopyIntoOutside(d: seq<bv8>, at: nat, src: seq<bv8>, lo: nat, hi: nat)
    requires at + |src| <= |d| && lo <= hi <= |d| && (hi <= at || at + |src| <= lo)
    ensures CopyInto(d, at, src)[lo .. hi] == d[lo .. hi]
  {
  }

  /** Up to the end of the written span, a copy is what came before the span followed by the source. */
  lemma CopyIntoPrefix(d: seq<bv8>, at: nat, src: seq<bv8>)
    requires at + |src| <= |d|
    ensures CopyInto(d, at, src)[..at + |src|] == d[..at] + src
  {
    var r := CopyInto(d, at, src)[..at + |src|];
    forall k | 0 <= k < at + |src|
      ensures r[k] == (d[..at] + src)[k]
    {
      CopyIntoAt(d, at, src, k);
    }
  }

  /** Byte k after a copy: from the source inside the written span, as before outside it. */
  lemma CopyIntoAt(d: seq<bv8>, at: nat, src: seq<bv8>, k: nat)
    requires at + |src| <= |d| && k < |d|
    ensures CopyInto(d, at, src)[k] == if at <= k < at + |src| then src[k - at] else d[k]
  {
    if at <= k < at + |src| {
      assert CopyInto(d, at, src)[k] == CopyInto(d, at, src)[at .. at + |src|][k - at];
    }
  }

  /** A copy over the whole sequence is the source. */
  lemma CopyIntoWhole(d: seq<bv8>, src: seq<bv8>)
    requires |src| == |d|
    ensures CopyInto(d, 0, src) == src
  {
    assert CopyInto(d, 0, src) == CopyInto(d, 0, src)[0 .. |src|];
  }

  /** Writing two adjacent pieces is writing their concatenation. */
  lemma CopyIntoAdjacent(d: seq<bv8>, at: nat, a: seq<bv8>, b: seq<bv8>)
    requires at + |a| + |b| <= |d|
    ensures CopyInto(CopyInto(d, at, a), at + |a|, b) == CopyInto(d, at, a + b)
  {
    var lhs := CopyInto(CopyInto(d, at, a), at + |a|, b);
    var rhs := CopyInto(d, at, a + b);
    forall k | 0 <= k < |d|
      ensures lhs[k] == rhs[k]
    {
      if at <= k < at + |a| {
        assert lhs[k] == CopyInto(d, at, a)[at .. at + |a|][k - at];
        assert rhs[k] == rhs[at .. at + |a| + |b|][k - at];
      } else if at + |a| <= k < at + |a| + |b| {
        assert lhs[k] == lhs[at + |a| .. at + |a| + |b|][k - at - |a|];
        assert rhs[k] == rhs[at .. at + |a| + |b|][k - at];
      }
    }
  }
}
