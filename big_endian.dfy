/** The byte layout of java.io.DataOutput / DataInput for the primitive types
    the layout message uses: big-endian two's complement `int` and `long`,
    and `float` written as the `int` that Float.floatToIntBits returns. */
module BigEndian {
  import opened JavaInts

  /** A Java `float`, kept as its IEEE-754 single-precision bit pattern. */
  type Float32 = bv32

  /** An octet as DataOutput writes it. */
  newtype byte = b: int | 0 <= b < 256

  /** The pattern Float.floatToIntBits gives every NaN. */
  const CANONICAL_NAN: bv32 := 0x7fc0_0000

  function Pow256(n: nat): (p: nat)
    ensures p >= 1
  {
    if n == 0 then 1 else 256 * Pow256(n - 1)
  }

  /** The `width` bytes of n, most significant first. */
  function ToBytes(n: nat, width: nat): (r: seq<byte>)
    requires n < Pow256(width)
    ensures |r| == width
    decreases width
  {
    if width == 0 then [] else ToBytes(n / 256, width - 1) + [(n % 256) as byte]
  }

  /** The unsigned number a sequence of bytes spells, most significant first. */
  function FromBytes(s: seq<byte>): (n: nat)
    ensures n < Pow256(|s|)
  {
    if s == [] then 0 else FromBytes(s[..|s| - 1]) * 256 + s[|s| - 1] as int
  }

  lemma {:induction false} FromBytesToBytes(n: nat, width: nat)
    requires n < Pow256(width)
    ensures FromBytes(ToBytes(n, width)) == n
    decreases width
  {
    if width > 0 {
      var q, b := n / 256, n % 256;
      DivBelow(n, Pow256(width - 1));
      FromBytesToBytes(q, width - 1);
      FromBytesSnoc(ToBytes(q, width - 1), b as byte);
    }
  }

  lemma DivBelow(n: nat, p: nat)
    requires n < 256 * p
    ensures n / 256 < p
  {
  }

  lemma FromBytesSnoc(s: seq<byte>, b: byte)
    ensures FromBytes(s + [b]) == FromBytes(s) * 256 + b as int
  {
    assert (s + [b])[..|s|] == s;
  }

  lemma {:induction false} ToBytesFromBytes(s: seq<byte>)
    ensures ToBytes(FromBytes(s), |s|) == s
  {
    if s != [] {
      var n := FromBytes(s);
      var p := s[..|s| - 1];
      assert n / 256 == FromBytes(p);
      ToBytesFromBytes(p);
      assert s == p + [s[|s| - 1]];
    }
  }

  /** DataOutput.writeInt: four bytes of the two's complement value. */
  function WriteInt(v: int32): (r: seq<byte>)
    ensures |r| == 4
  {
    ToBytes(if v < 0 then v + TWO_32 else v, 4)
  }

  /** DataInput.readInt on the first four bytes of s. */
  function ReadInt(s: seq<byte>): (v: int32)
    requires |s| >= 4
  {
    var n := FromBytes(s[..4]);
    if n < 0x8000_0000 then n else n - TWO_32
  }

  /** DataOutput.writeLong: eight bytes of the two's complement value. */
  function WriteLong(v: int64): (r: seq<byte>)
    ensures |r| == 8
  {
    ToBytes(if v < 0 then v + 0x1_0000_0000_0000_0000 else v, 8)
  }

  /** DataInput.readLong on the first eight bytes of s. */
  function ReadLong(s: seq<byte>): (v: int64)
    requires |s| >= 8
  {
    var n := FromBytes(s[..8]);
    if n < 0x8000_0000_0000_0000 then n else n - 0x1_0000_0000_0000_0000
  }

  lemma ReadWriteInt(v: int32, rest: seq<byte>)
    ensures ReadInt(WriteInt(v) + rest) == v
  {
    var u := if v < 0 then v + TWO_32 else v;
    assert (WriteInt(v) + rest)[..4] == WriteInt(v);
    FromBytesToBytes(u, 4);
  }

  lemma ReadWriteLong(v: int64, rest: seq<byte>)
    ensures ReadLong(WriteLong(v) + rest) == v
  {
    var u := if v < 0 then v + 0x1_0000_0000_0000_0000 else v;
    assert (WriteLong(v) + rest)[..8] == WriteLong(v);
    FromBytesToBytes(u, 8);
  }

  predicate IsNaN(f: Float32) {
    f & 0x7f80_0000 == 0x7f80_0000 && f & 0x007f_ffff != 0
  }

  /** Float.floatToIntBits: the bit pattern, except that every NaN becomes
      the canonical NaN. */
  function FloatToIntBits(f: Float32): (b: bv32)
    ensures IsNaN(f) <==> IsNaN(b)
    ensures !IsNaN(f) ==> b == f
    ensures IsNaN(f) ==> b == CANONICAL_NAN
  {
    if IsNaN(f) then CANONICAL_NAN else f
  }

  /** The Java `int` whose two's complement pattern is b. */
  function BitsToInt(b: bv32): (v: int32)
    ensures v >= 0 <==> b as int < 0x8000_0000
    ensures (if v < 0 then v + TWO_32 else v) as bv32 == b
  {
    var n: nat := b as int;
    assert n < TWO_32;
    if n < 0x8000_0000 then n else n - TWO_32
  }

  /** DataOutput.writeFloat: writeInt(floatToIntBits(f)). */
  function WriteFloat(f: Float32): (r: seq<byte>)
    ensures |r| == 4
  {
    WriteInt(BitsToInt(FloatToIntBits(f)))
  }

  /** DataInput.readFloat: intBitsToFloat(readInt()), which keeps the pattern. */
  function ReadFloat(s: seq<byte>): (f: Float32)
    requires |s| >= 4
  {
    var v := ReadInt(s);
    (if v < 0 then v + TWO_32 else v) as bv32
  }

  /** Writing then reading a float yields floatToIntBits of it: the same
      pattern unless it was a NaN, then the canonical NaN. */
  lemma ReadWriteFloat(f: Float32, rest: seq<byte>)
    ensures ReadFloat(WriteFloat(f) + rest) == FloatToIntBits(f)
  {
    ReadWriteInt(BitsToInt(FloatToIntBits(f)), rest);
  }
}
