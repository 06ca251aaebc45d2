/** Bytes of a binary file, reads from a file position, and Python's
    `int.from_bytes(b, byteorder="big")` (support/parse_data.py, MNIST). */
module Bytes {

  /** An unsigned 8-bit value, as numpy's uint8 holds it. */
  type byte = b: int | 0 <= b < 256

  /** 256 to the power k: one more than the largest k-byte unsigned value. */
  function Pow256(k: nat): (p: nat)
    ensures p >= 1
  {
    if k == 0 then 1 else 256 * Pow256(k - 1)
  }

  /** `int.from_bytes(bs, byteorder="big")`: the first byte is the most
      significant one, and the empty byte string decodes to 0. */
  function FromBigEndian(bs: seq<byte>): (v: nat)
    ensures v < Pow256(|bs|)
  {
    if bs == [] then 0 else FromBigEndian(bs[..|bs| - 1]) * 256 + bs[|bs| - 1]
  }

  /** The k-byte big-endian encoding of v, the inverse of FromBigEndian. */
  function ToBigEndian(v: nat, k: nat): (bs: seq<byte>)
    requires v < Pow256(k)
    ensures |bs| == k
  {
    if k == 0 then [] else ToBigEndian(v / 256, k - 1) + [v % 256]
  }

  /** Decoding an encoding gives the value back. */
  lemma {:induction false} DecodeEncode(v: nat, k: nat)
    requires v < Pow256(k)
    ensures FromBigEndian(ToBigEndian(v, k)) == v
  {
    if k > 0 {
      var bs := ToBigEndian(v, k);
      assert bs[..k - 1] == ToBigEndian(v / 256, k - 1);
      DecodeEncode(v / 256, k - 1);
    }
  }

  /** Encoding a decoded byte string at its own width gives it back. */
  lemma {:induction false} EncodeDecode(bs: seq<byte>)
    ensures ToBigEndian(FromBigEndian(bs), |bs|) == bs
  {
    if bs != [] {
      var init := bs[..|bs| - 1];
      var v := FromBigEndian(bs);
      assert v / 256 == FromBigEndian(init) && v % 256 == bs[|bs| - 1];
      EncodeDecode(init);
      assert bs == init + [bs[|bs| - 1]];
    }
  }

  /** A four-byte header field b0 b1 b2 b3 is b0*2^24 + b1*2^16 + b2*2^8 + b3,
      an unsigned 32-bit value. */
  lemma FourBytes(b0: byte, b1: byte, b2: byte, b3: byte)
    ensures FromBigEndian([b0, b1, b2, b3]) == b0 as int * 0x100_0000 + b1 as int * 0x1_0000 + b2 as int * 0x100 + b3 as int
    ensures FromBigEndian([b0, b1, b2, b3]) < 0x1_0000_0000
  {
    assert [b0, b1, b2, b3][..3] == [b0, b1, b2];
    assert [b0, b1, b2][..2] == [b0, b1];
    assert [b0, b1][..1] == [b0];
    OneByte(b0);
    assert FromBigEndian([b0, b1]) == b0 as int * 0x100 + b1;
    assert FromBigEndian([b0, b1, b2]) == b0 as int * 0x1_0000 + b1 as int * 0x100 + b2;
  }

  /** A one-byte read decodes to the byte itself. */
  lemma OneByte(b: byte)
    ensures FromBigEndian([b]) == b
  {
    assert [b][..0] == [];
  }

  /** `f.read(k)` on a file positioned at pos: the next k bytes, or fewer
      (down to none, `b''`) when the end of the file comes first.
      Positions here are nominal (the seek target plus the sizes asked
      for); Python's real position stops at the end of the file, but every
      read from there on returns `b''` under both views. */
  function ReadAt(file: seq<byte>, pos: nat, k: nat): (bs: seq<byte>)
    ensures |bs| == if pos + k <= |file| then k else if pos < |file| then |file| - pos else 0
    ensures forall i :: 0 <= i < |bs| ==> bs[i] == file[pos + i]
  {
    if pos >= |file| then [] else if pos + k <= |file| then file[pos..pos + k] else file[pos..]
  }

  /** `np.uint8(int.from_bytes(f.read(1), "big"))` at position pos. */
  function ByteAt(file: seq<byte>, pos: nat): (b: byte)
  {
    var bs := ReadAt(file, pos, 1);
    OneByteOrNone(bs);
    FromBigEndian(bs)
  }

  lemma OneByteOrNone(bs: seq<byte>)
    requires |bs| <= 1
    ensures FromBigEndian(bs) < 256
    ensures bs == [] ==> FromBigEndian(bs) == 0
    ensures |bs| == 1 ==> FromBigEndian(bs) == bs[0]
  {
    if |bs| == 1 {
      OneByte(bs[0]);
      assert bs == [bs[0]];
    }
  }

  /** A single-byte read yields the file's byte, and 0 past the end of the
      file: a short file is padded with zeros rather than rejected. */
  lemma ByteAtIsByteOrZero(file: seq<byte>, pos: nat)
    ensures ByteAt(file, pos) == if pos < |file| then file[pos] else 0
  {
    OneByteOrNone(ReadAt(file, pos, 1));
  }

  /** A four-byte big-endian header field read at pos. */
  function HeaderField(file: seq<byte>, pos: nat): (v: nat)
    ensures v < 0x1_0000_0000
  {
    var bs := ReadAt(file, pos, 4);
    assert Pow256(|bs|) <= Pow256(4) == 0x1_0000_0000 by { Pow256Mono(|bs|, 4); }
    FromBigEndian(bs)
  }

  lemma {:induction false} Pow256Mono(j: nat, k: nat)
    requires j <= k
    ensures Pow256(j) <= Pow256(k)
  {
    if j < k {
      Pow256Mono(j, k - 1);
    }
  }

  /** Within the file, a header field is the big-endian value of the four
      bytes at pos. */
  lemma HeaderFieldInFile(file: seq<byte>, pos: nat)
    requires pos + 4 <= |file|
    ensures HeaderField(file, pos)
            == file[pos] as int * 0x100_0000 + file[pos + 1] as int * 0x1_0000
               + file[pos + 2] as int * 0x100 + file[pos + 3] as int
  {
    var bs := ReadAt(file, pos, 4);
    assert bs == [file[pos], file[pos + 1], file[pos + 2], file[pos + 3]];
    FourBytes(file[pos], file[pos + 1], file[pos + 2], file[pos + 3]);
  }
}
