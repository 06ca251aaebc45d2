/** The IDX reader of the MNIST routine (support/parse_data.py:334-484):
    skip the four-byte magic number without looking at it, read the
    big-endian header fields, then copy n*d single bytes one at a time. */
module Idx {
  import opened Bytes
  import opened Tensor

  /** Offset of the first payload byte of an image file: magic, count, rows, cols. */
  const ImagePayload: nat := 16
  /** Offset of the first payload byte of a label file: magic, count. */
  const LabelPayload: nat := 8

  /** The count bytes the copy loop stores when it starts reading at
      position start: the file's bytes, and 0 for every read past its end. */
  function Payload(file: seq<byte>, start: nat, count: nat): (p: seq<byte>)
    ensures |p| == count
  {
    seq<byte>(count, k requires 0 <= k < count => ByteAt(file, start + k))
  }

  /** Element k of the payload is the file byte at start + k, or 0 past the
      end of the file (short files are padded, not rejected). */
  lemma PayloadAt(file: seq<byte>, start: nat, count: nat, k: nat)
    requires k < count
    ensures Payload(file, start, count)[k] == if start + k < |file| then file[start + k] else 0
  {
    ByteAtIsByteOrZero(file, start + k);
  }

  /** The `while bytes_left > 0` loop: exactly count single-byte reads,
      stored in order into a fresh uint8 array. */
  method CopyBytes(file: seq<byte>, start: nat, count: nat) returns (data: seq<byte>)
    ensures data == Payload(file, start, count)
  {
    var dataArr := new byte[count];
    var bytesLeft := count;
    var idx := 0;
    var pos := start;
    while bytesLeft > 0
      invariant idx + bytesLeft == count
      invariant pos == start + idx
      invariant forall k :: 0 <= k < idx ==> dataArr[k] == ByteAt(file, start + k)
    {
      var b := ReadAt(file, pos, 1);
      OneByteOrNone(b);
      dataArr[idx] := FromBigEndian(b);
      pos := pos + 1;
      bytesLeft := bytesLeft - 1;
      idx := idx + 1;
    }
    data := dataArr[..];
  }

  /** An image file: the count field n, d = rows * cols, and the n*d bytes
      that follow the 16-byte header (see PayloadCell for element (i, j)). */
  method ReadImages(file: seq<byte>) returns (n: nat, d: nat, data: seq<byte>)
    ensures n == HeaderField(file, 4)
    ensures d == HeaderField(file, 8) * HeaderField(file, 12)
    ensures data == Payload(file, ImagePayload, n * d)
  {
    n := HeaderField(file, 4);
    var rows := HeaderField(file, 8);
    var cols := HeaderField(file, 12);
    d := rows * cols;
    data := CopyBytes(file, ImagePayload, n * d);
  }

  /** Element (i, j) of an (n, d) payload read from start is the file byte at
      start + i*d + j, or 0 past the end of the file. */
  lemma PayloadCell(file: seq<byte>, start: nat, n: nat, d: nat, i: nat, j: nat)
    requires i < n && j < d
    ensures Reshape(Payload(file, start, n * d), n, d)[i][j]
            == if start + i * d + j < |file| then file[start + i * d + j] else 0
  {
    var k := i * d + j;
    ReshapeAt(Payload(file, start, n * d), n, d, i, j);
    PayloadAt(file, start, n * d, k);
  }

  /** A label file: after the 8-byte header, label i is the byte at offset
      8 + i, and the result has shape (n, 1). */
  method ReadLabels(file: seq<byte>) returns (n: nat, d: nat, data: seq<byte>)
    ensures n == HeaderField(file, 4) && d == 1
    ensures data == Payload(file, LabelPayload, n * d)
    ensures forall i :: 0 <= i < n ==>
              data[i] == if LabelPayload + i < |file| then file[LabelPayload + i] else 0
  {
    n := HeaderField(file, 4);
    d := 1;
    data := CopyBytes(file, LabelPayload, n * d);
    forall i | 0 <= i < n
      ensures data[i] == if LabelPayload + i < |file| then file[LabelPayload + i] else 0
    {
      PayloadAt(file, LabelPayload, n, i);
    }
  }

  /** A file that holds at least its whole payload is copied without any
      padding: the result is exactly the bytes after the header. */
  lemma {:induction false} WholePayload(file: seq<byte>, start: nat, count: nat)
    requires start + count <= |file|
    ensures Payload(file, start, count) == file[start .. start + count]
  {
    forall k | 0 <= k < count
      ensures Payload(file, start, count)[k] == file[start + k]
    {
      PayloadAt(file, start, count, k);
    }
  }
}
