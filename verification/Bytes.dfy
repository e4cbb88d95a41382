/** Bytes and the little-endian integers that zip headers are made of. */
module Bytes {
  type byte = x: int | 0 <= x < 256

  /** `view.getUint16(at, true)`. */
  function U16(b: seq<byte>, at: nat): (v: nat)
    requires at + 2 <= |b|
    ensures v < 0x1_0000
  {
    b[at] as int + 0x100 * b[at + 1] as int
  }

  /** `view.getUint32(at, true)`. */
  function U32(b: seq<byte>, at: nat): (v: nat)
    requires at + 4 <= |b|
    ensures v < 0x1_0000_0000
  {
    U16(b, at) + 0x1_0000 * U16(b, at + 2)
  }

  /** A writer's 16-bit field; a number that does not fit loses its high bits. */
  function Le16(v: nat): (s: seq<byte>)
    ensures |s| == 2
    ensures v < 0x1_0000 ==> U16(s, 0) == v
  {
    [v % 0x100, v / 0x100 % 0x100]
  }

  /** A writer's 32-bit field. */
  function Le32(v: nat): (s: seq<byte>)
    ensures |s| == 4
    ensures v < 0x1_0000_0000 ==> U32(s, 0) == v
  {
    var s := Le16(v % 0x1_0000) + Le16(v / 0x1_0000 % 0x1_0000);
    assert U16(s, 0) == v % 0x1_0000 && U16(s, 2) == v / 0x1_0000 % 0x1_0000 by {
      assert s[..2] == Le16(v % 0x1_0000) && s[2..] == Le16(v / 0x1_0000 % 0x1_0000);
      assert U16(s, 0) == U16(s[..2], 0) && U16(s, 2) == U16(s[2..], 0);
    }
    s
  }

  /** Reading inside a slice is reading the whole at the slice's offset. */
  lemma Windows(b: seq<byte>, at: nat, w: seq<byte>)
    requires at + |w| <= |b| && b[at..at + |w|] == w
    ensures forall k: nat {:trigger U16(w, k)} | k + 2 <= |w| :: U16(b, at + k) == U16(w, k)
    ensures forall k: nat {:trigger U32(w, k)} | k + 4 <= |w| :: U32(b, at + k) == U32(w, k)
  {
    forall k: nat | k < |w| ensures b[at + k] == w[k] {
      assert b[at..at + |w|][k] == b[at + k];
    }
    forall k: nat | k + 4 <= |w| ensures U32(b, at + k) == U32(w, k) {
      assert b[at + k] == w[k] && b[at + k + 1] == w[k + 1] && b[at + k + 2] == w[k + 2] && b[at + k + 3] == w[k + 3];
    }
  }

  /** `Buffer.toString("latin1")`: one character per byte, so distinct names stay distinct. */
  function Latin1(bs: seq<byte>): (s: string)
    ensures |s| == |bs|
    ensures forall i | 0 <= i < |bs| :: s[i] as int == bs[i]
  {
    seq(|bs|, i requires 0 <= i < |bs| => bs[i] as char)
  }
}
