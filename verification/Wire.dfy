/** Bytes and 32-bit little-endian numbers. */
module Wire {
  type Byte = x: int | 0 <= x < 256

  const TWO_TO_THE_32: int := 0x1_0000_0000

  /** A number modulo 2^32 as four bytes, the lowest first. */
  function PutUint32(n: nat): (b: seq<Byte>)
    ensures |b| == 4
  {
    [n % 256, n / 256 % 256, n / 65536 % 256, n / 16777216 % 256]
  }

  function Uint32(b: seq<Byte>): (n: nat)
    requires |b| >= 4
    ensures n < TWO_TO_THE_32
  {
    (b[0] as int) + 256 * (b[1] as int) + 65536 * (b[2] as int) + 16777216 * (b[3] as int)
  }

  lemma Uint32OfPut(n: nat, rest: seq<Byte>)
    ensures Uint32(PutUint32(n) + rest) == n % TWO_TO_THE_32
  {
    var q := n / 256;
    var r := q / 256;
    assert n / 65536 == r && n / 16777216 == r / 256;
  }

  lemma PutOfUint32(b: seq<Byte>)
    requires |b| >= 4
    ensures PutUint32(Uint32(b)) == b[..4]
  {
    var b0: int, b1: int, b2: int, b3: int := b[0], b[1], b[2], b[3];
    var n: int, q, r := Uint32(b), b1 + 256 * b2 + 65536 * b3, b2 + 256 * b3;
    assert n == b0 + 256 * q && n / 256 == q;
    assert q == b1 + 256 * r && q / 256 == r;
    assert n / 65536 == q / 256 && n / 16777216 == r / 256 == b3;
  }
}
