/** Octets, Go's unsigned widths, and the big-endian fields of the wire formats. */
module Bytes {

  type byte = x: int | 0 <= x < 0x100
  type uint64 = x: int | 0 <= x < 0x1_0000_0000_0000_0000

  const MAX_UINT64: uint64 := 0xFFFF_FFFF_FFFF_FFFF

  datatype Option<+T> = None | Some(value: T)

  /** 256 to the power n: the number of values that fit n octets. */
  function Capacity(n: nat): (c: nat)
    ensures c > 0
  {
    if n == 0 then 1 else 256 * Capacity(n - 1)
  }

  /** binary.BigEndian.PutUint16/32/64, for any width. */
  function PutBigEndian(width: nat, v: nat): (b: seq<byte>)
    requires v < Capacity(width)
    ensures |b| == width
  {
    if width == 0 then [] else PutBigEndian(width - 1, v / 256) + [v % 256]
  }

  /** binary.BigEndian.Uint16/32/64, for any width. */
  function BigEndian(b: seq<byte>): (v: nat)
    ensures v < Capacity(|b|)
  {
    if b == [] then 0 else 256 * BigEndian(b[..|b| - 1]) + b[|b| - 1]
  }

  lemma {:induction false} BigEndianOfPut(width: nat, v: nat)
    requires v < Capacity(width)
    ensures BigEndian(PutBigEndian(width, v)) == v
  {
    if width > 0 {
      BigEndianOfPut(width - 1, v / 256);
      var b := PutBigEndian(width, v);
      assert b[..|b| - 1] == PutBigEndian(width - 1, v / 256);
    }
  }

  lemma {:induction false} PutOfBigEndian(b: seq<byte>)
    ensures PutBigEndian(|b|, BigEndian(b)) == b
  {
    if b != [] {
      PutOfBigEndian(b[..|b| - 1]);
      assert b == b[..|b| - 1] + [b[|b| - 1]];
    }
  }

  /** The first octet is the most significant. */
  lemma {:induction false} BigEndianFirst(b: seq<byte>)
    requires b != []
    ensures BigEndian(b) == b[0] * Capacity(|b| - 1) + BigEndian(b[1..])
  {
    if |b| > 1 {
      var front := b[..|b| - 1];
      BigEndianFirst(front);
      assert b[1..][..|b| - 2] == front[1..];
      Regroup(b[0], Capacity(|b| - 2));
    } else {
      assert b[1..] == [];
    }
  }

  lemma Regroup(x: int, c: int)
    ensures 256 * (x * c) == x * (256 * c)
  {
  }

  /** Four octets, most significant first. */
  function Quad(a: int, b: int, c: int, d: int): int {
    0x100_0000 * a + 0x1_0000 * b + 0x100 * c + d
  }

  /** Fields of two, four and eight octets by position. */
  lemma BigEndian2(b: seq<byte>)
    requires |b| == 2
    ensures BigEndian(b) == Quad(0, 0, b[0], b[1])
  {
    BigEndianFirst(b);
    BigEndianFirst(b[1..]);
  }

  lemma BigEndian4(b: seq<byte>)
    requires |b| == 4
    ensures BigEndian(b) == Quad(b[0], b[1], b[2], b[3])
  {
    hide BigEndian;
    Capacities();
    BigEndianFirst(b);
    BigEndianFirst(b[1..]);
    BigEndian2(b[2..]);
    assert b[1..][1..] == b[2..];
  }

  lemma BigEndian8(b: seq<byte>)
    requires |b| == 8
    ensures BigEndian(b) == 0x1_0000_0000 * Quad(b[0], b[1], b[2], b[3]) + Quad(b[4], b[5], b[6], b[7])
  {
    hide BigEndian;
    Capacities();
    BigEndianFirst(b);
    BigEndianFirst(b[1..]);
    BigEndianFirst(b[2..]);
    BigEndianFirst(b[3..]);
    BigEndian4(b[4..]);
    assert b[1..][1..] == b[2..] && b[2..][1..] == b[3..] && b[3..][1..] == b[4..];
  }

  /** The widths the wire formats use. */
  lemma Capacities()
    ensures Capacity(2) == 0x1_0000
    ensures Capacity(4) == 0x1_0000_0000
    ensures Capacity(8) == 0x1_0000_0000_0000_0000
    ensures Capacity(3) == 0x100_0000 && Capacity(5) == 0x100_0000_0000
    ensures Capacity(6) == 0x1_0000_0000_0000 && Capacity(7) == 0x100_0000_0000_0000
  {
    assert Capacity(3) == 0x100_0000;
    assert Capacity(5) == 0x100_0000_0000;
    assert Capacity(6) == 0x1_0000_0000_0000;
    assert Capacity(7) == 0x100_0000_0000_0000;
  }

  /** The concatenation of a sequence of buffers. */
  function Concat(parts: seq<seq<byte>>): seq<byte> {
    if parts == [] then [] else parts[0] + Concat(parts[1..])
  }

  lemma {:induction false} ConcatSplit(a: seq<seq<byte>>, b: seq<seq<byte>>)
    ensures Concat(a + b) == Concat(a) + Concat(b)
  {
    if a == [] {
      assert a + b == b;
    } else {
      hide Concat;
      ConcatStep(a + b);
      ConcatStep(a);
      ConcatSplit(a[1..], b);
      assert (a + b)[1..] == a[1..] + b;
    }
  }

  lemma ConcatStep(parts: seq<seq<byte>>)
    requires parts != []
    ensures Concat(parts) == parts[0] + Concat(parts[1..])
  {
  }

  lemma ConcatNone(parts: seq<seq<byte>>)
    ensures parts == [] ==> Concat(parts) == []
  {
  }

  /** The first part may be put with what comes before. */
  lemma ConcatFirst(before: seq<byte>, parts: seq<seq<byte>>)
    requires parts != []
    ensures (before + parts[0]) + Concat(parts[1..]) == before + Concat(parts)
  {
  }
}
