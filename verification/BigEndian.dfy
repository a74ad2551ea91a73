/** Bytes, the fixed-width integers the proxy puts on the wire, and their big-endian form. */
module BigEndian {
  type byte = n: int | 0 <= n < 0x100
  type u16 = n: int | 0 <= n < 0x1_0000
  type u32 = n: int | 0 <= n < 0x1_0000_0000
  type u64 = n: int | 0 <= n < 0x1_0000_0000_0000_0000

  type Bytes = seq<byte>

  function PutU16(n: u16): (b: Bytes)
    ensures |b| == 2
  {
    [n / 0x100, n % 0x100]
  }

  function GetU16(b: Bytes): u16
    requires |b| >= 2
  {
    b[0] as int * 0x100 + b[1] as int
  }

  function PutU32(n: u32): (b: Bytes)
    ensures |b| == 4
  {
    PutU16(n / 0x1_0000) + PutU16(n % 0x1_0000)
  }

  function GetU32(b: Bytes): u32
    requires |b| >= 4
  {
    GetU16(b) as int * 0x1_0000 + GetU16(b[2..]) as int
  }

  function PutU64(n: u64): (b: Bytes)
    ensures |b| == 8
  {
    PutU32(n / 0x1_0000_0000) + PutU32(n % 0x1_0000_0000)
  }

  /** The number that bytes stand for, the most significant first. */
  function Number(b: Bytes): nat {
    if b == [] then 0 else 0x100 * Number(b[..|b| - 1]) + b[|b| - 1]
  }

  lemma TwoBytes(b: Bytes)
    requires |b| == 2
    ensures Number(b) == 0x100 * b[0] as int + b[1] as int < 0x1_0000
  {
    TwoMore([], b);
  }

  lemma TwoMore(a: Bytes, b: Bytes)
    requires |b| == 2
    ensures Number(a + b) == 0x1_0000 * Number(a) + 0x100 * b[0] as int + b[1] as int
  {
    assert (a + b)[..|a| + 1] == a + [b[0]];
    assert (a + [b[0]])[..|a|] == a;
  }

  lemma FourBytes(b: Bytes)
    requires |b| == 4
    ensures Number(b) == 0x1_0000 * Number(b[..2]) + Number(b[2..]) < 0x1_0000_0000
  {
    TwoBytes(b[..2]);
    TwoBytes(b[2..]);
    TwoMore(b[..2], b[2..]);
    assert b == b[..2] + b[2..];
  }

  lemma EightBytes(b: Bytes)
    requires |b| == 8
    ensures Number(b) == 0x1_0000_0000 * Number(b[..4]) + Number(b[4..])
  {
    FourBytes(b[4..]);
    TwoBytes(b[4..][..2]);
    TwoBytes(b[4..][2..]);
    TwoMore(b[..6], b[6..]);
    TwoMore(b[..4], b[4..6]);
    assert b == b[..6] + b[6..] && b[..6] == b[..4] + b[4..6];
  }

  /** The fixed-width forms are the only bytes of their length for a number. */
  lemma PutU16Is(n: u16, b: Bytes)
    requires |b| == 2
    ensures b == PutU16(n) <==> Number(b) == n
  {
    TwoBytes(b);
  }

  lemma PutU32Is(n: u32, b: Bytes)
    requires |b| == 4
    ensures b == PutU32(n) <==> Number(b) == n
  {
    FourBytes(b);
    TwoBytes(b[2..]);
    PutU16Is(n / 0x1_0000, b[..2]);
    PutU16Is(n % 0x1_0000, b[2..]);
    assert b == b[..2] + b[2..] && PutU32(n)[..2] == PutU16(n / 0x1_0000) && PutU32(n)[2..] == PutU16(n % 0x1_0000);
  }

  lemma PutU64Is(n: u64, b: Bytes)
    requires |b| == 8
    ensures b == PutU64(n) <==> Number(b) == n
  {
    EightBytes(b);
    FourBytes(b[4..]);
    PutU32Is(n / 0x1_0000_0000, b[..4]);
    PutU32Is(n % 0x1_0000_0000, b[4..]);
    assert b == b[..4] + b[4..];
    assert PutU64(n)[..4] == PutU32(n / 0x1_0000_0000) && PutU64(n)[4..] == PutU32(n % 0x1_0000_0000);
  }
}
