// Fixed-width integers as little-endian bytes, and reading them back from the
// front of a byte sequence.

module WireBytes {
  import opened Types

  type Byte = x: int | 0 <= x < 256
  type Int32 = x: int | -0x8000_0000 <= x < 0x8000_0000
  type Int64 = x: int | -0x8000_0000_0000_0000 <= x < 0x8000_0000_0000_0000

  function Pow256(n: nat): (r: int)
    ensures r > 0
    ensures n > 0 ==> r % 2 == 0
  {
    if n == 0 then 1 else 256 * Pow256(n - 1)
  }

  // The low n bytes of v, in two's complement.
  function Bytes(n: nat, v: int): (r: seq<Byte>)
    ensures |r| == n
  {
    if n == 0 then [] else [v % 256] + Bytes(n - 1, v / 256)
  }

  function Unsigned(s: seq<Byte>): (r: nat)
    ensures r < Pow256(|s|)
  {
    if s == [] then 0 else s[0] + 256 * Unsigned(s[1..])
  }

  function Signed(s: seq<Byte>): (r: int)
    ensures -Pow256(|s|) <= 2 * r < Pow256(|s|)
  {
    var u := Unsigned(s);
    if 2 * u < Pow256(|s|) then u else u - Pow256(|s|)
  }

  lemma {:induction false} UnsignedBytes(n: nat, v: int)
    ensures Unsigned(Bytes(n, v)) == v % Pow256(n)
  {
    if n > 0 {
      UnsignedBytes(n - 1, v / 256);
      LowByteOff(v, Pow256(n - 1));
      assert Bytes(n, v)[1..] == Bytes(n - 1, v / 256);
    }
  }

  lemma LowByteOff(v: int, p: int)
    requires p > 0
    ensures v % (256 * p) == v % 256 + 256 * ((v / 256) % p)
  {
    var q := v / 256;
    var d, r := q / p, q % p;
    assert q == p * d + r;
    assert v == 256 * q + v % 256;
    Regroup(p, d);
    SplitOff(v, 256 * p, d, v % 256 + 256 * r);
  }

  lemma Regroup(p: int, d: int)
    ensures 256 * (p * d) == (256 * p) * d
  {
  }

  lemma Distribute(m: int, d: int, e: int)
    ensures m * (d - e) == m * d - m * e
    ensures m * (e - d) == m * e - m * d
  {
  }

  lemma AtLeast(m: int, k: int)
    requires m > 0 && k >= 1
    ensures m * k >= m
  {
  }

  lemma SplitOff(v: int, m: int, d: int, r: int)
    requires m > 0 && 0 <= r < m && v == m * d + r
    ensures v % m == r
  {
    var e := v / m;
    assert v == m * e + v % m;
    Distribute(m, d, e);
    if d > e {
      AtLeast(m, d - e);
    } else if d < e {
      AtLeast(m, e - d);
    }
  }

  lemma SignedBytes(n: nat, v: int)
    requires n > 0 && -Pow256(n) <= 2 * v < Pow256(n)
    ensures Signed(Bytes(n, v)) == v
  {
    UnsignedBytes(n, v);
    var p := Pow256(n);
    SplitOff(v, p, if v < 0 then -1 else 0, if v < 0 then v + p else v);
  }

  // The low byte comes first: byte i counts the multiples of 256 to the i.
  lemma {:induction false} ByteAt(n: nat, v: int, i: nat)
    requires i < n
    ensures Bytes(n, v)[i] == (v / Pow256(i)) % 256
  {
    if i == 0 {
      assert v / 1 == v;
    } else {
      ByteAt(n - 1, v / 256, i - 1);
      DivideTwice(v, Pow256(i - 1));
    }
  }

  lemma DivideTwice(v: int, p: int)
    requires p > 0
    ensures v / (256 * p) == (v / 256) / p
  {
    var q := v / 256;
    var d, r := q / p, q % p;
    Regroup(p, d);
    assert v == (256 * p) * d + (v % 256 + 256 * r);
    Quotient(v, 256 * p, d, v % 256 + 256 * r);
  }

  lemma Quotient(v: int, m: int, d: int, r: int)
    requires m > 0 && 0 <= r < m && v == m * d + r
    ensures v / m == d
  {
    var e := v / m;
    assert v == m * e + v % m;
    Distribute(m, d, e);
    if d > e {
      AtLeast(m, d - e);
    } else if d < e {
      AtLeast(m, e - d);
    }
  }

  lemma UnsignedBytesExact(n: nat, v: int)
    requires 0 <= v < Pow256(n)
    ensures Unsigned(Bytes(n, v)) == v
  {
    UnsignedBytes(n, v);
    SplitOff(v, Pow256(n), 0, v);
  }

  lemma Widths()
    ensures Pow256(1) == 0x100 && Pow256(4) == 0x1_0000_0000 && Pow256(8) == 0x1_0000_0000_0000_0000
  {
    assert Pow256(0) == 1 && Pow256(2) == 256 * Pow256(1) && Pow256(3) == 256 * Pow256(2);
    assert Pow256(5) == 256 * Pow256(4) && Pow256(6) == 256 * Pow256(5) && Pow256(7) == 256 * Pow256(6);
  }

  // ---- Reading from the front ----

  datatype Read<+T> = Read(value: T, rest: seq<Byte>)

  function ReadInt(n: nat, s: seq<Byte>): Option<Read<int>> {
    if |s| < n then None else Some(Read(Signed(s[..n]), s[n..]))
  }

  function ReadNat(n: nat, s: seq<Byte>): Option<Read<nat>> {
    if |s| < n then None else Some(Read(Unsigned(s[..n]), s[n..]))
  }

  predicate FitsInt(n: nat, v: int) {
    -Pow256(n) <= 2 * v < Pow256(n)
  }

  predicate FitsNat(n: nat, v: int) {
    0 <= v < Pow256(n)
  }

  lemma ReadsBack(n: nat, v: int, t: seq<Byte>)
    requires n > 0
    ensures FitsInt(n, v) ==> ReadInt(n, Bytes(n, v) + t) == Some(Read(v, t))
    ensures FitsNat(n, v) ==> ReadNat(n, Bytes(n, v) + t) == Some(Read(v, t))
  {
    assert (Bytes(n, v) + t)[..n] == Bytes(n, v) && (Bytes(n, v) + t)[n..] == t;
    if FitsInt(n, v) {
      SignedBytes(n, v);
    }
    if FitsNat(n, v) {
      UnsignedBytesExact(n, v);
    }
  }

  // A string up to its terminator.
  function ReadString(s: seq<Byte>): Option<Read<seq<Byte>>> {
    if s == [] then None
    else if s[0] == 0 then Some(Read([], s[1..]))
    else
      match ReadString(s[1..])
      case None => None
      case Some(r) => Some(Read([s[0]] + r.value, r.rest))
  }

  lemma {:induction false} StringReadsBack(v: seq<Byte>, t: seq<Byte>)
    requires 0 !in v
    ensures ReadString(v + [0] + t) == Some(Read(v, t))
  {
    var s := v + [0] + t;
    if v == [] {
      assert s[1..] == t;
    } else {
      StringReadsBack(v[1..], t);
      assert s[1..] == v[1..] + [0] + t;
      assert [v[0]] + v[1..] == v;
    }
  }
}
