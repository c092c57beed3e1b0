/** Bytes, and integers written as bytes. */
module Bytes {
  type byte = x: int | 0 <= x < 256

  function Zeros(n: nat): (r: seq<byte>) { seq(n, _ => 0) }

  function Ascii(s: string): (r: seq<byte>)
    ensures |r| == |s|
  {
    seq(|s|, i requires 0 <= i < |s| => if s[i] as int < 256 then s[i] as int else 0)
  }

  function Concat(parts: seq<seq<byte>>): seq<byte> {
    if parts == [] then [] else Concat(parts[..|parts| - 1]) + parts[|parts| - 1]
  }

  lemma {:induction false} ConcatAppend(a: seq<seq<byte>>, b: seq<seq<byte>>)
    ensures Concat(a + b) == Concat(a) + Concat(b)
  {
    if b == [] {
      assert a + b == a;
    } else {
      var init := b[..|b| - 1];
      assert (a + b)[..|a + b| - 1] == a + init;
      ConcatAppend(a, init);
    }
  }

  /** Everything before part `i` is a prefix of the whole. */
  lemma ConcatPrefix(parts: seq<seq<byte>>, i: nat)
    requires i <= |parts|
    ensures Concat(parts[..i]) <= Concat(parts)
  {
    assert parts == parts[..i] + parts[i..];
    ConcatAppend(parts[..i], parts[i..]);
  }

  function LittleEndian2(n: int): (r: seq<byte>)
    requires 0 <= n < 0x1_0000
  {
    [n % 256, n / 256]
  }

  function LittleEndian4(n: int): (r: seq<byte>)
    requires 0 <= n < 0x1_0000_0000
  {
    LittleEndian2(n % 0x1_0000) + LittleEndian2(n / 0x1_0000)
  }

  function FromLittleEndian2(b: seq<byte>): (n: int)
    requires |b| == 2
    ensures 0 <= n < 0x1_0000 && LittleEndian2(n) == b
  {
    (b[0] as int) + 256 * (b[1] as int)
  }

  lemma Halves(lo: int, hi: int)
    requires 0 <= lo < 0x1_0000
    ensures (lo + 0x1_0000 * hi) % 0x1_0000 == lo && (lo + 0x1_0000 * hi) / 0x1_0000 == hi
  {
  }

  function FromLittleEndian4(b: seq<byte>): (n: int)
    requires |b| == 4
    ensures 0 <= n < 0x1_0000_0000 && LittleEndian4(n) == b
  {
    var lo, hi := FromLittleEndian2(b[..2]), FromLittleEndian2(b[2..]);
    assert b == b[..2] + b[2..];
    Halves(lo, hi);
    lo + 0x1_0000 * hi
  }

  /** Reading back what was written; the other direction is the readers' own contract. */
  lemma LittleEndianInverse(m: int, n: int)
    requires 0 <= m < 0x1_0000 && 0 <= n < 0x1_0000_0000
    ensures FromLittleEndian2(LittleEndian2(m)) == m && FromLittleEndian4(LittleEndian4(n)) == n
  {
    assert LittleEndian4(n)[..2] == LittleEndian2(n % 0x1_0000);
    assert LittleEndian4(n)[2..] == LittleEndian2(n / 0x1_0000);
  }

  // ---- big-endian, of any width ----------------------------------------------------------

  function Pow256(k: nat): (p: nat)
    ensures p >= 1
  {
    if k == 0 then 1 else 256 * Pow256(k - 1)
  }

  function BigEndian(n: nat, k: nat): (r: seq<byte>)
    ensures |r| == k
  {
    if k == 0 then [] else BigEndian(n / 256, k - 1) + [n % 256]
  }

  function FromBigEndian(b: seq<byte>): nat {
    if b == [] then 0 else 256 * FromBigEndian(b[..|b| - 1]) + b[|b| - 1]
  }

  lemma {:induction false} FromBigEndianRange(b: seq<byte>)
    ensures FromBigEndian(b) < Pow256(|b|)
  {
    if b == [] {
    } else {
      FromBigEndianRange(b[..|b| - 1]);
    }
  }

  lemma {:induction false} ReadsBack(n: nat, k: nat)
    requires n < Pow256(k)
    ensures FromBigEndian(BigEndian(n, k)) == n
  {
    if k == 0 {
    } else {
      ReadsBack(n / 256, k - 1);
      assert BigEndian(n, k)[..k - 1] == BigEndian(n / 256, k - 1);
    }
  }

  lemma {:induction false} WritesBack(b: seq<byte>)
    ensures BigEndian(FromBigEndian(b), |b|) == b
  {
    if b == [] {
    } else {
      WritesBack(b[..|b| - 1]);
      assert b == b[..|b| - 1] + [b[|b| - 1]];
    }
  }

  lemma Widths()
    ensures Pow256(4) == 0x1_0000_0000 && Pow256(8) == 0x1_0000_0000_0000_0000
  {
    assert Pow256(2) == 0x1_0000;
    assert Pow256(4) == 0x1_0000 * Pow256(2);
    assert Pow256(6) == 0x1_0000 * Pow256(4);
    assert Pow256(8) == 0x1_0000 * Pow256(6);
  }

  /** The first byte counts most. */
  lemma {:induction false} FirstByteCountsMost(b: seq<byte>)
    requires b != []
    ensures FromBigEndian(b) == b[0] * Pow256(|b| - 1) + FromBigEndian(b[1..])
  {
    if |b| == 1 {
      assert FromBigEndian(b[..0]) == 0 && FromBigEndian(b[1..]) == 0;
    } else {
      var init := b[..|b| - 1];
      FirstByteCountsMost(init);
      assert init[1..] == b[1..][..|b| - 2] && b[1..][|b| - 2] == b[|b| - 1];
      FirstTimes(b[0], |b| - 1);
    }
  }

  lemma FirstTimes(a: int, k: nat)
    requires k > 0
    ensures 256 * (a * Pow256(k - 1)) == a * Pow256(k)
  {
  }
}
