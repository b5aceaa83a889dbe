/** Natural numbers as little-endian bytes of a fixed length. */
module LittleEndian {
  import opened Common

  function Pow256(n: nat): (p: nat)
    ensures p > 0
  {
    if n == 0 then 1 else 256 * Pow256(n - 1)
  }

  /** The low bytes of a number; higher ones are cut off. */
  function Encode(length: nat, n: nat): (s: Bytes)
    ensures |s| == length
  {
    if length == 0 then [] else [(n % 256) as byte] + Encode(length - 1, n / 256)
  }

  function Decode(s: Bytes): nat {
    if s == [] then 0 else s[0] as int + 256 * Decode(s[1..])
  }

  lemma MulBound(m: int, d: int)
    requires m > 0
    ensures (d > 0 ==> m * d >= m) && (d < 0 ==> m * d <= -m)
  {
  }

  lemma ModIs(x: int, m: int, q: int, r: int)
    requires m > 0 && x == m * q + r && 0 <= r < m
    ensures x % m == r
  {
    var d := x / m - q;
    assert m * d == r - x % m;
    MulBound(m, d);
  }

  lemma ModAdd(a: int, b: int, m: int)
    requires m > 0
    ensures (a + b % m) % m == (a + b) % m
  {
    var q := (a + b % m) / m;
    ModIs(a + b, m, q + b / m, (a + b % m) % m);
  }

  /** Decoding what was encoded gives the number modulo what fits. */
  lemma {:induction false} DecodeEncode(length: nat, n: nat)
    ensures Decode(Encode(length, n)) == n % Pow256(length)
  {
    if length > 0 {
      var p, rest := Pow256(length - 1), n / 256;
      DecodeEncode(length - 1, rest);
      assert Encode(length, n)[1..] == Encode(length - 1, rest);
      TwoDigits(n, p);
    }
  }

  lemma TwoDigits(n: nat, p: nat)
    requires p > 0
    ensures n % (256 * p) == n % 256 + 256 * (n / 256 % p)
  {
    var rest := n / 256;
    var q, r := rest / p, rest % p;
    assert rest == p * q + r;
    assert 256 * rest == 256 * p * q + 256 * r;
    ModIs(n, 256 * p, q, n % 256 + 256 * r);
  }

  lemma {:induction false} DecodeBound(s: Bytes)
    ensures Decode(s) < Pow256(|s|)
  {
    if s != [] {
      DecodeBound(s[1..]);
    }
  }

  lemma Pow256Of8()
    ensures Pow256(8) == TWO64
  {
    assert Pow256(4) == TWO32 by {
      assert Pow256(2) == 256 * 256;
    }
    assert Pow256(6) == TWO32 * 65536;
  }

  lemma {:induction false} Pow256Grows(a: nat, b: nat)
    requires a <= b
    ensures Pow256(a) <= Pow256(b)
  {
    if a < b {
      Pow256Grows(a, b - 1);
    }
  }

  /** Numbers that fit are told apart by their bytes. */
  lemma EncodeInjective(length: nat, a: nat, b: nat)
    requires a < Pow256(length) && b < Pow256(length) && Encode(length, a) == Encode(length, b)
    ensures a == b
  {
    DecodeEncode(length, a);
    DecodeEncode(length, b);
  }
}
