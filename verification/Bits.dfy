/** Numbers, bytes and their bits, most significant first. */
module Bits {
  import opened Bytes

  /** v / 2^k */
  function Shr(v: nat, k: nat): nat
    decreases k
  {
    if k == 0 then v else Shr(v / 2, k - 1)
  }

  /** v * 2^k */
  function Shl(v: nat, k: nat): nat
    decreases k
  {
    if k == 0 then v else Shl(2 * v, k - 1)
  }

  /** v mod 2^n */
  function Low(v: nat, n: nat): nat {
    if n == 0 then 0 else 2 * Low(v / 2, n - 1) + v % 2
  }

  function Pow2(n: nat): (p: nat)
    ensures p > 0
  {
    if n == 0 then 1 else 2 * Pow2(n - 1)
  }

  /** Bit `k` of `v`, counted from the least significant. */
  predicate Bit(v: nat, k: nat) {
    Shr(v, k) % 2 == 1
  }

  /** Bitwise or. */
  function Or(a: nat, b: nat): nat {
    if a == 0 && b == 0 then 0
    else 2 * Or(a / 2, b / 2) + (if a % 2 == 1 || b % 2 == 1 then 1 else 0)
  }

  /** The low `n` bits of `v`. */
  function ToBits(n: nat, v: nat): (b: seq<bool>)
    ensures |b| == n
    ensures forall i :: 0 <= i < n ==> b[i] == Bit(v, n - 1 - i)
  {
    seq(n, i requires 0 <= i < n => Bit(v, n - 1 - i))
  }

  function FromBits(b: seq<bool>): nat {
    if b == [] then 0 else 2 * FromBits(b[..|b| - 1]) + (if b[|b| - 1] then 1 else 0)
  }

  function BytesBits(d: seq<Byte>): (b: seq<bool>)
    ensures |b| == 8 * |d|
    ensures forall k :: 0 <= k < 8 * |d| ==> b[k] == Bit(d[k / 8], 7 - k % 8)
  {
    seq(8 * |d|, k requires 0 <= k < 8 * |d| => Bit(d[k / 8], 7 - k % 8))
  }

  // ----- single bits -----

  lemma {:induction false} ShrShr(v: nat, a: nat, b: nat)
    ensures Shr(Shr(v, a), b) == Shr(v, a + b)
    decreases a
  {
    if a > 0 { ShrShr(v / 2, a - 1, b); }
  }

  lemma BitShr(v: nat, s: nat, k: nat)
    ensures Bit(Shr(v, s), k) == Bit(v, s + k)
  {
    ShrShr(v, s, k);
  }

  lemma {:induction false} BitDouble(v: nat, k: nat)
    ensures Bit(2 * v, k) == (k > 0 && Bit(v, k - 1))
  {
    if k > 0 { assert Shr(2 * v, k) == Shr(v, k - 1); }
  }

  lemma {:induction false} BitShl(v: nat, s: nat, k: nat)
    ensures Bit(Shl(v, s), k) == (k >= s && Bit(v, k - s))
    decreases s
  {
    if s > 0 {
      BitShl(2 * v, s - 1, k);
      if k >= s - 1 { BitDouble(v, k - (s - 1)); }
    }
  }

  lemma {:induction false} BitZero(k: nat)
    ensures !Bit(0, k)
  {
    if k > 0 { BitZero(k - 1); }
  }

  lemma {:induction false} BitLow(v: nat, n: nat, k: nat)
    ensures Bit(Low(v, n), k) == (k < n && Bit(v, k))
    decreases n
  {
    if n == 0 {
      BitZero(k);
    } else if k > 0 {
      BitLow(v / 2, n - 1, k - 1);
      assert Low(v, n) / 2 == Low(v / 2, n - 1);
    }
  }

  lemma {:induction false} BitOr(a: nat, b: nat, k: nat)
    ensures Bit(Or(a, b), k) == (Bit(a, k) || Bit(b, k))
    decreases k
  {
    if a == 0 && b == 0 {
      BitZero(k);
    } else if k > 0 {
      BitOr(a / 2, b / 2, k - 1);
      assert Or(a, b) / 2 == Or(a / 2, b / 2);
    }
  }

  // ----- bounds and plain arithmetic -----

  lemma {:induction false} LowBound(v: nat, n: nat)
    ensures Low(v, n) < Pow2(n)
    ensures v < Pow2(n) ==> Low(v, n) == v
    decreases n
  {
    if n > 0 { LowBound(v / 2, n - 1); }
  }

  lemma {:induction false} ShrLowSplit(v: nat, n: nat)
    ensures v == Shr(v, n) * Pow2(n) + Low(v, n)
    decreases n
  {
    if n > 0 {
      ShrLowSplit(v / 2, n - 1);
      Double(Shr(v, n), Pow2(n - 1));
    }
  }

  lemma Double(a: nat, p: nat)
    ensures 2 * (a * p) == a * (2 * p)
  {}

  /** Shr and Low are quotient and remainder. */
  lemma ShrLow(v: nat, n: nat)
    ensures Shr(v, n) == v / Pow2(n) && Low(v, n) == v % Pow2(n)
  {
    ShrLowSplit(v, n);
    LowBound(v, n);
    DivMod(Shr(v, n), Pow2(n), Low(v, n));
  }

  lemma DivMod(q: nat, p: nat, r: nat)
    requires r < p
    ensures (q * p + r) / p == q && (q * p + r) % p == r
  {
    var v := q * p + r;
    Steps(v / p, q, p);
  }

  lemma Steps(a: int, b: int, p: nat)
    ensures a < b ==> a * p + p <= b * p
    ensures b < a ==> b * p + p <= a * p
  {
    Product(b - a - 1, p);
    Product(a - b - 1, p);
  }

  lemma Product(d: int, p: nat)
    ensures d >= 0 ==> d * p >= 0
  {}

  lemma Pow2Values()
    ensures Pow2(1) == 2 && Pow2(8) == 0x100 && Pow2(16) == 0x1_0000 && Pow2(32) == 0x1_0000_0000
  {
    assert Pow2(4) == 16;
    Pow2Sum(4, 4);
    Pow2Sum(8, 8);
    Pow2Sum(16, 16);
  }

  lemma {:induction false} Pow2Sum(a: nat, b: nat)
    ensures Pow2(a + b) == Pow2(a) * Pow2(b)
  {
    if a > 0 {
      Pow2Sum(a - 1, b);
      Times(Pow2(a - 1), Pow2(b));
    }
  }

  lemma Times(a: nat, b: nat)
    ensures 2 * (a * b) == 2 * a * b
  {}

  lemma {:induction false} ShrBound(v: nat, a: nat, b: nat)
    requires v < Pow2(a + b)
    ensures Shr(v, a) < Pow2(b)
    decreases a
  {
    if a > 0 { ShrBound(v / 2, a - 1, b); }
  }

  lemma {:induction false} ShrLe(v: nat, k: nat)
    ensures Shr(v, k) <= v
    decreases k
  {
    if k > 0 { ShrLe(v / 2, k - 1); }
  }

  lemma {:induction false} OrBound(a: nat, b: nat, n: nat)
    requires a < Pow2(n) && b < Pow2(n)
    ensures Or(a, b) < Pow2(n)
    decreases n
  {
    if n > 0 { OrBound(a / 2, b / 2, n - 1); }
  }

  // ----- runs of bits -----

  /** Only the low bits matter, and a shifted number has the shifted bits. */
  lemma ToBitsLow(n: nat, v: nat, m: nat)
    requires n <= m
    ensures ToBits(n, Low(v, m)) == ToBits(n, v)
  {
    var l, r := ToBits(n, Low(v, m)), ToBits(n, v);
    forall i | 0 <= i < n ensures l[i] == r[i] {
      BitLow(v, m, n - 1 - i);
    }
  }

  lemma ToBitsConcat(a: nat, b: nat, v: nat)
    ensures ToBits(a + b, v) == ToBits(a, Shr(v, b)) + ToBits(b, v)
  {
    var l, r := ToBits(a + b, v), ToBits(a, Shr(v, b)) + ToBits(b, v);
    forall i | 0 <= i < a + b ensures l[i] == r[i] {
      if i < a { BitShr(v, b, a - 1 - i); }
    }
  }

  lemma {:induction false} FromToBits(n: nat, v: nat)
    ensures FromBits(ToBits(n, v)) == Low(v, n)
    decreases n
  {
    if n > 0 {
      FromToBits(n - 1, v / 2);
      assert ToBits(n, v)[..n - 1] == ToBits(n - 1, v / 2);
    }
  }

  /** A byte is known by its eight bits. */
  lemma ByteOfBits(x: Byte)
    ensures FromBits(ToBits(8, x)) == x
  {
    FromToBits(8, x);
    Pow2Values();
    LowBound(x, 8);
  }

  lemma BytesBitsConcat(a: seq<Byte>, b: seq<Byte>)
    ensures BytesBits(a + b) == BytesBits(a) + BytesBits(b)
  {
    var l, r := BytesBits(a + b), BytesBits(a) + BytesBits(b);
    forall k | 0 <= k < |l| ensures l[k] == r[k] {
      if k >= 8 * |a| {
        assert (k - 8 * |a|) / 8 == k / 8 - |a| && (k - 8 * |a|) % 8 == k % 8;
      }
    }
  }

  lemma BytesBitsOne(x: Byte)
    ensures BytesBits([x]) == ToBits(8, x)
  {}

  /** A run of whole bytes inside the bits. */
  lemma BytesBitsSlice(d: seq<Byte>, a: nat, b: nat)
    requires a <= b <= |d|
    ensures BytesBits(d)[8 * a..8 * b] == BytesBits(d[a..b])
  {
    var l, r := BytesBits(d)[8 * a..8 * b], BytesBits(d[a..b]);
    forall k | 0 <= k < |r| ensures l[k] == r[k] {
      assert (8 * a + k) / 8 == a + k / 8 && (8 * a + k) % 8 == k % 8;
    }
  }
}
