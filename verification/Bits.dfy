/**
 Bitwise operators on unbounded signed integers, as Python has them, and 32-bit words as bit
 vectors, least significant bit first.
 */
module Bits {
  import opened Common

  const TWO32 := 0x1_0000_0000

  function Pow2(n: nat): (p: nat)
    ensures p > 0
  {
    if n == 0 then 1 else 2 * Pow2(n - 1)
  }

  /** Bit i of x in two's complement with infinitely many sign bits. */
  predicate Bit(x: int, i: nat)
    decreases i
  {
    if i == 0 then x % 2 == 1 else Bit(x / 2, i - 1)
  }

  function Size(x: int): nat {
    if x < 0 then -x else x
  }

  function PyNot(x: int): int {
    -x - 1
  }

  function PyAnd(x: int, y: int): int
    decreases Size(x)
  {
    if x == 0 || y == 0 then 0
    else if x == -1 then y
    else if y == -1 then x
    else 2 * PyAnd(x / 2, y / 2) + if x % 2 == 1 && y % 2 == 1 then 1 else 0
  }

  function PyOr(x: int, y: int): int
    decreases Size(x)
  {
    if x == 0 then y
    else if y == 0 then x
    else if x == -1 || y == -1 then -1
    else 2 * PyOr(x / 2, y / 2) + if x % 2 == 1 || y % 2 == 1 then 1 else 0
  }

  function PyXor(x: int, y: int): int
    decreases Size(x)
  {
    if x == 0 then y
    else if y == 0 then x
    else if x == -1 then PyNot(y)
    else if y == -1 then PyNot(x)
    else 2 * PyXor(x / 2, y / 2) + if x % 2 != y % 2 then 1 else 0
  }

  function Shl(x: int, n: nat): int {
    x * Pow2(n)
  }

  function Shr(x: int, n: nat): int {
    x / Pow2(n)
  }

  lemma {:induction false} BitOfMinusOne(i: nat)
    ensures Bit(-1, i) && !Bit(0, i)
  {
    if i > 0 {
      BitOfMinusOne(i - 1);
    }
  }

  lemma {:induction false} BitNot(x: int, i: nat)
    ensures Bit(PyNot(x), i) == !Bit(x, i)
    decreases i
  {
    if i > 0 {
      assert PyNot(x) / 2 == PyNot(x / 2);
      BitNot(x / 2, i - 1);
    }
  }

  lemma {:induction false} BitAnd(x: int, y: int, i: nat)
    ensures Bit(PyAnd(x, y), i) == (Bit(x, i) && Bit(y, i))
    decreases i
  {
    BitOfMinusOne(i);
    if x !in {0, -1} && y !in {0, -1} && i > 0 {
      BitAnd(x / 2, y / 2, i - 1);
      assert PyAnd(x, y) / 2 == PyAnd(x / 2, y / 2);
    }
  }

  lemma {:induction false} BitOr(x: int, y: int, i: nat)
    ensures Bit(PyOr(x, y), i) == (Bit(x, i) || Bit(y, i))
    decreases i
  {
    BitOfMinusOne(i);
    if x !in {0, -1} && y !in {0, -1} && i > 0 {
      BitOr(x / 2, y / 2, i - 1);
      assert PyOr(x, y) / 2 == PyOr(x / 2, y / 2);
    }
  }

  lemma {:induction false} BitXor(x: int, y: int, i: nat)
    ensures Bit(PyXor(x, y), i) == (Bit(x, i) != Bit(y, i))
    decreases i
  {
    BitOfMinusOne(i);
    if x == -1 {
      BitNot(y, i);
    } else if y == -1 {
      BitNot(x, i);
    } else if x != 0 && y != 0 && i > 0 {
      BitXor(x / 2, y / 2, i - 1);
      assert PyXor(x, y) / 2 == PyXor(x / 2, y / 2);
    }
  }

  lemma {:induction false} BitShl(x: int, n: nat, i: nat)
    ensures Bit(Shl(x, n), i) == (i >= n && Bit(x, i - n))
    decreases i
  {
    if n > 0 {
      assert x * Pow2(n) == 2 * (x * Pow2(n - 1));
      if i > 0 {
        BitShl(x, n - 1, i - 1);
        assert Shl(x, n) / 2 == Shl(x, n - 1);
      }
    }
  }

  lemma {:induction false} BitShr(x: int, n: nat, i: nat)
    ensures Bit(Shr(x, n), i) == Bit(x, i + n)
    decreases n
  {
    hide Shr;
    if n == 0 {
      ShiftByNone(x);
    } else {
      HalveThenShift(x, n);
      BitShr(x / 2, n - 1, i);
    }
  }

  lemma ShiftByNone(x: int)
    ensures Shr(x, 0) == x
  {
  }

  lemma HalveThenShift(x: int, n: nat)
    requires n > 0
    ensures Shr(x, n) == Shr(x / 2, n - 1)
  {
    var p := Pow2(n - 1);
    DivDiv(x, p);
  }

  lemma DivDiv(x: int, p: nat)
    requires p > 0
    ensures x / (2 * p) == (x / 2) / p
  {
    var q, r := (x / 2) / p, (x / 2) % p;
    assert x == 2 * (q * p + r) + x % 2;
    assert x == q * (2 * p) + (2 * r + x % 2);
    assert 0 <= 2 * r + x % 2 < 2 * p;
    QuotientIs(x, 2 * p, q, 2 * r + x % 2);
  }

  lemma QuotientIs(x: int, d: nat, q: int, r: int)
    requires d > 0 && x == q * d + r && 0 <= r < d
    ensures x / d == q && x % d == r
  {
    var q', r' := x / d, x % d;
    if q' > q {
      Product(q' - q - 1, d);
    } else if q' < q {
      Product(q - q' - 1, d);
    }
  }

  lemma Product(a: int, b: int)
    requires a >= 0 && b >= 0
    ensures a * b >= 0
  {
  }

  // ----- words -----

  type Word = s: seq<bool> | |s| == 32 witness seq(32, _ => false)

  function BitsOf(x: int, n: nat): (s: seq<bool>)
    ensures |s| == n && forall i | 0 <= i < n :: s[i] == Bit(x, i)
  {
    seq(n, i requires 0 <= i < n => Bit(x, i))
  }

  /** The low 32 bits of x. */
  function WordOf(x: int): Word {
    BitsOf(x, 32)
  }

  function Val(s: seq<bool>): nat {
    if |s| == 0 then 0 else (if s[0] then 1 else 0) + 2 * Val(s[1..])
  }

  function NotW(a: Word): Word {
    seq(32, i requires 0 <= i < 32 => !a[i])
  }

  function AndW(a: Word, b: Word): Word {
    seq(32, i requires 0 <= i < 32 => a[i] && b[i])
  }

  function OrW(a: Word, b: Word): Word {
    seq(32, i requires 0 <= i < 32 => a[i] || b[i])
  }

  function XorW(a: Word, b: Word): Word {
    seq(32, i requires 0 <= i < 32 => a[i] != b[i])
  }

  /** Addition modulo 2^32. */
  function AddW(a: Word, b: Word): Word {
    WordOf(Val(a) + Val(b))
  }

  /** Rotation towards the most significant bit. */
  function RotW(a: Word, n: nat): Word
    requires n < 32
  {
    a[32 - n..] + a[..32 - n]
  }

  lemma {:induction false} ValOfBits(x: int, n: nat)
    ensures Val(BitsOf(x, n)) == x % Pow2(n)
    decreases n
  {
    if n > 0 {
      assert BitsOf(x, n)[1..] == BitsOf(x / 2, n - 1);
      ValOfBits(x / 2, n - 1);
      HalveModulo(x, n);
    }
  }

  lemma Pow2Of32()
    ensures Pow2(32) == TWO32
  {
    assert Pow2(8) == 256;
    assert Pow2(16) == 65536;
    assert Pow2(24) == 16777216;
  }

  lemma {:induction false} BitsOfMod(x: int, n: nat, i: nat)
    requires i < n
    ensures Bit(x % Pow2(n), i) == Bit(x, i)
    decreases n
  {
    HalveModulo(x, n);
    assert (x % Pow2(n)) / 2 == (x / 2) % Pow2(n - 1) && (x % Pow2(n)) % 2 == x % 2;
    if i > 0 {
      BitsOfMod(x / 2, n - 1, i - 1);
    }
  }

  /** A word is its value modulo 2^32. */
  lemma WordIsModulo(x: int)
    ensures WordOf(x % TWO32) == WordOf(x) && Val(WordOf(x)) == x % TWO32
  {
    Pow2Of32();
    ValOfBits(x, 32);
    forall i | 0 <= i < 32
      ensures Bit(x % TWO32, i) == Bit(x, i)
    {
      BitsOfMod(x, 32, i);
    }
  }

  lemma Congruent(x: int, y: int)
    requires x % TWO32 == y % TWO32
    ensures WordOf(x) == WordOf(y)
  {
    WordIsModulo(x);
    WordIsModulo(y);
  }

  lemma HalveModulo(x: int, n: nat)
    requires n > 0
    ensures x % Pow2(n) == 2 * ((x / 2) % Pow2(n - 1)) + x % 2
  {
    var p := Pow2(n - 1);
    var q, r := (x / 2) / p, (x / 2) % p;
    assert x == q * (2 * p) + (2 * r + x % 2);
    QuotientIs(x, 2 * p, q, 2 * r + x % 2);
  }

  lemma {:induction false} AndOnes(x: int, n: nat)
    ensures PyAnd(x, Pow2(n) - 1) == x % Pow2(n)
    decreases n
  {
    if n > 0 {
      var y := Pow2(n) - 1;
      AndOnes(x / 2, n - 1);
      HalveModulo(x, n);
      assert y / 2 == Pow2(n - 1) - 1 && y % 2 == 1;
      if x == -1 {
        HalveModulo(-1, n);
        MinusOneModulo(n);
      } else if x == 0 {
        ZeroModulo(n);
      }
    }
  }

  lemma MinusOneModulo(n: nat)
    ensures -1 % Pow2(n) == Pow2(n) - 1
  {
    QuotientIs(-1, Pow2(n), -1, Pow2(n) - 1);
  }

  lemma ZeroModulo(n: nat)
    ensures 0 % Pow2(n) == 0
  {
    QuotientIs(0, Pow2(n), 0, 0);
  }

  /** `& 0xFFFFFFFF` */
  lemma MaskIsModulo(x: int)
    ensures PyAnd(x, 0xFFFFFFFF) == x % TWO32
  {
    Pow2Of32();
    AndOnes(x, 32);
  }

  // ----- the operators on words -----

  lemma WordNot(x: int)
    ensures WordOf(PyNot(x)) == NotW(WordOf(x))
  {
    forall i | 0 <= i < 32 ensures Bit(PyNot(x), i) == !Bit(x, i) { BitNot(x, i); }
  }

  lemma WordAnd(x: int, y: int)
    ensures WordOf(PyAnd(x, y)) == AndW(WordOf(x), WordOf(y))
  {
    forall i | 0 <= i < 32 ensures Bit(PyAnd(x, y), i) == (Bit(x, i) && Bit(y, i)) { BitAnd(x, y, i); }
  }

  lemma WordOr(x: int, y: int)
    ensures WordOf(PyOr(x, y)) == OrW(WordOf(x), WordOf(y))
  {
    forall i | 0 <= i < 32 ensures Bit(PyOr(x, y), i) == (Bit(x, i) || Bit(y, i)) { BitOr(x, y, i); }
  }

  lemma WordXor(x: int, y: int)
    ensures WordOf(PyXor(x, y)) == XorW(WordOf(x), WordOf(y))
  {
    forall i | 0 <= i < 32 ensures Bit(PyXor(x, y), i) == (Bit(x, i) != Bit(y, i)) { BitXor(x, y, i); }
  }

  lemma WordAdd(x: int, y: int)
    ensures WordOf(x + y) == AddW(WordOf(x), WordOf(y))
  {
    hide WordOf;
    WordIsModulo(x);
    WordIsModulo(y);
    AddModulo(x, y);
    Congruent(x + y, x % TWO32 + y % TWO32);
  }

  lemma AddModulo(x: int, y: int)
    ensures (x + y) % TWO32 == (x % TWO32 + y % TWO32) % TWO32
  {
  }

  /** rol(x, n) of the Python code. */
  function PyRol(x: int, n: nat): int
    requires n <= 32
  {
    PyAnd(PyOr(Shl(x, n), Shr(x, 32 - n)), 0xFFFFFFFF)
  }

  lemma {:induction false} HighBitsZero(x: nat, n: nat, i: nat)
    requires x < Pow2(n) && i >= n
    ensures !Bit(x, i)
    decreases i
  {
    if i > 0 {
      if n > 0 {
        HighBitsZero(x / 2, n - 1, i - 1);
      } else {
        HighBitsZero(0, 0, i - 1);
      }
    }
  }

  lemma WordRol(x: nat, n: nat)
    requires x < TWO32 && 0 < n < 32
    ensures 0 <= PyRol(x, n) < TWO32
    ensures WordOf(PyRol(x, n)) == RotW(WordOf(x), n)
  {
    hide Shl, Shr, PyOr, PyAnd, Bit, Val;
    var y := PyOr(Shl(x, n), Shr(x, 32 - n));
    MaskIsModulo(y);
    WordIsModulo(y);
    Pow2Of32();
    hide Pow2;
    forall i | 0 <= i < 32
      ensures Bit(y, i) == RotW(WordOf(x), n)[i]
    {
      BitOr(Shl(x, n), Shr(x, 32 - n), i);
      BitShl(x, n, i);
      BitShr(x, 32 - n, i);
      if i >= n {
        HighBitsZero(x, 32, i + 32 - n);
      }
    }
  }
}
