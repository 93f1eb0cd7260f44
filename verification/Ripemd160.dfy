/**
 RIPEMD-160 as the Python code computes it, on unbounded signed integers masked now and then, and
 as Appendix A of "RIPEMD-160: A Strengthened Version of RIPEMD" defines it, on 32-bit words.
 */
module Ripemd160 {
  import opened Common
  import opened Bytes
  import opened Bits

  // ----- tables, five rounds of sixteen -----

  const R1: seq<seq<nat>> := [
    [0, 1, 2, 3, 4, 5, 6, 7, 8, 9, 10, 11, 12, 13, 14, 15],
    [7, 4, 13, 1, 10, 6, 15, 3, 12, 0, 9, 5, 2, 14, 11, 8],
    [3, 10, 14, 4, 9, 15, 8, 1, 2, 7, 0, 6, 13, 11, 5, 12],
    [1, 9, 11, 10, 0, 8, 12, 4, 13, 3, 7, 15, 14, 5, 6, 2],
    [4, 0, 5, 9, 7, 12, 2, 10, 14, 1, 3, 8, 11, 6, 15, 13]]

  const R2: seq<seq<nat>> := [
    [5, 14, 7, 0, 9, 2, 11, 4, 13, 6, 15, 8, 1, 10, 3, 12],
    [6, 11, 3, 7, 0, 13, 5, 10, 14, 15, 8, 12, 4, 9, 1, 2],
    [15, 5, 1, 3, 7, 14, 6, 9, 11, 8, 12, 2, 10, 0, 4, 13],
    [8, 6, 4, 1, 3, 11, 15, 0, 5, 12, 2, 13, 9, 7, 10, 14],
    [12, 15, 10, 4, 1, 5, 8, 7, 6, 2, 13, 14, 0, 3, 9, 11]]

  const S1: seq<seq<nat>> := [
    [11, 14, 15, 12, 5, 8, 7, 9, 11, 13, 14, 15, 6, 7, 9, 8],
    [7, 6, 8, 13, 11, 9, 7, 15, 7, 12, 15, 9, 11, 7, 13, 12],
    [11, 13, 6, 7, 14, 9, 13, 15, 14, 8, 13, 6, 5, 12, 7, 5],
    [11, 12, 14, 15, 14, 15, 9, 8, 9, 14, 5, 6, 8, 6, 5, 12],
    [9, 15, 5, 11, 6, 8, 13, 12, 5, 12, 13, 14, 11, 8, 5, 6]]

  const S2: seq<seq<nat>> := [
    [8, 9, 9, 11, 13, 15, 15, 5, 7, 7, 8, 11, 14, 14, 12, 6],
    [9, 13, 15, 7, 12, 8, 9, 11, 7, 7, 12, 7, 6, 15, 13, 11],
    [9, 7, 15, 11, 8, 6, 6, 14, 12, 13, 5, 14, 13, 13, 7, 5],
    [15, 5, 8, 11, 14, 14, 6, 14, 6, 9, 12, 9, 12, 5, 15, 8],
    [8, 5, 12, 9, 12, 5, 14, 6, 8, 13, 6, 5, 15, 13, 11, 11]]

  const K1: seq<nat> := [0x00000000, 0x5A827999, 0x6ED9EBA1, 0x8F1BBCDC, 0xA953FD4E]
  const K2: seq<nat> := [0x50A28BE6, 0x5C4DD124, 0x6D703EF3, 0x7A6D76E9, 0x00000000]

  /** Five rows of sixteen numbers from lo up to hi. */
  ghost predicate Table(t: seq<seq<nat>>, lo: nat, hi: nat) {
    |t| == 5 && forall i | 0 <= i < 5 :: |t[i]| == 16 && forall k | k in t[i] :: lo <= k < hi
  }

  lemma WordTables()
    ensures Table(R1, 0, 16) && Table(R2, 0, 16)
  {
  }

  lemma RotationTables()
    ensures Table(S1, 1, 32) && Table(S2, 1, 32)
  {
  }

  /** Which message word, which rotation, which constant: left line or right line, step j. */
  function Pick16(left: bool, j: nat): (r: nat)
    requires j < 80
    ensures r < 16
  {
    WordTables();
    var t := if left then R1 else R2;
    assert t[j / 16][j % 16] in t[j / 16];
    t[j / 16][j % 16]
  }

  function Rotation(left: bool, j: nat): (n: nat)
    requires j < 80
    ensures 0 < n < 32
  {
    RotationTables();
    var t := if left then S1 else S2;
    assert t[j / 16][j % 16] in t[j / 16];
    t[j / 16][j % 16]
  }

  function Constant(left: bool, j: nat): nat
    requires j < 80
  {
    if left then K1[j / 16] else K2[j / 16]
  }

  /** The five chaining words, or the five working words of a line. */
  datatype Five<T> = Five(a: T, b: T, c: T, d: T, e: T)

  const START := Five(0x67452301, 0xEFCDAB89, 0x98BADCFE, 0x10325476, 0xC3D2E1F0)

  // ----- on unbounded integers, as the Python code does it -----

  function PyF(j: nat, x: int, y: int, z: int): int {
    if j < 16 then PyXor(PyXor(x, y), z)
    else if j < 32 then PyOr(PyAnd(x, y), PyAnd(PyNot(x), z))
    else if j < 48 then PyXor(PyOr(x, PyNot(y)), z)
    else if j < 64 then PyOr(PyAnd(x, z), PyAnd(y, PyNot(z)))
    else PyXor(x, PyOr(y, PyNot(z)))
  }

  function Mask(x: int): int {
    PyAnd(x, 0xFFFFFFFF)
  }

  function PyStep(left: bool, j: nat, v: Five<int>, x: seq<int>): Five<int>
    requires j < 80 && |x| == 16
  {
    var f := PyF(if left then j else 79 - j, v.b, v.c, v.d);
    var t := Mask(PyRol(Mask(v.a + f + x[Pick16(left, j)] + Constant(left, j)), Rotation(left, j)) + v.e);
    Five(v.e, t, v.b, PyRol(v.c, 10), v.d)
  }

  function PyLine(left: bool, n: nat, v: Five<int>, x: seq<int>): Five<int>
    requires n <= 80 && |x| == 16
  {
    if n == 0 then v else PyStep(left, n - 1, PyLine(left, n - 1, v, x), x)
  }

  function PyCompress(h: Five<int>, x: seq<int>): Five<int>
    requires |x| == 16
  {
    var l, r := PyLine(true, 80, h, x), PyLine(false, 80, h, x);
    Five(Mask(h.b + l.c + r.d), Mask(h.c + l.d + r.e), Mask(h.d + l.e + r.a), Mask(h.e + l.a + r.b),
         Mask(h.a + l.b + r.c))
  }

  function LittleEndian(n: nat, k: nat): (s: seq<Byte>)
    ensures |s| == k
  {
    if k == 0 then [] else [n % 256] + LittleEndian(n / 256, k - 1)
  }

  function FromLittle(bs: seq<Byte>): nat {
    if |bs| == 0 then 0 else bs[0] + 256 * FromLittle(bs[1..])
  }

  function Words(msg: seq<Byte>, off: nat): (x: seq<int>)
    requires off + 64 <= |msg|
    ensures |x| == 16
  {
    seq(16, i requires 0 <= i < 16 => FromLittle(msg[off + 4 * i..off + 4 * i + 4]))
  }

  function PyBlocks(msg: seq<Byte>, n: nat): Five<int>
    requires 64 * n <= |msg|
  {
    if n == 0 then START else PyCompress(PyBlocks(msg, n - 1), Words(msg, 64 * (n - 1)))
  }

  lemma PaddedLength(n: nat)
    ensures (n + 1 + (55 - n) % 64 + 8) % 64 == 0
  {
    var q := (55 - n) / 64;
    assert n + 1 + (55 - n) % 64 + 8 == 64 * (1 - q);
  }

  /** 0x80, zeros up to 56 modulo 64, and the bit length in eight bytes. */
  function Pad(data: seq<Byte>): (msg: seq<Byte>)
    ensures |msg| % 64 == 0
  {
    PaddedLength(|data|);
    data + [0x80] + Zeros((55 - |data|) % 64) + LittleEndian(8 * |data|, 8)
  }

  const MAX_LENGTH := 0x2000_0000_0000_0000

  /** The five words in four bytes each; a word that did not fit would raise. */
  function Output(v: Five<int>): (s: seq<Byte>)
    requires Bounded(v)
    ensures |s| == 20
  {
    LittleEndian(v.a, 4) + LittleEndian(v.b, 4) + LittleEndian(v.c, 4) + LittleEndian(v.d, 4) + LittleEndian(v.e, 4)
  }

  /** The digest; None where the bit length does not fit eight bytes and Python raises. */
  function PyHash(data: seq<Byte>): (digest: Option<seq<Byte>>)
    ensures digest.Some? <==> |data| < MAX_LENGTH
  {
    if |data| >= MAX_LENGTH then None
    else
      var msg := Pad(data);
      BlocksBounded(msg, |msg| / 64);
      Some(Output(PyBlocks(msg, |msg| / 64)))
  }

  // ----- every chaining word stays below 2^32 -----

  predicate Bounded(v: Five<int>) {
    0 <= v.a < TWO32 && 0 <= v.b < TWO32 && 0 <= v.c < TWO32 && 0 <= v.d < TWO32 && 0 <= v.e < TWO32
  }

  lemma MaskWord(x: int)
    ensures 0 <= Mask(x) < TWO32 && WordOf(Mask(x)) == WordOf(x)
  {
    MaskIsModulo(x);
    WordIsModulo(x);
  }

  lemma RolBounded(x: int, n: nat)
    requires n <= 32
    ensures 0 <= PyRol(x, n) < TWO32
  {
    MaskIsModulo(PyOr(Shl(x, n), Shr(x, 32 - n)));
  }

  lemma StepBounded(left: bool, j: nat, v: Five<int>, x: seq<int>)
    requires j < 80 && |x| == 16 && Bounded(v)
    ensures Bounded(PyStep(left, j, v, x))
  {
    hide Mask, PyRol, PyF;
    RolBounded(v.c, 10);
    MaskWord(PyRol(Mask(v.a + PyF(if left then j else 79 - j, v.b, v.c, v.d) + x[Pick16(left, j)] + Constant(left, j)),
                   Rotation(left, j)) + v.e);
  }

  lemma {:induction false} LineBounded(left: bool, n: nat, v: Five<int>, x: seq<int>)
    requires n <= 80 && |x| == 16 && Bounded(v)
    ensures Bounded(PyLine(left, n, v, x))
  {
    hide PyStep, Bounded;
    if n > 0 {
      LineBounded(left, n - 1, v, x);
      StepBounded(left, n - 1, PyLine(left, n - 1, v, x), x);
    }
  }

  lemma CompressBounded(h: Five<int>, x: seq<int>)
    requires |x| == 16
    ensures Bounded(PyCompress(h, x))
  {
    hide Mask, PyLine;
    var l, r := PyLine(true, 80, h, x), PyLine(false, 80, h, x);
    MaskWord(h.b + l.c + r.d);
    MaskWord(h.c + l.d + r.e);
    MaskWord(h.d + l.e + r.a);
    MaskWord(h.e + l.a + r.b);
    MaskWord(h.a + l.b + r.c);
  }

  lemma {:induction false} BlocksBounded(msg: seq<Byte>, n: nat)
    requires 64 * n <= |msg|
    ensures Bounded(PyBlocks(msg, n))
  {
    hide PyCompress;
    if n > 0 {
      CompressBounded(PyBlocks(msg, n - 1), Words(msg, 64 * (n - 1)));
    }
  }

  // ----- on 32-bit words, as the paper defines it -----

  function F(j: nat, x: Word, y: Word, z: Word): Word {
    if j < 16 then XorW(XorW(x, y), z)
    else if j < 32 then OrW(AndW(x, y), AndW(NotW(x), z))
    else if j < 48 then XorW(OrW(x, NotW(y)), z)
    else if j < 64 then OrW(AndW(x, z), AndW(y, NotW(z)))
    else XorW(x, OrW(y, NotW(z)))
  }

  function Step(left: bool, j: nat, v: Five<Word>, x: seq<Word>): Five<Word>
    requires j < 80 && |x| == 16
  {
    var f := F(if left then j else 79 - j, v.b, v.c, v.d);
    var t := AddW(RotW(AddW(AddW(AddW(v.a, f), x[Pick16(left, j)]), WordOf(Constant(left, j))), Rotation(left, j)),
                  v.e);
    Five(v.e, t, v.b, RotW(v.c, 10), v.d)
  }

  function Line(left: bool, n: nat, v: Five<Word>, x: seq<Word>): Five<Word>
    requires n <= 80 && |x| == 16
  {
    if n == 0 then v else Step(left, n - 1, Line(left, n - 1, v, x), x)
  }

  function Compress(h: Five<Word>, x: seq<Word>): Five<Word>
    requires |x| == 16
  {
    var l, r := Line(true, 80, h, x), Line(false, 80, h, x);
    Five(AddW(AddW(h.b, l.c), r.d), AddW(AddW(h.c, l.d), r.e), AddW(AddW(h.d, l.e), r.a),
         AddW(AddW(h.e, l.a), r.b), AddW(AddW(h.a, l.b), r.c))
  }

  function AsWords(x: seq<int>): (w: seq<Word>)
    ensures |w| == |x| && forall i | 0 <= i < |x| :: w[i] == WordOf(x[i])
  {
    seq(|x|, i requires 0 <= i < |x| => WordOf(x[i]))
  }

  function WordsOf(v: Five<int>): Five<Word> {
    Five(WordOf(v.a), WordOf(v.b), WordOf(v.c), WordOf(v.d), WordOf(v.e))
  }

  function Blocks(msg: seq<Byte>, n: nat): Five<Word>
    requires 64 * n <= |msg|
  {
    if n == 0 then WordsOf(START) else Compress(Blocks(msg, n - 1), AsWords(Words(msg, 64 * (n - 1))))
  }

  // ----- the Python code -----

  /** Both lines of one block, eighty steps side by side. */
  method Lines(h: Five<int>, x: seq<int>) returns (l: Five<int>, r: Five<int>)
    requires |x| == 16
    ensures l == PyLine(true, 80, h, x) && r == PyLine(false, 80, h, x)
  {
    hide Mask, PyRol, PyF, Pick16, Rotation, Constant;
    l, r := h, h;
    for j := 0 to 80
      invariant l == PyLine(true, j, h, x) && r == PyLine(false, j, h, x)
    {
      var t := Mask(PyRol(Mask(l.a + PyF(j, l.b, l.c, l.d) + x[Pick16(true, j)] + Constant(true, j)), Rotation(true, j))
                    + l.e);
      l := Five(l.e, t, l.b, PyRol(l.c, 10), l.d);
      t := Mask(PyRol(Mask(r.a + PyF(79 - j, r.b, r.c, r.d) + x[Pick16(false, j)] + Constant(false, j)),
                      Rotation(false, j)) + r.e);
      r := Five(r.e, t, r.b, PyRol(r.c, 10), r.d);
    }
  }

  /** Zeros are appended just until the length is 56 modulo 64. */
  lemma PadCount(len: nat, zeros: nat)
    requires zeros <= (55 - len) % 64
    ensures (len + 1 + zeros) % 64 == 56 <==> zeros == (55 - len) % 64
  {
    var q, r := len / 64, len % 64;
    assert (55 - len) % 64 == if r <= 55 then 55 - r else 119 - r;
  }

  method Padded(data: seq<Byte>) returns (msg: Option<seq<Byte>>)
    ensures msg == if |data| < MAX_LENGTH then Some(Pad(data)) else None
  {
    hide LittleEndian;
    var m := data + [0x80];
    var bitlen := |data| * 8;
    var zeros := 0;
    while |m| % 64 != 56
      invariant zeros <= (55 - |data|) % 64
      invariant m == data + [0x80] + Zeros(zeros)
      decreases (55 - |data|) % 64 - zeros
    {
      PadCount(|data|, zeros);
      assert Zeros(zeros) + [0] == Zeros(zeros + 1);
      m := m + [0];
      zeros := zeros + 1;
    }
    PadCount(|data|, zeros);
    if bitlen >= 0x1_0000_0000_0000_0000 {
      return None;
    }
    msg := Some(m + LittleEndian(bitlen, 8));
  }

  method Ripemd160Py(data: seq<Byte>) returns (digest: Option<seq<Byte>>)
    ensures digest == PyHash(data)
  {
    hide Mask, PyLine, Pad, Words;
    var padded := Padded(data);
    if padded.None? {
      return None;
    }
    var h, msg := START, padded.value;
    var blocks := |msg| / 64;
    for n := 0 to blocks
      invariant h == PyBlocks(msg, n)
    {
      var l, r := Lines(h, Words(msg, 64 * n));
      var t := Mask(h.b + l.c + r.d);
      h := Five(t, Mask(h.c + l.d + r.e), Mask(h.d + l.e + r.a), Mask(h.e + l.a + r.b), Mask(h.a + l.b + r.c));
    }
    BlocksBounded(msg, blocks);
    digest := Some(Output(h));
  }

  // ----- the Python code refines the paper's definition -----

  lemma FRefines(j: nat, x: int, y: int, z: int)
    ensures WordOf(PyF(j, x, y, z)) == F(j, WordOf(x), WordOf(y), WordOf(z))
  {
    hide WordOf, PyAnd, PyOr, PyXor, PyNot, AndW, OrW, XorW, NotW;
    if j < 16 {
      WordXor(x, y);
      WordXor(PyXor(x, y), z);
    } else if j < 32 {
      WordAnd(x, y);
      WordNot(x);
      WordAnd(PyNot(x), z);
      WordOr(PyAnd(x, y), PyAnd(PyNot(x), z));
    } else if j < 48 {
      WordNot(y);
      WordOr(x, PyNot(y));
      WordXor(PyOr(x, PyNot(y)), z);
    } else if j < 64 {
      WordAnd(x, z);
      WordNot(z);
      WordAnd(y, PyNot(z));
      WordOr(PyAnd(x, z), PyAnd(y, PyNot(z)));
    } else {
      WordNot(z);
      WordOr(y, PyNot(z));
      WordXor(x, PyOr(y, PyNot(z)));
    }
  }

  lemma Sum3(x: int, y: int, z: int)
    ensures WordOf(Mask(x + y + z)) == AddW(AddW(WordOf(x), WordOf(y)), WordOf(z))
  {
    hide WordOf, Mask, AddW;
    MaskWord(x + y + z);
    WordAdd(x, y);
    WordAdd(x + y, z);
  }

  lemma StepRefines(left: bool, j: nat, v: Five<int>, x: seq<int>)
    requires j < 80 && |x| == 16 && Bounded(v)
    ensures WordsOf(PyStep(left, j, v, x)) == Step(left, j, WordsOf(v), AsWords(x))
  {
    hide WordOf, Mask, PyRol, PyF, F, AddW, RotW, Pick16, Rotation, Constant;
    var i, n, k := Pick16(left, j), Rotation(left, j), Constant(left, j);
    var f := PyF(if left then j else 79 - j, v.b, v.c, v.d);
    FRefines(if left then j else 79 - j, v.b, v.c, v.d);
    var sum := v.a + f + x[i] + k;
    WordAdd(v.a, f);
    WordAdd(v.a + f, x[i]);
    WordAdd(v.a + f + x[i], k);
    MaskWord(sum);
    WordRol(Mask(sum), n);
    MaskWord(PyRol(Mask(sum), n) + v.e);
    WordAdd(PyRol(Mask(sum), n), v.e);
    WordRol(v.c, 10);
  }

  lemma {:induction false} LineRefines(left: bool, n: nat, v: Five<int>, x: seq<int>)
    requires n <= 80 && |x| == 16 && Bounded(v)
    ensures WordsOf(PyLine(left, n, v, x)) == Line(left, n, WordsOf(v), AsWords(x))
  {
    hide PyStep, Step, WordsOf, Bounded;
    if n > 0 {
      LineRefines(left, n - 1, v, x);
      LineBounded(left, n - 1, v, x);
      StepRefines(left, n - 1, PyLine(left, n - 1, v, x), x);
    }
  }

  lemma CompressRefines(h: Five<int>, x: seq<int>)
    requires |x| == 16 && Bounded(h)
    ensures WordsOf(PyCompress(h, x)) == Compress(WordsOf(h), AsWords(x))
  {
    hide PyLine, Line, WordOf, AddW, Mask;
    LineRefines(true, 80, h, x);
    LineRefines(false, 80, h, x);
    var l, r := PyLine(true, 80, h, x), PyLine(false, 80, h, x);
    Sum3(h.b, l.c, r.d);
    Sum3(h.c, l.d, r.e);
    Sum3(h.d, l.e, r.a);
    Sum3(h.e, l.a, r.b);
    Sum3(h.a, l.b, r.c);
  }

  lemma {:induction false} BlocksRefine(msg: seq<Byte>, n: nat)
    requires 64 * n <= |msg|
    ensures WordsOf(PyBlocks(msg, n)) == Blocks(msg, n)
  {
    hide PyCompress, Compress, WordsOf;
    if n > 0 {
      BlocksRefine(msg, n - 1);
      BlocksBounded(msg, n - 1);
      CompressRefines(PyBlocks(msg, n - 1), Words(msg, 64 * (n - 1)));
    }
  }

  /** RIPEMD-160 of the paper. */
  function Hash(data: seq<Byte>): (digest: seq<Byte>)
    ensures |digest| == 20
  {
    var msg := Pad(data);
    var h := Blocks(msg, |msg| / 64);
    LittleEndian(Val(h.a), 4) + LittleEndian(Val(h.b), 4) + LittleEndian(Val(h.c), 4) + LittleEndian(Val(h.d), 4)
    + LittleEndian(Val(h.e), 4)
  }

  /** Late masking on signed integers computes the 32-bit function, for every message under 2^61 bytes. */
  lemma PythonIsRipemd160(data: seq<Byte>)
    requires |data| < MAX_LENGTH
    ensures PyHash(data) == Some(Hash(data))
  {
    hide WordOf, Val, LittleEndian, PyBlocks, Blocks, Pad;
    var msg := Pad(data);
    var v := PyBlocks(msg, |msg| / 64);
    BlocksRefine(msg, |msg| / 64);
    BlocksBounded(msg, |msg| / 64);
    WordIsModulo(v.a);
    WordIsModulo(v.b);
    WordIsModulo(v.c);
    WordIsModulo(v.d);
    WordIsModulo(v.e);
  }

  // ----- padding -----

  lemma {:induction false} LittleRoundTrip(n: nat, k: nat)
    requires n < Pow(256, k)
    ensures FromLittle(LittleEndian(n, k)) == n
  {
    if k > 0 {
      LittleRoundTrip(n / 256, k - 1);
      assert LittleEndian(n, k)[1..] == LittleEndian(n / 256, k - 1);
    }
  }

  lemma EightBytesEnough()
    ensures Pow(256, 8) == 8 * MAX_LENGTH
  {
    assert Pow(256, 4) == 4294967296;
    PowAdd(256, 4, 4);
  }

  /** Different messages are padded differently, so padding adds no collisions. */
  lemma PadInjective(a: seq<Byte>, b: seq<Byte>)
    requires |a| < MAX_LENGTH && |b| < MAX_LENGTH && Pad(a) == Pad(b)
    ensures a == b
  {
    EightBytesEnough();
    LittleRoundTrip(8 * |a|, 8);
    LittleRoundTrip(8 * |b|, 8);
    var p, q := Pad(a), Pad(b);
    assert p[|p| - 8..] == LittleEndian(8 * |a|, 8);
    assert q[|q| - 8..] == LittleEndian(8 * |b|, 8);
    assert p[..|a|] == a && q[..|b|] == b;
  }
}
