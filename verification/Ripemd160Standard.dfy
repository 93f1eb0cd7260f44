/**
 What Appendix A of "RIPEMD-160: A Strengthened Version of RIPEMD" fixes, apart from the code: the
 order of the message words, the rotations, the constants, the boolean functions, the recurrence of a
 line, the combination of both lines, and the layout of the padded message and of the digest.
 */
module Ripemd160Standard {
  import opened Common
  import opened Bytes
  import opened Bits
  import opened Ripemd160

  // ----- tables -----

  /** The paper's permutation rho. */
  function Rho(i: nat): nat {
    match i
    case 0 => 7
    case 1 => 4
    case 2 => 13
    case 3 => 1
    case 4 => 10
    case 5 => 6
    case 6 => 15
    case 7 => 3
    case 8 => 12
    case 9 => 0
    case 10 => 9
    case 11 => 5
    case 12 => 2
    case 13 => 14
    case 14 => 11
    case _ => 8
  }

  /** Each entry of `next` is rho of the entry of `row` in its place. */
  predicate Follows(next: seq<nat>, row: seq<nat>) {
    |next| == |row| == 16 && forall i | 0 <= i < 16 :: row[i] < 16 && next[i] == Rho(row[i])
  }

  lemma LeftRound2()
    ensures Follows(R1[1], R1[0])
  {
  }

  lemma RightRound2()
    ensures Follows(R2[1], R2[0])
  {
  }

  lemma LeftRound3()
    ensures Follows(R1[2], R1[1])
  {
  }

  lemma RightRound3()
    ensures Follows(R2[2], R2[1])
  {
  }

  lemma LeftRound4()
    ensures Follows(R1[3], R1[2])
  {
  }

  lemma RightRound4()
    ensures Follows(R2[3], R2[2])
  {
  }

  lemma LeftRound5()
    ensures Follows(R1[4], R1[3])
  {
  }

  lemma RightRound5()
    ensures Follows(R2[4], R2[3])
  {
  }

  lemma FirstRound()
    ensures forall i | 0 <= i < 16 :: R1[0][i] == i && R2[0][i] == (9 * i + 5) % 16
  {
  }

  /** The left line starts in order, the right line at 9i + 5, and rho leads from round to round. */
  lemma {:induction false} MessageOrder()
    ensures |R1| == |R2| == 5 && |R1[0]| == |R2[0]| == 16
    ensures forall i | 0 <= i < 16 :: R1[0][i] == i && R2[0][i] == (9 * i + 5) % 16
    ensures forall k | 0 <= k < 4 :: Follows(R1[k + 1], R1[k]) && Follows(R2[k + 1], R2[k])
  {
    Lengths();
    FirstRound();
    LeftRound2();
    RightRound2();
    LeftRound3();
    RightRound3();
    LeftRound4();
    RightRound4();
    LeftRound5();
    RightRound5();
    hide Follows, R1, R2;
  }

  lemma Lengths()
    ensures |R1| == |R2| == |S1| == |S2| == 5 && |R1[0]| == |R2[0]| == 16
  {
  }

  function Shift1(w: nat): nat {
    match w
    case 0 => 11
    case 1 => 14
    case 2 => 15
    case 3 => 12
    case 4 => 5
    case 5 => 8
    case 6 => 7
    case 7 => 9
    case 8 => 11
    case 9 => 13
    case 10 => 14
    case 11 => 15
    case 12 => 6
    case 13 => 7
    case 14 => 9
    case _ => 8
  }

  function Shift2(w: nat): nat {
    match w
    case 0 => 12
    case 1 => 13
    case 2 => 11
    case 3 => 15
    case 4 => 6
    case 5 => 9
    case 6 => 9
    case 7 => 7
    case 8 => 12
    case 9 => 15
    case 10 => 11
    case 11 => 13
    case 12 => 7
    case 13 => 8
    case 14 => 7
    case _ => 7
  }

  function Shift3(w: nat): nat {
    match w
    case 0 => 13
    case 1 => 15
    case 2 => 14
    case 3 => 11
    case 4 => 7
    case 5 => 7
    case 6 => 6
    case 7 => 8
    case 8 => 13
    case 9 => 14
    case 10 => 13
    case 11 => 12
    case 12 => 5
    case 13 => 5
    case 14 => 6
    case _ => 9
  }

  function Shift4(w: nat): nat {
    match w
    case 0 => 14
    case 1 => 11
    case 2 => 12
    case 3 => 14
    case 4 => 8
    case 5 => 6
    case 6 => 5
    case 7 => 5
    case 8 => 15
    case 9 => 12
    case 10 => 15
    case 11 => 14
    case 12 => 9
    case 13 => 9
    case 14 => 8
    case _ => 6
  }

  function Shift5(w: nat): nat {
    match w
    case 0 => 15
    case 1 => 12
    case 2 => 13
    case 3 => 13
    case 4 => 9
    case 5 => 5
    case 6 => 8
    case 7 => 6
    case 8 => 14
    case 9 => 11
    case 10 => 12
    case 11 => 11
    case 12 => 8
    case 13 => 6
    case 14 => 5
    case _ => 5
  }

  /** The rotation of message word w in round k, the same for both lines. */
  function ShiftOf(k: nat, w: nat): nat {
    match k
    case 0 => Shift1(w)
    case 1 => Shift2(w)
    case 2 => Shift3(w)
    case 3 => Shift4(w)
    case _ => Shift5(w)
  }

  /** Each entry of `ss` is the shift of the message word in its place. */
  predicate ShiftsBy(ss: seq<nat>, row: seq<nat>, k: nat) {
    |ss| == |row| == 16 && forall i | 0 <= i < 16 :: ss[i] == ShiftOf(k, row[i])
  }

  lemma LeftShifts1()
    ensures ShiftsBy(S1[0], R1[0], 0)
  {
  }

  lemma RightShifts1()
    ensures ShiftsBy(S2[0], R2[0], 0)
  {
  }

  lemma LeftShifts2()
    ensures ShiftsBy(S1[1], R1[1], 1)
  {
  }

  lemma RightShifts2()
    ensures ShiftsBy(S2[1], R2[1], 1)
  {
  }

  lemma LeftShifts3()
    ensures ShiftsBy(S1[2], R1[2], 2)
  {
  }

  lemma RightShifts3()
    ensures ShiftsBy(S2[2], R2[2], 2)
  {
  }

  lemma LeftShifts4()
    ensures ShiftsBy(S1[3], R1[3], 3)
  {
  }

  lemma RightShifts4()
    ensures ShiftsBy(S2[3], R2[3], 3)
  {
  }

  lemma LeftShifts5()
    ensures ShiftsBy(S1[4], R1[4], 4)
  {
  }

  lemma RightShifts5()
    ensures ShiftsBy(S2[4], R2[4], 4)
  {
  }

  /** Both lines rotate by one table, indexed by round and message word. */
  lemma {:induction false} RotationsByWord()
    ensures |S1| == |S2| == |R1| == |R2| == 5
    ensures forall k | 0 <= k < 5 :: ShiftsBy(S1[k], R1[k], k) && ShiftsBy(S2[k], R2[k], k)
  {
    Lengths();
    LeftShifts1();
    RightShifts1();
    LeftShifts2();
    RightShifts2();
    LeftShifts3();
    RightShifts3();
    LeftShifts4();
    RightShifts4();
    LeftShifts5();
    RightShifts5();
    hide ShiftsBy, R1, R2, S1, S2;
  }

  /** k is the whole part of 2^30 times the square root of p. */
  predicate Square(k: nat, p: nat) {
    k * k <= 0x1000_0000_0000_0000 * p < (k + 1) * (k + 1)
  }

  /** k is the whole part of 2^30 times the cube root of p. */
  predicate Cube(k: nat, p: nat) {
    k * k * k <= 0x400_0000_0000_0000_0000_0000 * p < (k + 1) * (k + 1) * (k + 1)
  }

  /** The constants are the roots of 2, 3, 5 and 7, and nothing in one round of each line. */
  lemma ConstantsAreRoots()
    ensures |K1| == |K2| == 5 && K1[0] == 0 && K2[4] == 0
    ensures Square(K1[1], 2) && Square(K1[2], 3) && Square(K1[3], 5) && Square(K1[4], 7)
    ensures Cube(K2[0], 2) && Cube(K2[1], 3) && Cube(K2[2], 5) && Cube(K2[3], 7)
  {
  }

  /** The start value is the bytes 01 23 ... EF, FE DC ... 10, F0 E1 D2 C3. */
  lemma StartBytes()
    ensures LittleEndian(START.a, 4) == [0x01, 0x23, 0x45, 0x67] && LittleEndian(START.b, 4) == [0x89, 0xAB, 0xCD, 0xEF]
    ensures LittleEndian(START.c, 4) == [0xFE, 0xDC, 0xBA, 0x98] && LittleEndian(START.d, 4) == [0x76, 0x54, 0x32, 0x10]
    ensures LittleEndian(START.e, 4) == [0xF0, 0xE1, 0xD2, 0xC3] && Bounded(START)
  {
  }

  // ----- the compression function -----

  /** The boolean functions by round, as truth tables: entry 4x + 2y + z. */
  const TRUTH: seq<string> := ["01101001", "01010011", "10011010", "00100111", "10110100"]

  function One(b: bool): nat {
    if b then 1 else 0
  }

  lemma FunctionTables(j: nat, x: Word, y: Word, z: Word, i: nat)
    requires j < 80 && i < 32
    ensures |TRUTH| == 5 && |TRUTH[j / 16]| == 8
    ensures F(j, x, y, z)[i] <==> TRUTH[j / 16][4 * One(x[i]) + 2 * One(y[i]) + One(z[i])] == '1'
  {
    match j / 16
    case 0 =>
    case 1 =>
    case 2 =>
    case 3 =>
    case _ =>
  }

  /** The j-th word that a line makes; the words before the first are those it starts from. */
  ghost function Made(left: bool, j: nat, h: Five<Word>, x: seq<Word>): Word
    requires j <= 80 && |x| == 16
  {
    Line(left, j, h, x).b
  }

  lemma Registers(left: bool, j: nat, h: Five<Word>, x: seq<Word>)
    requires 0 < j <= 80 && |x| == 16
    ensures var v, before := Line(left, j, h, x), Line(left, j - 1, h, x);
            v.a == before.e && v.c == before.b && v.d == RotW(before.c, 10) && v.e == before.d
  {
    hide F, AddW, RotW, Pick16, Rotation, Constant;
  }

  /** The next word of a line, from the five before it, the message word w, the shift s and the constant c. */
  ghost predicate MadeFrom(left: bool, j: nat, h: Five<Word>, x: seq<Word>, w: nat, s: nat, c: nat)
    requires 4 <= j < 80 && |x| == 16 && w < 16 && s < 32
  {
    Made(left, j + 1, h, x)
    == AddW(RotW(AddW(AddW(AddW(RotW(Made(left, j - 4, h, x), 10),
                                F(if left then j else 79 - j, Made(left, j, h, x), Made(left, j - 1, h, x),
                                  RotW(Made(left, j - 2, h, x), 10))),
                           x[w]), WordOf(c)), s), RotW(Made(left, j - 3, h, x), 10))
  }

  /**
   A line as a recurrence over the words it makes: each comes from the five before it, three of them
   rotated by 10, with the message word, constant and shift of the tables.  The right line takes the
   boolean functions in reverse.
   */
  lemma {:induction false} LineRecurrence(left: bool, j: nat, h: Five<Word>, x: seq<Word>)
    requires 4 <= j < 80 && |x| == 16
    ensures |R1| == |R2| == |S1| == |S2| == |K1| == |K2| == 5
    ensures var k, i := j / 16, j % 16;
            && |R1[k]| == |R2[k]| == |S1[k]| == |S2[k]| == 16
            && var w, s, c := if left then R1[k][i] else R2[k][i], if left then S1[k][i] else S2[k][i],
                              if left then K1[k] else K2[k];
            w < 16 && s < 32 && MadeFrom(left, j, h, x, w, s, c)
  {
    hide F, AddW, RotW, Pick16, Rotation, Constant, Line, WordOf, R1, R2, S1, S2, K1, K2;
    Picked(left, j);
    FiveBefore(left, j, h, x);
    OneStep(left, j, h, x);
  }

  lemma FiveBefore(left: bool, j: nat, h: Five<Word>, x: seq<Word>)
    requires 4 <= j < 80 && |x| == 16
    ensures var v := Line(left, j, h, x);
            && v.b == Made(left, j, h, x) && v.c == Made(left, j - 1, h, x) && v.d == RotW(Made(left, j - 2, h, x), 10)
            && v.e == RotW(Made(left, j - 3, h, x), 10) && v.a == RotW(Made(left, j - 4, h, x), 10)
  {
    hide Line, RotW;
    Registers(left, j, h, x);
    Registers(left, j - 1, h, x);
    Registers(left, j - 2, h, x);
    Registers(left, j - 3, h, x);
  }

  lemma OneStep(left: bool, j: nat, h: Five<Word>, x: seq<Word>)
    requires j < 80 && |x| == 16
    ensures var v := Line(left, j, h, x);
            Made(left, j + 1, h, x)
            == AddW(RotW(AddW(AddW(AddW(v.a, F(if left then j else 79 - j, v.b, v.c, v.d)), x[Pick16(left, j)]),
                              WordOf(Constant(left, j))), Rotation(left, j)), v.e)
  {
    hide F, AddW, RotW, Pick16, Rotation, Constant, WordOf;
  }

  /** The table entries of step j. */
  lemma Picked(left: bool, j: nat)
    requires j < 80
    ensures |R1| == |R2| == |S1| == |S2| == |K1| == |K2| == 5
    ensures var k, i := j / 16, j % 16;
            && |R1[k]| == |R2[k]| == |S1[k]| == |S2[k]| == 16
            && Pick16(left, j) == (if left then R1[k][i] else R2[k][i])
            && Rotation(left, j) == (if left then S1[k][i] else S2[k][i])
            && Constant(left, j) == (if left then K1[k] else K2[k])
  {
    WordTables();
    RotationTables();
  }

  /** Component i of the five, counted round. */
  function At<T>(v: Five<T>, i: nat): T {
    match i % 5
    case 0 => v.a
    case 1 => v.b
    case 2 => v.c
    case 3 => v.d
    case _ => v.e
  }

  /** Each new chaining word adds the old one next to it, the left line's next but one, and the right line's after. */
  lemma {:induction false} Combination(h: Five<Word>, x: seq<Word>, i: nat)
    requires |x| == 16 && i < 5
    ensures At(Compress(h, x), i)
            == AddW(AddW(At(h, i + 1), At(Line(true, 80, h, x), i + 2)), At(Line(false, 80, h, x), i + 3))
  {
    hide AddW, Line;
  }

  // ----- bytes -----

  /** The message, the marker, zeros, and the bit length from the low byte on, in whole blocks. */
  lemma {:induction false} Padding(data: seq<Byte>)
    requires |data| < MAX_LENGTH
    ensures var msg, n := Pad(data), |data|;
            && |msg| % 64 == 0 && n + 9 <= |msg| <= n + 72 && msg[..n] == data && msg[n] == 0x80
            && (forall i | n < i < |msg| - 8 :: msg[i] == 0) && FromLittle(msg[|msg| - 8..]) == 8 * n
  {
    EightBytesEnough();
    hide LittleEndian;
    LittleRoundTrip(8 * |data|, 8);
    var msg := Pad(data);
    assert msg[|msg| - 8..] == LittleEndian(8 * |data|, 8);
  }

  /** Word i of a block is four bytes, the low one first. */
  lemma BlockWords(msg: seq<Byte>, off: nat, i: nat)
    requires off + 64 <= |msg| && i < 16
    ensures var b: seq<nat> := msg[off + 4 * i..off + 4 * i + 4];
            Words(msg, off)[i] == b[0] + 0x100 * b[1] + 0x1_0000 * b[2] + 0x100_0000 * b[3]
  {
    FourBytes(msg[off + 4 * i..off + 4 * i + 4]);
  }

  lemma FourBytes(bs: seq<Byte>)
    requires |bs| == 4
    ensures var b: seq<nat> := bs; FromLittle(bs) == b[0] + 0x100 * b[1] + 0x1_0000 * b[2] + 0x100_0000 * b[3]
  {
    assert FromLittle(bs[1..]) == bs[1] + 256 * FromLittle(bs[2..]);
    assert FromLittle(bs[2..]) == bs[2] + 256 * FromLittle(bs[3..]);
    assert FromLittle(bs[3..]) == bs[3];
  }

  /** The digest is the five chaining words after the last block, each the low byte first. */
  lemma {:induction false} DigestBytes(data: seq<Byte>, i: nat)
    requires i < 5
    ensures FromLittle(Hash(data)[4 * i..4 * i + 4]) == Val(At(Blocks(Pad(data), |Pad(data)| / 64), i))
  {
    hide LittleEndian, Blocks, Pad, Val;
    var v := Blocks(Pad(data), |Pad(data)| / 64);
    var n := Val(At(v, i));
    ValFits(At(v, i));
    LittleRoundTrip(n, 4);
    assert Hash(data)[4 * i..4 * i + 4] == LittleEndian(n, 4);
  }

  lemma {:induction false} ValBelow(s: seq<bool>)
    ensures Val(s) < Pow2(|s|)
  {
    if s != [] {
      ValBelow(s[1..]);
    }
  }

  lemma ValFits(w: Word)
    ensures Val(w) < Pow(256, 4)
  {
    ValBelow(w);
    Pow2Of32();
    assert Pow(256, 4) == TWO32;
  }

  /** Blocks are taken in order, each combined with the words that the earlier ones left. */
  lemma {:induction false} BlockByBlock(data: seq<Byte>, n: nat)
    requires 64 * (n + 1) <= |Pad(data)|
    ensures Blocks(Pad(data), 0) == WordsOf(START)
    ensures Blocks(Pad(data), n + 1) == Compress(Blocks(Pad(data), n), AsWords(Words(Pad(data), 64 * n)))
  {
    hide Compress, Words, Pad;
  }
}
