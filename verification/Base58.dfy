/** Bytes, powers and big-endian numbers. */
module Bytes {
  type Byte = b: int | 0 <= b < 256

  /** A SHA-256 digest. */
  type Digest = s: seq<Byte> | |s| == 32 witness seq(32, _ => 0)

  function Pow(b: nat, e: nat): nat {
    if e == 0 then 1 else b * Pow(b, e - 1)
  }

  /** The number that `bs` denotes, most significant byte first. */
  function ToNat(bs: seq<Byte>): nat {
    if |bs| == 0 then 0 else 256 * ToNat(bs[..|bs| - 1]) + bs[|bs| - 1]
  }

  /** The shortest byte string that denotes n. */
  function FromNat(n: nat): seq<Byte> {
    if n == 0 then [] else FromNat(n / 256) + [n % 256]
  }

  function Zeros(n: nat): (s: seq<Byte>)
    ensures |s| == n && forall i | 0 <= i < n :: s[i] == 0
  {
    seq(n, _ => 0)
  }

  lemma MulLeq(a: nat, b: nat, x: nat, y: nat)
    requires a <= b && x <= y
    ensures a * x <= b * y
  {
    assert b * y - a * x == (b - a) * y + a * (y - x);
  }

  lemma Associate(a: int, b: int, c: int)
    ensures a * (b * c) == (a * b) * c
  {
  }

  lemma {:induction false} PowAdd(b: nat, m: nat, n: nat)
    ensures Pow(b, m + n) == Pow(b, m) * Pow(b, n)
  {
    if m > 0 {
      PowAdd(b, m - 1, n);
      Associate(b, Pow(b, m - 1), Pow(b, n));
    }
  }

  lemma {:induction false} PowGrows(b: nat, m: nat, n: nat)
    requires b > 0 && m <= n
    ensures 0 < Pow(b, m) <= Pow(b, n)
    decreases n
  {
    if n > m {
      PowGrows(b, m, n - 1);
      MulLeq(1, b, Pow(b, n - 1), Pow(b, n - 1));
    } else if n > 0 {
      PowGrows(b, n - 1, n - 1);
      MulLeq(1, b, 1, Pow(b, n - 1));
    }
  }

  lemma {:induction false} PowBases(a: nat, b: nat, e: nat)
    requires a <= b
    ensures Pow(a, e) <= Pow(b, e)
  {
    if e > 0 {
      PowBases(a, b, e - 1);
      MulLeq(a, b, Pow(a, e - 1), Pow(b, e - 1));
    }
  }

  // ----- big-endian numbers -----

  lemma {:induction false} FromNatToNat(n: nat)
    ensures ToNat(FromNat(n)) == n
    ensures n > 0 ==> |FromNat(n)| > 0 && FromNat(n)[0] != 0
  {
    if n > 0 {
      FromNatToNat(n / 256);
      assert FromNat(n)[..|FromNat(n)| - 1] == FromNat(n / 256);
    }
  }

  /** Leading zero bytes add nothing; without them the shortest form comes back. */
  lemma {:induction false} ToNatFromNat(bs: seq<Byte>)
    requires |bs| > 0 ==> bs[0] != 0
    ensures FromNat(ToNat(bs)) == bs
    ensures |bs| > 0 ==> ToNat(bs) > 0
  {
    if |bs| == 1 {
      assert bs[..0] == [];
    } else if |bs| > 1 {
      ToNatFromNat(bs[..|bs| - 1]);
    }
  }

  lemma {:induction false} ToNatZeros(z: nat, bs: seq<Byte>)
    ensures ToNat(Zeros(z) + bs) == ToNat(bs)
  {
    if |bs| > 0 {
      assert (Zeros(z) + bs)[..z + |bs| - 1] == Zeros(z) + bs[..|bs| - 1];
      ToNatZeros(z, bs[..|bs| - 1]);
    } else if z > 0 {
      assert (Zeros(z) + bs)[..z - 1] == Zeros(z - 1) + bs;
      ToNatZeros(z - 1, bs);
    }
  }

  lemma {:induction false} ToNatBounds(bs: seq<Byte>)
    requires |bs| > 0 && bs[0] != 0
    ensures Pow(256, |bs| - 1) <= ToNat(bs) < Pow(256, |bs|)
  {
    if |bs| == 1 {
      assert bs[..0] == [];
      assert Pow(256, 1) == 256 * Pow(256, 0);
    } else {
      ToNatBounds(bs[..|bs| - 1]);
    }
  }
}

/** Base58Check addresses, and a decoder after sections 3 and 4 of draft-msporny-base58. */
module Base58 {
  import opened Common
  import opened Bytes

  /** Digits and letters without 0, I, O and l. */
  const ALPHABET := "123456789" + "ABCDEFGH" + "JKLMN" + "PQRSTUVWXYZ" + "abcdefghijk" + "mnopqrstuvwxyz"

  function Letter(d: nat): char
    requires d < 58
  {
    ALPHABET[d]
  }

  // ----- encoding -----

  function Digits(n: nat): string {
    if n == 0 then "" else Digits(n / 58) + [Letter(n % 58)]
  }

  function LeadingZeros(bs: seq<Byte>): (z: nat)
    ensures z <= |bs|
  {
    if |bs| == 0 || bs[0] != 0 then 0 else 1 + LeadingZeros(bs[1..])
  }

  function Ones(n: nat): (s: string)
    ensures |s| == n && forall i | 0 <= i < n :: s[i] == '1'
  {
    seq(n, _ => '1')
  }

  function Encode(raw: seq<Byte>): string {
    Ones(LeadingZeros(raw)) + Digits(ToNat(raw))
  }

  function Raw(sha: seq<Byte> -> Digest, version: Byte, payload: seq<Byte>): seq<Byte> {
    [version] + payload + sha(sha([version] + payload))[..4]
  }

  function EncodeCheck(sha: seq<Byte> -> Digest, version: Byte, payload: seq<Byte>): string {
    Encode(Raw(sha, version, payload))
  }

  function Reverse(s: string): string {
    if |s| == 0 then "" else [s[|s| - 1]] + Reverse(s[..|s| - 1])
  }

  method Base58CheckEncode(sha: seq<Byte> -> Digest, version: Byte, payload: seq<Byte>) returns (s: string)
    ensures s == EncodeCheck(sha, version, payload)
  {
    hide Digits, LeadingZeros, Reverse, ToNat, Letter;
    var raw := [version] + payload;
    var checksum := sha(sha(raw))[..4];
    raw := raw + checksum;
    assert raw == Raw(sha, version, payload);
    var n := ToNat(raw);
    var out := "";
    NoDigits();
    while n > 0
      invariant Digits(n) + Reverse(out) == Digits(ToNat(raw))
    {
      DigitsStep(n);
      var rem := n % 58;
      ReverseSnoc(out, Letter(rem));
      n := n / 58;
      out := out + [Letter(rem)];
    }
    var i := 0;
    while i < |raw| && raw[i] == 0
      invariant 0 <= i <= |raw|
      invariant LeadingZeros(raw) == i + LeadingZeros(raw[i..])
      invariant Reverse(out) == Ones(i) + Digits(ToNat(raw))
    {
      ZerosStep(raw, i);
      ReverseSnoc(out, '1');
      out := out + "1";
      i := i + 1;
    }
    ZerosEnd(raw, i);
    s := Reverse(out);
  }

  lemma NoDigits()
    ensures Digits(0) == "" && Reverse("") == ""
  {
  }

  lemma DigitsStep(n: nat)
    requires n > 0
    ensures Digits(n) == Digits(n / 58) + [Letter(n % 58)]
  {
  }

  lemma ZerosStep(raw: seq<Byte>, i: nat)
    requires i < |raw| && raw[i] == 0
    ensures LeadingZeros(raw[i..]) == 1 + LeadingZeros(raw[i + 1..])
  {
    assert raw[i..][1..] == raw[i + 1..];
  }

  lemma ZerosEnd(raw: seq<Byte>, i: nat)
    requires i <= |raw| && (i < |raw| ==> raw[i] != 0)
    ensures LeadingZeros(raw[i..]) == 0
  {
  }

  lemma ReverseSnoc(s: string, c: char)
    ensures Reverse(s + [c]) == [c] + Reverse(s)
  {
    assert (s + [c])[..|s|] == s;
  }

  // ----- decoding, after the standard -----

  /** The value of a base58 digit, -1 for other characters. */
  function CharValue(c: char): int {
    if '1' <= c <= '9' then c as int - '1' as int
    else if 'A' <= c <= 'H' then 9 + (c as int - 'A' as int)
    else if 'J' <= c <= 'N' then 17 + (c as int - 'J' as int)
    else if 'P' <= c <= 'Z' then 22 + (c as int - 'P' as int)
    else if 'a' <= c <= 'k' then 33 + (c as int - 'a' as int)
    else if 'm' <= c <= 'z' then 44 + (c as int - 'm' as int)
    else -1
  }

  function LeadingOnes(s: string): (z: nat)
    ensures z <= |s|
  {
    if |s| == 0 || s[0] != '1' then 0 else 1 + LeadingOnes(s[1..])
  }

  function ValueOf(s: string): Option<nat> {
    if |s| == 0 then Some(0)
    else
      var head := ValueOf(s[..|s| - 1]);
      var d := CharValue(s[|s| - 1]);
      if head.None? || d < 0 then None else Some(58 * head.value + d)
  }

  /** Every leading '1' is a zero byte; the digits denote the rest. */
  function Decode(s: string): Option<seq<Byte>> {
    var n := ValueOf(s);
    if n.None? then None else Some(Zeros(LeadingOnes(s)) + FromNat(n.value))
  }

  /** Version byte, payload, and a checksum that has to match. */
  function DecodeCheck(sha: seq<Byte> -> Digest, s: string): Option<(Byte, seq<Byte>)> {
    var raw := Decode(s);
    if raw.None? || |raw.value| < 5 then None
    else
      var body, checksum := raw.value[..|raw.value| - 4], raw.value[|raw.value| - 4..];
      if sha(sha(body))[..4] != checksum then None else Some((body[0], body[1..]))
  }

  // ----- digits -----

  /** Within each run of the alphabet the characters are consecutive. */
  lemma Runs(i: nat)
    ensures i < 9 ==> "123456789"[i] as int == '1' as int + i
    ensures i < 8 ==> "ABCDEFGH"[i] as int == 'A' as int + i
    ensures i < 5 ==> "JKLMN"[i] as int == 'J' as int + i
  {
  }

  lemma MoreRuns(i: nat)
    ensures i < 11 ==> "PQRSTUVWXYZ"[i] as int == 'P' as int + i
    ensures i < 11 ==> "abcdefghijk"[i] as int == 'a' as int + i
  {
  }

  lemma LastRun(i: nat)
    ensures i < 14 ==> "mnopqrstuvwxyz"[i] as int == 'm' as int + i
  {
  }

  lemma LetterInRun(d: nat)
    requires d < 58
    ensures Letter(d) ==
            if d < 9 then "123456789"[d] else if d < 17 then "ABCDEFGH"[d - 9] else if d < 22 then "JKLMN"[d - 17]
            else if d < 33 then "PQRSTUVWXYZ"[d - 22] else if d < 44 then "abcdefghijk"[d - 33]
            else "mnopqrstuvwxyz"[d - 44]
  {
  }

  lemma AlphabetValue(d: nat)
    requires d < 58
    ensures CharValue(Letter(d)) == d
    ensures Letter(d) == '1' <==> d == 0
  {
    hide Letter;
    LetterInRun(d);
    if d < 9 { Runs(d); }
    else if d < 17 { Runs(d - 9); }
    else if d < 22 { Runs(d - 17); }
    else if d < 33 { MoreRuns(d - 22); }
    else if d < 44 { MoreRuns(d - 33); }
    else { LastRun(d - 44); }
  }

  lemma ValueAlphabet(c: char)
    requires CharValue(c) >= 0
    ensures CharValue(c) < 58 && Letter(CharValue(c)) == c
  {
    hide Letter;
    var d := CharValue(c);
    LetterInRun(d);
    if d < 9 { Runs(d); }
    else if d < 17 { Runs(d - 9); }
    else if d < 22 { Runs(d - 17); }
    else if d < 33 { MoreRuns(d - 22); }
    else if d < 44 { MoreRuns(d - 33); }
    else { LastRun(d - 44); }
  }

  lemma ValueSnoc(s: string, d: nat)
    requires ValueOf(s).Some? && d < 58
    ensures ValueOf(s + [Letter(d)]) == Some(58 * ValueOf(s).value + d)
  {
    hide Letter, CharValue;
    AlphabetValue(d);
    assert (s + [Letter(d)])[..|s|] == s;
  }

  lemma {:induction false} DigitsValue(n: nat)
    ensures ValueOf(Digits(n)) == Some(n)
    ensures n > 0 ==> |Digits(n)| > 0 && Digits(n)[0] != '1'
    ensures LeadingOnes(Digits(n)) == 0
  {
    hide Letter, CharValue, ValueOf;
    if n == 0 {
      EmptyValue();
    } else {
      DigitsValue(n / 58);
      AlphabetValue(n % 58);
      ValueSnoc(Digits(n / 58), n % 58);
    }
  }

  lemma EmptyValue()
    ensures ValueOf("") == Some(0)
  {
  }

  lemma {:induction false} OnesPrefix(z: nat, s: string)
    requires LeadingOnes(s) == 0
    ensures ValueOf(Ones(z) + s) == ValueOf(s)
    ensures LeadingOnes(Ones(z) + s) == z
  {
    OnesValue(z, s);
    OnesCount(z, s);
  }

  lemma {:induction false} OnesValue(z: nat, s: string)
    ensures ValueOf(Ones(z) + s) == ValueOf(s)
  {
    if |s| > 0 {
      assert (Ones(z) + s)[..z + |s| - 1] == Ones(z) + s[..|s| - 1];
      OnesValue(z, s[..|s| - 1]);
    } else if z > 0 {
      assert (Ones(z) + s)[..z - 1] == Ones(z - 1) + s;
      OnesValue(z - 1, s);
    }
  }

  lemma {:induction false} OnesCount(z: nat, s: string)
    ensures LeadingOnes(Ones(z) + s) == z + LeadingOnes(s)
  {
    if z > 0 {
      assert (Ones(z) + s)[1..] == Ones(z - 1) + s;
      OnesCount(z - 1, s);
    } else {
      assert Ones(0) + s == s;
    }
  }

  lemma {:induction false} SplitZeros(raw: seq<Byte>)
    ensures var z := LeadingZeros(raw);
            raw == Zeros(z) + raw[z..] && (z < |raw| ==> raw[z] != 0)
  {
    if |raw| > 0 && raw[0] == 0 {
      var z := LeadingZeros(raw[1..]);
      SplitZeros(raw[1..]);
      assert raw == [0] + raw[1..] && raw[1..][z..] == raw[z + 1..];
      assert [0] + Zeros(z) == Zeros(z + 1);
    }
  }

  lemma {:induction false} SplitOnes(s: string)
    ensures var z := LeadingOnes(s);
            s == Ones(z) + s[z..] && LeadingOnes(s[z..]) == 0
  {
    if |s| > 0 && s[0] == '1' {
      SplitOnes(s[1..]);
    }
  }

  // ----- round trips -----

  /** The decoder inverts the encoder, for every byte string. */
  lemma DecodeEncode(raw: seq<Byte>)
    ensures Decode(Encode(raw)) == Some(raw)
    ensures LeadingOnes(Encode(raw)) == LeadingZeros(raw)
  {
    var z := LeadingZeros(raw);
    SplitZeros(raw);
    ToNatZeros(z, raw[z..]);
    ToNatFromNat(raw[z..]);
    DigitsValue(ToNat(raw));
    OnesPrefix(z, Digits(ToNat(raw)));
  }

  lemma LastDigit(v: nat, d: nat)
    requires d < 58
    ensures (58 * v + d) / 58 == v && (58 * v + d) % 58 == d
  {
  }

  lemma {:induction false} ValueDigits(s: string)
    requires LeadingOnes(s) == 0 && ValueOf(s).Some?
    ensures Digits(ValueOf(s).value) == s
    ensures |s| > 0 ==> ValueOf(s).value > 0
  {
    hide Letter, CharValue;
    if |s| > 0 {
      var head, d := s[..|s| - 1], CharValue(s[|s| - 1]);
      ValueAlphabet(s[|s| - 1]);
      if |head| > 0 {
        assert head[0] == s[0];
      }
      ValueDigits(head);
      var v := ValueOf(head).value;
      LastDigit(v, d);
      AlphabetValue(d);
    }
  }

  /** The encoder inverts the decoder, for every string of base58 digits. */
  lemma EncodeDecode(s: string)
    requires Decode(s).Some?
    ensures Encode(Decode(s).value) == s
  {
    var z, n := LeadingOnes(s), ValueOf(s).value;
    SplitOnes(s);
    OnesPrefix(z, s[z..]);
    ValueDigits(s[z..]);
    FromNatToNat(n);
    var raw := Zeros(z) + FromNat(n);
    ToNatZeros(z, FromNat(n));
    ZerosCount(z, FromNat(n));
  }

  lemma {:induction false} ZerosCount(z: nat, bs: seq<Byte>)
    requires |bs| > 0 ==> bs[0] != 0
    ensures LeadingZeros(Zeros(z) + bs) == z
  {
    if z > 0 {
      assert (Zeros(z) + bs)[1..] == Zeros(z - 1) + bs;
      ZerosCount(z - 1, bs);
    } else {
      assert Zeros(0) + bs == bs;
    }
  }

  /** Base58Check: version and payload come back, whatever the hash function. */
  lemma CheckRoundTrip(sha: seq<Byte> -> Digest, version: Byte, payload: seq<Byte>)
    ensures DecodeCheck(sha, EncodeCheck(sha, version, payload)) == Some((version, payload))
  {
    var raw, body := Raw(sha, version, payload), [version] + payload;
    DecodeEncode(raw);
    assert raw[..|raw| - 4] == body && raw[|raw| - 4..] == sha(sha(body))[..4];
  }

  /** A string that passes the check is the encoding of what it decodes to. */
  lemma CheckIsCanonical(sha: seq<Byte> -> Digest, s: string)
    requires DecodeCheck(sha, s).Some?
    ensures var (version, payload) := DecodeCheck(sha, s).value; EncodeCheck(sha, version, payload) == s
  {
    var raw := Decode(s).value;
    EncodeDecode(s);
    var body := raw[..|raw| - 4];
    assert body == [body[0]] + body[1..];
    assert raw == body + raw[|raw| - 4..];
  }
}
