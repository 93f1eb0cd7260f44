/** How long a base58 string is, and so a "1..." address. */
module AddressLength {
  import opened Bytes
  import opened Base58

  lemma {:induction false} DigitsBounds(n: nat)
    requires n > 0
    ensures Pow(58, |Digits(n)| - 1) <= n < Pow(58, |Digits(n)|)
  {
    if n >= 58 {
      DigitsBounds(n / 58);
      var len := |Digits(n / 58)|;
      assert Pow(58, len) == 58 * Pow(58, len - 1) && Pow(58, len + 1) == 58 * Pow(58, len);
    } else {
      assert Digits(n / 58) == "";
      assert Pow(58, 1) == 58 * Pow(58, 0);
    }
  }

  lemma {:induction false} Ratio(k: nat)
    requires k <= 24
    ensures Pow(256, k) <= Pow(58, k + 9)
    decreases 24 - k
  {
    if k == 24 {
      RatioAt24();
    } else {
      Ratio(k + 1);
      assert 256 * Pow(256, k) <= 58 * Pow(58, k + 9);
      PowGrows(256, k, k);
    }
  }

  lemma RatioAt24()
    ensures Pow(256, 24) <= Pow(58, 33)
  {
    EightBytes();
    PowAdd(256, 8, 8);
    PowAdd(256, 16, 8);
    PowAdd(58, 11, 11);
    PowAdd(58, 22, 11);
    MulLeq(Pow(256, 8), Pow(58, 11), Pow(256, 8), Pow(58, 11));
    MulLeq(Pow(256, 16), Pow(58, 22), Pow(256, 8), Pow(58, 11));
  }

  lemma EightBytes()
    ensures Pow(256, 8) <= Pow(58, 11)
  {
    assert Pow(256, 4) == 4294967296;
    PowAdd(256, 4, 4);
    assert Pow(58, 5) == 656356768;
    assert Pow(58, 6) == 38068692544;
    PowAdd(58, 5, 6);
  }

  lemma DigitCount(bs: seq<Byte>)
    requires |bs| <= 24 && (|bs| > 0 ==> bs[0] != 0)
    ensures |bs| <= |Digits(ToNat(bs))| <= |bs| + 9
  {
    if |bs| > 0 {
      var n, len := ToNat(bs), |Digits(ToNat(bs))|;
      ToNatBounds(bs);
      DigitsBounds(n);
      Ratio(|bs|);
      PowBases(58, 256, |bs| - 1);
      if len < |bs| {
        PowGrows(58, len, |bs| - 1);
      }
      if len > |bs| + 9 {
        PowGrows(58, |bs| + 9, len - 1);
      }
    }
  }

  /** A version-0 address of a 20-byte hash starts with '1' and has 25 to 34 characters. */
  lemma AddressShape(sha: seq<Byte> -> Digest, payload: seq<Byte>)
    requires |payload| == 20
    ensures var s := EncodeCheck(sha, 0, payload); 25 <= |s| <= 34 && s[0] == '1'
  {
    var raw := Raw(sha, 0, payload);
    var z := LeadingZeros(raw);
    assert z >= 1;
    SplitZeros(raw);
    ToNatZeros(z, raw[z..]);
    DigitCount(raw[z..]);
  }
}
