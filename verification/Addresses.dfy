/**
 From a scriptPubKey to an address: the fields a node reports, and the address derived for a raw
 public key that it reports without one.
 */
module Addresses {
  import opened Common
  import opened Chain
  import opened Bytes
  import AddressLength
  import Base58
  import Ripemd160

  /** The fields of a scriptPubKey object that are looked at; an empty object has none. */
  datatype ScriptPubKey = ScriptPubKey(address: Option<string>, addresses: seq<Option<string>>,
                                       kind: Option<string>, hex: Option<string>, asm: string)

  /** Extraction raises on an asm of nothing but white space (`RaisesIff`). */
  datatype Extracted = Raises | NoOwner | Found(owner: Owner)

  function HexValue(c: char): nat
    requires IsHexDigit(c)
  {
    if '0' <= c <= '9' then c as int - '0' as int
    else if 'a' <= c <= 'f' then 10 + (c as int - 'a' as int)
    else 10 + (c as int - 'A' as int)
  }

  predicate AllHex(s: string) {
    forall i | 0 <= i < |s| :: IsHexDigit(s[i])
  }

  /** bytes.fromhex on an even number of hex digits. */
  function FromHex(s: string): (bs: seq<Byte>)
    requires AllHex(s) && |s| % 2 == 0
    ensures |bs| == |s| / 2
  {
    seq(|s| / 2, i requires 0 <= i < |s| / 2 => 16 * HexValue(s[2 * i]) + HexValue(s[2 * i + 1]))
  }

  /** A compressed or uncompressed public key in hex. */
  predicate IsKey(k: string) {
    && AllHex(k)
    && ((|k| == 66 && (k[..2] == "02" || k[..2] == "03")) || (|k| == 130 && k[..2] == "04"))
  }

  /** The public key pattern, whose `$` tolerates a trailing newline. */
  function KeyDigits(s: string): (key: Option<string>)
    ensures key.Some? ==> IsKey(key.value)
    ensures IsKey(s) ==> key == Some(s)
  {
    var k := if |s| > 0 && s[|s| - 1] == '\n' then s[..|s| - 1] else s;
    if IsKey(k) then Some(k) else None
  }

  /** RIPEMD-160 of SHA-256. */
  function Hash160(sha: seq<Byte> -> Digest, data: seq<Byte>): (h: seq<Byte>)
    ensures |h| == 20
  {
    Ripemd160.Hash(sha(data))
  }

  /** The hash of a public key given in hex. */
  function KeyHash(sha: seq<Byte> -> Digest, key: string): (h: seq<Byte>)
    requires IsKey(key)
    ensures |h| == 20
  {
    Hash160(sha, FromHex(key))
  }

  function PubkeyToP2pkhAddress(sha: seq<Byte> -> Digest, pubkeyHex: string): Option<string> {
    var k := KeyDigits(pubkeyHex);
    if k.None? then None
    else Some(Base58.EncodeCheck(sha, 0, KeyHash(sha, k.value)))
  }

  function LowerChar(c: char): char {
    if 'A' <= c <= 'Z' then (c as int - 'A' as int + 'a' as int) as char else c
  }

  function Lower(s: string): (r: string)
    ensures |r| == |s|
  {
    seq(|s|, i requires 0 <= i < |s| => LowerChar(s[i]))
  }

  /** A push of 65 or 33 bytes and OP_CHECKSIG around the key. */
  function PubkeyFromP2pkScript(scriptHex: string): Option<string> {
    var s := Lower(scriptHex);
    if |s| == 134 && s[..2] == "41" && s[132..] == "ac" then Some(s[2..132])
    else if |s| == 70 && s[..2] == "21" && s[68..] == "ac" then Some(s[2..68])
    else None
  }

  /** The characters at which split() splits: ASCII and Unicode white space. */
  predicate IsSpace(c: char) {
    var n := c as int;
    || 9 <= n <= 13 || 28 <= n <= 32 || n == 0x85 || n == 0xA0 || n == 0x1680 || 0x2000 <= n <= 0x200A
    || n == 0x2028 || n == 0x2029 || n == 0x202F || n == 0x205F || n == 0x3000
  }

  predicate Blank(s: string) {
    forall i | 0 <= i < |s| :: IsSpace(s[i])
  }

  /** asm.split()[0]; None if there is no word. */
  function FirstWord(s: string): Option<string> {
    if |s| == 0 then None
    else if IsSpace(s[0]) then FirstWord(s[1..])
    else Some(TakeWord(s))
  }

  function TakeWord(s: string): string {
    if |s| == 0 || IsSpace(s[0]) then "" else [s[0]] + TakeWord(s[1..])
  }

  function GetAddressType(address: string): string {
    if "1" <= address then "p2pkh"
    else if "3" <= address then "p2sh"
    else if "bc1p" <= address then "taproot"
    else if "bc1q" <= address then "bech32"
    else "unknown"
  }

  function NormalizeAddressType(kind: Option<string>, address: string): string {
    if kind == Some("pubkeyhash") then "p2pkh"
    else if kind == Some("scripthash") then "p2sh"
    else if kind == Some("witness_v0_keyhash") || kind == Some("witness_v0_scripthash") then "bech32"
    else if kind == Some("witness_v1_taproot") then "taproot"
    else GetAddressType(address)
  }

  function ReportedAddress(spk: ScriptPubKey): Option<string> {
    if spk.address.Some? then spk.address
    else if |spk.addresses| > 0 then spk.addresses[0]
    else None
  }

  function ExtractOutputAddress(sha: seq<Byte> -> Digest, spk: ScriptPubKey, p2pkLabel: string): Extracted {
    var address := ReportedAddress(spk);
    if address.Some? then
      if spk.kind == Some("pubkey") then Found(Owner(address.value, p2pkLabel))
      else Found(Owner(address.value, NormalizeAddressType(spk.kind, address.value)))
    else if spk.kind == Some("pubkey") then
      var fromScript := if spk.hex.Some? then PubkeyFromP2pkScript(spk.hex.value) else None;
      var pubkey := if fromScript.Some? then fromScript else if spk.asm == "" then None else FirstWord(spk.asm);
      if fromScript.None? && spk.asm != "" && pubkey.None? then Raises
      else
        var derived := if pubkey.Some? then PubkeyToP2pkhAddress(sha, pubkey.value) else None;
        if derived.Some? then Found(Owner(derived.value, p2pkLabel)) else NoOwner
    else NoOwner
  }

  /** A raw-key script: the push opcode for the key's length, the key, OP_CHECKSIG. */
  function P2pkScript(key: string): string {
    (if |key| == 130 then "41" else "21") + key + "ac"
  }

  // ----- words -----

  lemma {:induction false} NoWordIff(s: string)
    ensures FirstWord(s).None? <==> Blank(s)
  {
    if |s| > 0 && IsSpace(s[0]) {
      NoWordIff(s[1..]);
      assert forall i | 1 <= i < |s| :: s[i] == s[1..][i - 1];
    }
  }

  lemma {:induction false} TakesWord(word: string, rest: string)
    requires forall i | 0 <= i < |word| :: !IsSpace(word[i])
    requires rest == "" || IsSpace(rest[0])
    ensures TakeWord(word + rest) == word
  {
    if word == "" {
      assert word + rest == rest;
    } else {
      TakesWord(word[1..], rest);
      assert (word + rest)[1..] == word[1..] + rest;
    }
  }

  /** The first word is what stands after leading white space, up to the next. */
  lemma {:induction false} FirstWordIs(lead: string, word: string, rest: string)
    requires Blank(lead) && word != "" && forall i | 0 <= i < |word| :: !IsSpace(word[i])
    requires rest == "" || IsSpace(rest[0])
    ensures FirstWord(lead + word + rest) == Some(word)
  {
    var s := lead + word + rest;
    if lead == "" {
      assert s == word + rest && s[0] == word[0];
      TakesWord(word, rest);
    } else {
      FirstWordIs(lead[1..], word, rest);
      assert s[1..] == lead[1..] + word + rest && s[0] == lead[0];
    }
  }

  // ----- when extraction raises -----

  /** No address is reported, and the script is a raw-key script whose hex holds no key. */
  predicate ReadsAsm(spk: ScriptPubKey) {
    && ReportedAddress(spk).None? && spk.kind == Some("pubkey")
    && (spk.hex.None? || PubkeyFromP2pkScript(spk.hex.value).None?)
  }

  /** Extraction raises exactly when it has to read an asm that is all white space. */
  lemma {:induction false} RaisesIff(sha: seq<Byte> -> Digest, spk: ScriptPubKey, p2pkLabel: string)
    ensures ExtractOutputAddress(sha, spk, p2pkLabel).Raises? <==> ReadsAsm(spk) && spk.asm != "" && Blank(spk.asm)
  {
    hide PubkeyFromP2pkScript, PubkeyToP2pkhAddress, NormalizeAddressType, Blank, FirstWord, ReportedAddress;
    NoWordIff(spk.asm);
  }

  /** The shortest such script: an asm of one vertical tab. */
  lemma {:induction false} BlankAsmRaises(sha: seq<Byte> -> Digest, p2pkLabel: string)
    ensures ExtractOutputAddress(sha, ScriptPubKey(None, [], Some("pubkey"), None, [11 as char]), p2pkLabel).Raises?
  {
    RaisesIff(sha, ScriptPubKey(None, [], Some("pubkey"), None, [11 as char]), p2pkLabel);
  }

  // ----- the key of a script -----

  lemma LowerJoins(s: string, t: string)
    ensures Lower(s + t) == Lower(s) + Lower(t)
  {
  }

  /** Taking the key out of a script, in digits of either case, gives its lower-case form. */
  lemma {:induction false} ScriptRoundTrip(script: string, key: string)
    requires (|key| == 130 || |key| == 66) && Lower(script) == Lower(P2pkScript(key))
    ensures PubkeyFromP2pkScript(script) == Some(Lower(key))
  {
    var s, push := Lower(script), if |key| == 130 then "41" else "21";
    LowerJoins(push + key, "ac");
    LowerJoins(push, key);
    assert Lower(push) == push && Lower("ac") == "ac";
    assert s[2..|s| - 2] == Lower(key) && s[|s| - 2..] == "ac";
  }

  lemma LowerDigit(c: char)
    requires IsHexDigit(c)
    ensures IsHexDigit(LowerChar(c)) && HexValue(LowerChar(c)) == HexValue(c) && !IsSpace(c)
  {
  }

  /** The case of the digits does not matter. */
  lemma {:induction false} LowerKeepsBytes(key: string)
    requires IsKey(key)
    ensures IsKey(Lower(key)) && FromHex(Lower(key)) == FromHex(key)
  {
    var k := Lower(key);
    forall i | 0 <= i < |key|
      ensures IsHexDigit(k[i]) && HexValue(k[i]) == HexValue(key[i])
    {
      LowerDigit(key[i]);
    }
    assert k[..2] == key[..2] by {
      assert k[0] == LowerChar(key[0]) && k[1] == LowerChar(key[1]);
      assert key[..2] == [key[0], key[1]] && k[..2] == [k[0], k[1]];
    }
  }

  /** The script is the raw-key script of `key`. */
  ghost predicate KeyInHex(spk: ScriptPubKey, key: string) {
    spk.hex.Some? && Lower(spk.hex.value) == Lower(P2pkScript(key))
  }

  /** The hex holds no key and the first word of the asm is `key`. */
  ghost predicate KeyInAsm(spk: ScriptPubKey, key: string) {
    && (spk.hex.None? || PubkeyFromP2pkScript(spk.hex.value).None?)
    && exists lead, rest :: StandsIn(spk.asm, lead, key, rest)
  }

  /** White space, the key, and a rest set off by white space. */
  ghost predicate StandsIn(asm: string, lead: string, key: string, rest: string) {
    Blank(lead) && (rest == "" || IsSpace(rest[0])) && asm == lead + key + rest
  }

  /**
   A raw-key output that the node reports without an address gets the "1..." address whose decoding
   is version 0 and the HASH160 of exactly that key, whether the key is in the hex or in the asm.
   */
  lemma {:induction false} RawKeyGetsItsAddress(sha: seq<Byte> -> Digest, spk: ScriptPubKey, key: string,
                                                p2pkLabel: string)
    requires IsKey(key) && ReportedAddress(spk).None? && spk.kind == Some("pubkey")
    requires KeyInHex(spk, key) || KeyInAsm(spk, key)
    ensures var r := ExtractOutputAddress(sha, spk, p2pkLabel);
            && r.Found? && r.owner.kind == p2pkLabel
            && Base58.DecodeCheck(sha, r.owner.address) == Some((0, KeyHash(sha, key)))
            && 25 <= |r.owner.address| <= 34 && r.owner.address[0] == '1'
  {
    hide KeyHash, Base58.EncodeCheck, Base58.DecodeCheck, ExtractOutputAddress, KeyInHex, KeyInAsm, IsKey;
    var payload := KeyHash(sha, key);
    if KeyInHex(spk, key) {
      KeyFromHex(sha, spk, key, p2pkLabel);
    } else {
      KeyFromAsm(sha, spk, key, p2pkLabel);
    }
    Base58.CheckRoundTrip(sha, 0, payload);
    AddressLength.AddressShape(sha, payload);
  }

  lemma KeyFromHex(sha: seq<Byte> -> Digest, spk: ScriptPubKey, key: string, p2pkLabel: string)
    requires IsKey(key) && ReportedAddress(spk).None? && spk.kind == Some("pubkey") && KeyInHex(spk, key)
    ensures ExtractOutputAddress(sha, spk, p2pkLabel)
            == Found(Owner(Base58.EncodeCheck(sha, 0, KeyHash(sha, key)), p2pkLabel))
  {
    hide Hash160, Base58.EncodeCheck, PubkeyFromP2pkScript, P2pkScript, FirstWord, Lower, FromHex,
         NormalizeAddressType, ReportedAddress;
    assert |key| == 130 || |key| == 66;
    ScriptRoundTrip(spk.hex.value, key);
    LowerKeepsBytes(key);
    hide IsKey, KeyDigits;
  }

  lemma KeyFromAsm(sha: seq<Byte> -> Digest, spk: ScriptPubKey, key: string, p2pkLabel: string)
    requires IsKey(key) && ReportedAddress(spk).None? && spk.kind == Some("pubkey") && KeyInAsm(spk, key)
    ensures ExtractOutputAddress(sha, spk, p2pkLabel)
            == Found(Owner(Base58.EncodeCheck(sha, 0, KeyHash(sha, key)), p2pkLabel))
  {
    hide KeyHash, Base58.EncodeCheck, PubkeyFromP2pkScript, FirstWord, NormalizeAddressType, ReportedAddress, Blank,
         IsSpace;
    var lead, rest :| StandsIn(spk.asm, lead, key, rest);
    forall i | 0 <= i < |key|
      ensures !IsSpace(key[i])
    {
      LowerDigit(key[i]);
    }
    FirstWordIs(lead, key, rest);
    assert |spk.asm| >= |key|;
    hide IsKey, KeyDigits;
  }

  /** Different key hashes get different addresses. */
  lemma AddressesDiffer(sha: seq<Byte> -> Digest, a: seq<Byte>, b: seq<Byte>)
    requires Base58.EncodeCheck(sha, 0, a) == Base58.EncodeCheck(sha, 0, b)
    ensures a == b
  {
    Base58.CheckRoundTrip(sha, 0, a);
    Base58.CheckRoundTrip(sha, 0, b);
  }

  // ----- an address the node reports -----

  const P2PKH_TYPES := ["pubkeyhash"]
  const P2SH_TYPES := ["scripthash"]
  const BECH32_TYPES := ["witness_v0_keyhash", "witness_v0_scripthash"]
  const TAPROOT_TYPES := ["witness_v1_taproot"]

  /** The script type is one of these. */
  predicate OneOf(kind: Option<string>, types: seq<string>) {
    kind.Some? && kind.value in types
  }

  /** The script type does not tell the label. */
  predicate OtherType(kind: Option<string>) {
    !OneOf(kind, P2PKH_TYPES + P2SH_TYPES + BECH32_TYPES + TAPROOT_TYPES)
  }

  predicate Begins(a: string, start: string) {
    |a| >= |start| && a[..|start|] == start
  }

  /** The node reports the address `a`: in its own field, or else first in the older list. */
  predicate Reports(spk: ScriptPubKey, a: string) {
    spk.address == Some(a) || (spk.address == None && spk.addresses != [] && spk.addresses[0] == Some(a))
  }

  /**
   A reported address comes back as it is.  A raw-key script has the label asked for; any other
   has the label of its type, and one of another type that of the address's first characters.
   */
  lemma {:induction false} ReportedComesBack(sha: seq<Byte> -> Digest, spk: ScriptPubKey, a: string, p2pkLabel: string)
    requires Reports(spk, a)
    ensures var r := ExtractOutputAddress(sha, spk, p2pkLabel);
            && r.Found? && r.owner.address == a
            && (spk.kind == Some("pubkey") ==> r.owner.kind == p2pkLabel)
            && (spk.kind != Some("pubkey") ==>
                  var other := OtherType(spk.kind);
                  && (r.owner.kind == "p2pkh" <==> OneOf(spk.kind, P2PKH_TYPES) || (other && Begins(a, "1")))
                  && (r.owner.kind == "p2sh" <==> OneOf(spk.kind, P2SH_TYPES) || (other && Begins(a, "3")))
                  && (r.owner.kind == "bech32" <==> OneOf(spk.kind, BECH32_TYPES) || (other && Begins(a, "bc1q")))
                  && (r.owner.kind == "taproot" <==> OneOf(spk.kind, TAPROOT_TYPES) || (other && Begins(a, "bc1p")))
                  && (r.owner.kind in ["p2pkh", "p2sh", "bech32", "taproot", "unknown"]))
  {
    hide GetAddressType, Begins, OneOf, OtherType;
    LabelOfPrefix(a);
    LabelOfType(spk.kind, a);
  }

  lemma LabelOfPrefix(a: string)
    ensures var t := GetAddressType(a);
            && (t == "p2pkh" <==> Begins(a, "1")) && (t == "p2sh" <==> Begins(a, "3"))
            && (t == "bech32" <==> Begins(a, "bc1q")) && (t == "taproot" <==> Begins(a, "bc1p"))
            && t in ["p2pkh", "p2sh", "bech32", "taproot", "unknown"]
  {
    LabelsDiffer();
    assert Begins(a, "1") ==> a[0] == '1';
    assert Begins(a, "3") ==> a[0] == '3';
    assert Begins(a, "bc1q") ==> a[0] == 'b' && a[3] == 'q';
    assert Begins(a, "bc1p") ==> a[0] == 'b' && a[3] == 'p';
  }

  lemma LabelsDiffer()
    ensures "p2pkh" != "p2sh" && "p2pkh" != "bech32" && "p2pkh" != "taproot" && "p2pkh" != "unknown"
    ensures "p2sh" != "bech32" && "p2sh" != "taproot" && "p2sh" != "unknown"
    ensures "bech32" != "taproot" && "bech32" != "unknown" && "taproot" != "unknown"
  {
    assert "p2pkh"[2] == 'p' && "p2sh"[2] == 's';
    assert "bech32"[0] == 'b' && "taproot"[0] == 't' && "unknown"[0] == 'u' && "p2sh"[0] == 'p' && "p2pkh"[0] == 'p';
  }

  lemma LabelOfType(kind: Option<string>, a: string)
    ensures OtherType(kind) ==> NormalizeAddressType(kind, a) == GetAddressType(a)
    ensures var t, other := NormalizeAddressType(kind, a), OtherType(kind);
            && (!other ==> (t == "p2pkh" <==> OneOf(kind, P2PKH_TYPES)) && (t == "p2sh" <==> OneOf(kind, P2SH_TYPES)))
            && (!other ==> (t == "bech32" <==> OneOf(kind, BECH32_TYPES)))
            && (!other ==> (t == "taproot" <==> OneOf(kind, TAPROOT_TYPES)))
            && (!other ==> t in ["p2pkh", "p2sh", "bech32", "taproot"])
            && (other ==> !OneOf(kind, P2PKH_TYPES) && !OneOf(kind, P2SH_TYPES) && !OneOf(kind, BECH32_TYPES)
                          && !OneOf(kind, TAPROOT_TYPES))
  {
    LabelsDiffer();
  }

  // ----- who gets an address -----

  /** Without a reported address, an output has an owner exactly when its script holds a public key. */
  lemma {:induction false} OwnerIff(sha: seq<Byte> -> Digest, spk: ScriptPubKey, p2pkLabel: string)
    ensures ExtractOutputAddress(sha, spk, p2pkLabel).Found? <==>
            || (exists a :: Reports(spk, a))
            || (spk.kind == Some("pubkey") && exists key :: IsKey(key) && (KeyInHex(spk, key) || KeyInAsm(spk, key)))
  {
    hide KeyHash, Base58.EncodeCheck, Base58.DecodeCheck, KeyInHex, KeyInAsm, IsKey, PubkeyFromP2pkScript, FirstWord,
         NormalizeAddressType, Hash160, FromHex;
    assert ReportedAddress(spk).Some? ==> Reports(spk, ReportedAddress(spk).value);
    assert (exists a :: Reports(spk, a)) ==> ReportedAddress(spk).Some?;
    if ReportedAddress(spk).None? && spk.kind == Some("pubkey") {
      if key :| IsKey(key) && (KeyInHex(spk, key) || KeyInAsm(spk, key)) {
        RawKeyGetsItsAddress(sha, spk, key, p2pkLabel);
      }
      if ExtractOutputAddress(sha, spk, p2pkLabel).Found? {
        FoundHasKey(sha, spk, p2pkLabel);
      }
    }
  }

  lemma FoundHasKey(sha: seq<Byte> -> Digest, spk: ScriptPubKey, p2pkLabel: string)
    requires ReportedAddress(spk).None? && spk.kind == Some("pubkey")
    requires ExtractOutputAddress(sha, spk, p2pkLabel).Found?
    ensures exists key :: IsKey(key) && (KeyInHex(spk, key) || KeyInAsm(spk, key))
  {
    hide KeyHash, Base58.EncodeCheck, PubkeyFromP2pkScript, FirstWord, NormalizeAddressType, KeyInHex, KeyInAsm, IsKey;
    var inHex := if spk.hex.Some? then PubkeyFromP2pkScript(spk.hex.value) else None;
    if inHex.Some? {
      KeyOfHex(spk, inHex.value);
    } else {
      KeyOfAsm(spk, FirstWord(spk.asm).value);
    }
  }

  lemma KeyOfHex(spk: ScriptPubKey, s: string)
    requires spk.hex.Some? && PubkeyFromP2pkScript(spk.hex.value) == Some(s) && KeyDigits(s).Some?
    ensures IsKey(s) && KeyInHex(spk, s)
  {
    var l := Lower(spk.hex.value);
    LowerJoins(l[..2] + s, "ac");
    LowerJoins(l[..2], s);
    assert Lower(l) == l;
    assert l == l[..2] + s + "ac";
  }

  lemma KeyOfAsm(spk: ScriptPubKey, s: string)
    requires spk.hex.None? || PubkeyFromP2pkScript(spk.hex.value).None?
    requires FirstWord(spk.asm) == Some(s) && KeyDigits(s).Some?
    ensures IsKey(s) && KeyInAsm(spk, s)
  {
    var lead, rest := WordStands(spk.asm);
    assert s != "" ==> !IsSpace(s[|s| - 1]);
    assert IsSpace('\n');
    assert IsKey(s);
    assert StandsIn(spk.asm, lead, s, rest);
  }

  /** The first word, and what stands around it. */
  lemma {:induction false} WordStands(s: string) returns (lead: string, rest: string)
    requires FirstWord(s).Some?
    ensures Blank(lead) && (rest == "" || IsSpace(rest[0])) && s == lead + FirstWord(s).value + rest
    ensures forall i | 0 <= i < |FirstWord(s).value| :: !IsSpace(FirstWord(s).value[i])
  {
    if IsSpace(s[0]) {
      lead, rest := WordStands(s[1..]);
      lead := [s[0]] + lead;
      assert s == [s[0]] + s[1..];
    } else {
      lead := "";
      rest := WordEnds(s);
    }
  }

  lemma {:induction false} WordEnds(s: string) returns (rest: string)
    ensures (rest == "" || IsSpace(rest[0])) && s == TakeWord(s) + rest
    ensures forall i | 0 <= i < |TakeWord(s)| :: !IsSpace(TakeWord(s)[i])
  {
    if |s| == 0 || IsSpace(s[0]) {
      rest := s;
    } else {
      rest := WordEnds(s[1..]);
      assert s == [s[0]] + s[1..];
    }
  }

  // ----- hex -----

  const LOWER_DIGITS := "0123456789abcdef"
  const UPPER_DIGITS := "0123456789ABCDEF"

  /** The character writes the value, in either case. */
  predicate Writes(c: char, v: int) {
    0 <= v < 16 && (c == LOWER_DIGITS[v] || c == UPPER_DIGITS[v])
  }

  /** Each byte is read off its two digits, the higher one first. */
  lemma {:induction false} HexRoundTrip(s: string, i: nat)
    requires AllHex(s) && |s| % 2 == 0 && i < |s| / 2
    ensures Writes(s[2 * i], FromHex(s)[i] / 16) && Writes(s[2 * i + 1], FromHex(s)[i] % 16)
  {
    hide HexValue, IsHexDigit, FromHex, Writes;
    var x, y := HexValue(s[2 * i]), HexValue(s[2 * i + 1]);
    assert FromHex(s)[i] == 16 * x + y by { ByteIs(s, i); }
    hide AllHex;
    DigitIs(s[2 * i]);
    DigitIs(s[2 * i + 1]);
    Halves(x, y);
  }

  lemma ByteIs(s: string, i: nat)
    requires AllHex(s) && |s| % 2 == 0 && i < |s| / 2
    ensures FromHex(s)[i] == 16 * HexValue(s[2 * i]) + HexValue(s[2 * i + 1])
  {
    hide HexValue;
  }

  lemma Halves(x: nat, y: nat)
    requires y < 16
    ensures (16 * x + y) / 16 == x && (16 * x + y) % 16 == y
  {
  }

  lemma DigitIs(c: char)
    requires IsHexDigit(c)
    ensures HexValue(c) < 16 && Writes(c, HexValue(c))
  {
  }

  predicate Digits(s: string) {
    forall c | c in s :: c in LOWER_DIGITS || c in UPPER_DIGITS
  }

  /** A key is 02 or 03 and 64 digits, or 04 and 128. */
  lemma KeyShape(k: string)
    ensures IsKey(k) <==> exists d: string :: Digits(d) && ((|d| == 64 && (k == "02" + d || k == "03" + d))
                                                            || (|d| == 128 && k == "04" + d))
  {
    DigitsAreHex();
    if IsKey(k) {
      var d := k[2..];
      assert k == k[..2] + d;
      assert Digits(d);
    }
    if d: string :| Digits(d) && ((|d| == 64 && (k == "02" + d || k == "03" + d)) || (|d| == 128 && k == "04" + d)) {
      assert IsHexDigit('0') && IsHexDigit('2') && IsHexDigit('3') && IsHexDigit('4');
      assert forall i | 2 <= i < |k| :: k[i] == d[i - 2] && d[i - 2] in d;
    }
  }

  lemma DigitsAreHex()
    ensures forall c :: IsHexDigit(c) <==> c in LOWER_DIGITS || c in UPPER_DIGITS
  {
    forall c | IsHexDigit(c)
      ensures c in LOWER_DIGITS || c in UPPER_DIGITS
    {
      DigitIs(c);
    }
  }

  /** Version byte 0, the hash, and the first four bytes of the double SHA-256 of these. */
  ghost predicate Checked(sha: seq<Byte> -> Digest, raw: seq<Byte>, hash: seq<Byte>) {
    raw == [0] + hash + sha(sha([0] + hash))[..4]
  }

  /**
   The address of a key, decoded: a zero byte, the RIPEMD-160 of the SHA-256 of the key's bytes, and the
   checksum.  A line feed behind the key does not matter.
   */
  lemma {:induction false} KeyAddressBytes(sha: seq<Byte> -> Digest, key: string, bytes: seq<Byte>)
    requires IsKey(key) && AllHex(key) && |key| % 2 == 0 && bytes == FromHex(key)
    ensures var r := PubkeyToP2pkhAddress(sha, key);
            && r.Some? && PubkeyToP2pkhAddress(sha, key + "\n") == r
            && Base58.Decode(r.value).Some? && Checked(sha, Base58.Decode(r.value).value, Ripemd160.Hash(sha(bytes)))
  {
    KeyHolds(sha, key);
    hide IsKey, AllHex, FromHex, Hash160, KeyDigits, Base58.EncodeCheck, Base58.Decode, Ripemd160.Hash;
    CheckedBytes(sha, KeyHash(sha, key));
  }

  lemma KeyHolds(sha: seq<Byte> -> Digest, key: string)
    requires IsKey(key)
    ensures KeyDigits(key) == KeyDigits(key + "\n") == Some(key)
    ensures AllHex(key) && |key| % 2 == 0 && KeyHash(sha, key) == Ripemd160.Hash(sha(FromHex(key)))
  {
    hide FromHex, Ripemd160.Hash;
    assert (key + "\n")[..|key|] == key;
  }

  lemma CheckedBytes(sha: seq<Byte> -> Digest, hash: seq<Byte>)
    ensures var raw := Base58.Decode(Base58.EncodeCheck(sha, 0, hash)); raw.Some? && Checked(sha, raw.value, hash)
  {
    Base58.DecodeEncode(Base58.Raw(sha, 0, hash));
  }
}
