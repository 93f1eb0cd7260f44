/**
 The blocks a node serves, as far as the crawler looks at them, and what makes a chain of blocks
 well-formed.  A block's height is its index in the chain.
 */
module Chain {
  import opened Common

  type TxId = string
  type Address = string

  /** A `value` field of the node's JSON: missing, NaN or infinite, or an amount in BTC. */
  datatype Amount = Absent | NonFinite(positive: bool) | Btc(btc: real)

  /** What address extraction makes of a scriptPubKey (module Addresses). */
  datatype Owner = Owner(address: Address, kind: string)
  datatype Script = Script(asm: string, owner: Option<Owner>)

  datatype Vout = Vout(value: Amount, script: Script)
  /** `prevout` is the spent output as a verbosity-3 response repeats it inline. */
  datatype Vin = Vin(coinbase: bool, txid: Option<TxId>, vout: Option<int>, prevout: Option<Vout>)
  datatype Tx = Tx(txid: Option<TxId>, vins: seq<Vin>, vouts: seq<Vout>)
  datatype Block = Block(hash: string, time: Option<int>, txs: seq<Tx>)

  predicate IsHexDigit(c: char) {
    '0' <= c <= '9' || 'a' <= c <= 'f' || 'A' <= c <= 'F'
  }

  /** 64 hex digits; the pattern's `$` also lets one trailing newline through. */
  predicate ValidTxid(s: string) {
    && (|s| == 64 || (|s| == 65 && s[64] == '\n'))
    && forall i | 0 <= i < 64 :: IsHexDigit(s[i])
  }

  predicate KnownTx(tx: Tx) {
    tx.txid.Some? && ValidTxid(tx.txid.value)
  }

  /** BTC to satoshis: rounds down, negative amounts become 0, non-finite ones raise. */
  function ToSats(v: Amount): (r: Option<nat>)
    requires !v.Absent?
    ensures r.None? <==> v.NonFinite?
    ensures v.Btc? && v.btc <= 0.0 ==> r == Some(0)
    ensures v.Btc? && v.btc >= 0.0 ==>
              r.Some? && r.value as real <= v.btc * 100000000.0 < r.value as real + 1.0
  {
    match v
    case NonFinite(_) => None
    case Btc(d) => if d <= 0.0 then Some(0) else Some((d * 100000000.0).Floor)
  }

  datatype Coin = Coin(owner: Owner, sats: nat)

  /** The positive, addressed amount of an output; None where the crawler drops it. */
  function Worth(o: Vout): (c: Option<Coin>)
    ensures c.Some? ==> c.value.sats > 0
  {
    if o.script.owner.None? || o.value.Absent? then None
    else
      var sats := ToSats(o.value);
      if sats.Some? && sats.value > 0 then Some(Coin(o.script.owner.value, sats.value)) else None
  }

  predicate IsOpReturn(s: Script) {
    "OP_RETURN" <= s.asm
  }

  /** An output earns a row unless it is an OP_RETURN; an inline prevout is not asked that. */
  function OutCoin(o: Vout): (c: Option<Coin>)
    ensures c.Some? ==> c.value.sats > 0
  {
    if IsOpReturn(o.script) then None else Worth(o)
  }

  function InCoin(v: Vin): (c: Option<Coin>)
    ensures c.Some? ==> c.value.sats > 0
  {
    if v.prevout.None? then None else Worth(v.prevout.value)
  }

  /** An input that names an outpoint. */
  predicate Spends(v: Vin) {
    !v.coinbase && v.txid.Some? && ValidTxid(v.txid.value) && v.vout.Some?
  }

  ghost predicate TxAt(chain: seq<Block>, h: int, i: int) {
    0 <= h < |chain| && 0 <= i < |chain[h].txs| && KnownTx(chain[h].txs[i])
  }

  ghost predicate InputAt(chain: seq<Block>, h: int, i: int, j: int) {
    TxAt(chain, h, i) && 0 <= j < |chain[h].txs[i].vins| && Spends(chain[h].txs[i].vins[j])
  }

  ghost predicate OutputAt(chain: seq<Block>, h: int, i: int, j: int) {
    TxAt(chain, h, i) && 0 <= j < |chain[h].txs[i].vouts|
  }

  /** Output `o` is created before the input at (h, i), in chain order. */
  ghost predicate Before(h': int, i': int, h: int, i: int) {
    h' < h || (h' == h && i' < i)
  }

  ghost predicate Names(chain: seq<Block>, v: Vin, h: int, i: int, j: int)
    requires Spends(v) && OutputAt(chain, h, i, j)
  {
    v.txid.value == chain[h].txs[i].txid.value && v.vout.value == j
  }

  /** The inline prevout repeats value and script owner of the output it stands for. */
  ghost predicate Repeats(v: Vin, o: Vout) {
    v.prevout.Some? && v.prevout.value.value == o.value && v.prevout.value.script.owner == o.script.owner
  }

  ghost predicate DistinctTxids(chain: seq<Block>) {
    forall h, i, h', i' | TxAt(chain, h, i) && TxAt(chain, h', i') ::
      chain[h].txs[i].txid == chain[h'].txs[i'].txid ==> h == h' && i == i'
  }

  ghost predicate DistinctOutpoints(chain: seq<Block>) {
    forall h, i, j, h', i', j' | InputAt(chain, h, i, j) && InputAt(chain, h', i', j') ::
      chain[h].txs[i].vins[j].txid == chain[h'].txs[i'].vins[j'].txid &&
      chain[h].txs[i].vins[j].vout == chain[h'].txs[i'].vins[j'].vout
      ==> h == h' && i == i' && j == j'
  }

  /** (h', i', j') is the output the input at (h, i, j) spends. */
  ghost predicate Origin(chain: seq<Block>, h: int, i: int, j: int, h': int, i': int, j': int)
    requires InputAt(chain, h, i, j)
  {
    && OutputAt(chain, h', i', j') && Before(h', i', h, i)
    && Names(chain, chain[h].txs[i].vins[j], h', i', j')
    && Repeats(chain[h].txs[i].vins[j], chain[h'].txs[i'].vouts[j'])
    && !IsOpReturn(chain[h'].txs[i'].vouts[j'].script)
  }

  /**
   Every block has a time, hashes and txids are distinct (BIP 30), no outpoint is spent twice, and
   every input spends an earlier output that is not an OP_RETURN and that its inline prevout repeats.
   */
  ghost predicate WellFormed(chain: seq<Block>) {
    && (forall h | 0 <= h < |chain| :: chain[h].time.Some?)
    && (forall h, h' | 0 <= h < h' < |chain| :: chain[h].hash != chain[h'].hash)
    && DistinctTxids(chain)
    && DistinctOutpoints(chain)
    && (forall h, i, j | InputAt(chain, h, i, j) ::
          exists h', i', j' :: Origin(chain, h, i, j, h', i', j'))
  }
}
