/**
 What one pass over a block stages, said of the block's JSON alone: for each table, the exact
 columns of the exact rows, and the class of the block.
 */
module StagedRows {
  import opened Common
  import opened Sums
  import opened Chain
  import opened Rows
  import opened Extract

  // ----- what is asked of an output -----

  /** `n` is the output's value in satoshis, rounded down, and not 0. */
  ghost predicate Carries(o: Vout, n: int) {
    o.value.Btc? && n > 0 && n as real <= o.value.btc * 100000000.0 < n as real + 1.0
  }

  /** The script is marked as carrying data: its asm begins with these nine characters. */
  ghost predicate CarriesData(o: Vout) {
    var s := o.script.asm;
    && |s| >= 9 && s[0] == 'O' && s[1] == 'P' && s[2] == '_' && s[3] == 'R' && s[4] == 'E' && s[5] == 'T'
    && s[6] == 'U' && s[7] == 'R' && s[8] == 'N'
  }

  const HEX := "0123456789abcdefABCDEF"

  /** 64 hex digits, perhaps with a line feed behind them. */
  ghost predicate TxidShape(s: string) {
    exists d: string :: |d| == 64 && (forall c | c in d :: c in HEX) && (s == d || s == d + "\n")
  }

  /** Transaction `i` is not passed over, and goes by this txid. */
  ghost predicate IsTx(b: Block, i: int, txid: TxId) {
    0 <= i < |b.txs| && b.txs[i].txid == Some(txid) && TxidShape(txid)
  }

  /** The input spends output `n` of `prev`. */
  ghost predicate SpendsFrom(v: Vin, prev: TxId, n: int) {
    !v.coinbase && v.txid == Some(prev) && TxidShape(prev) && v.vout == Some(n)
  }

  lemma TxidIs(s: string)
    ensures ValidTxid(s) <==> TxidShape(s)
  {
    HexIs();
    if ValidTxid(s) {
      var d := s[..64];
      assert s == d || s == d + "\n";
    }
    if TxidShape(s) {
      var d: string :| |d| == 64 && (forall c | c in d :: c in HEX) && (s == d || s == d + "\n");
      assert forall i | 0 <= i < 64 :: s[i] == d[i] && d[i] in HEX;
    }
  }

  lemma HexIs()
    ensures forall c :: IsHexDigit(c) <==> c in HEX
  {
    forall c | IsHexDigit(c)
      ensures c in HEX
    {
      var k := if c <= '9' then c as int - '0' as int else if c >= 'a' then c as int - 'a' as int + 10
               else c as int - 'A' as int + 16;
      assert HEX[k] == c;
    }
  }

  /** Rounding down leaves one number, so an amount determines its satoshis. */
  lemma CarriesOne(o: Vout, n: int)
    requires !o.value.Absent?
    ensures Carries(o, n) <==> ToSats(o.value) == Some(n) && n > 0
  {
  }

  lemma WorthIs(o: Vout, c: Coin)
    ensures Worth(o) == Some(c) <==> o.script.owner == Some(c.owner) && Carries(o, c.sats)
  {
    if !o.value.Absent? {
      CarriesOne(o, c.sats);
    }
  }

  lemma OutCoinIs(o: Vout, c: Coin)
    ensures OutCoin(o) == Some(c) <==> o.script.owner == Some(c.owner) && !CarriesData(o) && Carries(o, c.sats)
  {
    hide Worth, Carries;
    WorthIs(o, c);
    DataIs(o);
  }

  lemma DataIs(o: Vout)
    ensures IsOpReturn(o.script) <==> CarriesData(o)
  {
  }

  // ----- the rows -----

  /**
   An out row for every output of a transaction with a valid txid that has an owner, is worth a
   satoshi or more and is not marked as data; the row tells which output, whose and how much.
   */
  lemma {:induction false} OutRowIff(b: Block, height: int, hasPrevouts: bool, r: IoRow)
    requires b.time.Some?
    ensures r in Staged(b, height, hasPrevouts).value.outRows <==>
            r.io == Out && exists i :: IsTx(b, i, r.txid) && 0 <= r.idx < |b.txs[i].vouts| &&
                                       var o := b.txs[i].vouts[r.idx];
                                       && o.script.owner == Some(Owner(r.address, r.kind)) && !CarriesData(o)
                                       && Carries(o, r.amount)
  {
    hide OutCoin, CarriesData, Carries, ValidTxid, TxidShape;
    BlockOutRowsAre(b, |b.txs|, r);
    TxidIs(r.txid);
    if i, j :| i < |b.txs| && OutAt(b, i, j) && r == OutRow(b.txs[i], j) {
      var o := b.txs[i].vouts[j];
      OutCoinIs(o, OutCoin(o).value);
      assert IsTx(b, i, r.txid);
    }
    if i :| IsTx(b, i, r.txid) && r.io == Out && 0 <= r.idx < |b.txs[i].vouts| &&
            (var o := b.txs[i].vouts[r.idx];
             o.script.owner == Some(Owner(r.address, r.kind)) && !CarriesData(o) && Carries(o, r.amount)) {
      NotBelowZero(b.txs[i].vouts[r.idx], r.amount);
      OutCoinIs(b.txs[i].vouts[r.idx], Coin(Owner(r.address, r.kind), r.amount));
      assert OutAt(b, i, r.idx) && r == OutRow(b.txs[i], r.idx);
    }
  }

  lemma NotBelowZero(o: Vout, n: int)
    requires Carries(o, n)
    ensures n > 0
  {
  }

  /** An in row for every input whose inline prevout has an owner and is worth a satoshi; none without prevouts. */
  lemma {:induction false} InRowIff(b: Block, height: int, hasPrevouts: bool, r: IoRow)
    requires b.time.Some?
    ensures r in Staged(b, height, hasPrevouts).value.inRows <==>
            hasPrevouts && r.io == In &&
            exists i :: IsTx(b, i, r.txid) && 0 <= r.idx < |b.txs[i].vins| &&
                        var v := b.txs[i].vins[r.idx];
                        && (exists prev, n :: SpendsFrom(v, prev, n)) && v.prevout.Some?
                        && v.prevout.value.script.owner == Some(Owner(r.address, r.kind))
                        && Carries(v.prevout.value, r.amount)
  {
    hide Worth, Carries, ValidTxid, TxidShape;
    BlockInRowsAre(b, |b.txs|, r);
    TxidIs(r.txid);
    if i, j :| i < |b.txs| && InAt(b, i, j) && r == InRow(b.txs[i], j) {
      var v := b.txs[i].vins[j];
      WorthIs(v.prevout.value, InCoin(v).value);
      TxidIs(v.txid.value);
      assert IsTx(b, i, r.txid) && SpendsFrom(v, v.txid.value, v.vout.value);
    }
    if i, prev, n :| IsTx(b, i, r.txid) && r.io == In && 0 <= r.idx < |b.txs[i].vins| &&
                     (var v := b.txs[i].vins[r.idx];
                      SpendsFrom(v, prev, n) && v.prevout.Some?
                      && v.prevout.value.script.owner == Some(Owner(r.address, r.kind))
                      && Carries(v.prevout.value, r.amount)) {
      var v := b.txs[i].vins[r.idx];
      TxidIs(prev);
      NotBelowZero(v.prevout.value, r.amount);
      WorthIs(v.prevout.value, Coin(Owner(r.address, r.kind), r.amount));
      assert SpendAt(b, i, r.idx) && InAt(b, i, r.idx) && r == InRow(b.txs[i], r.idx);
    }
  }

  /** A spend edge for every input that names an outpoint, with the block's height, hash and time. */
  lemma {:induction false} SpendRowIff(b: Block, height: int, hasPrevouts: bool, r: SpendRow)
    requires b.time.Some?
    ensures r in Staged(b, height, hasPrevouts).value.spendRows <==>
            && r.height == height && r.blockHash == b.hash && b.time == Some(r.time)
            && exists i :: IsTx(b, i, r.spendingTxid) && 0 <= r.spendingVin < |b.txs[i].vins|
                           && SpendsFrom(b.txs[i].vins[r.spendingVin], r.prevTxid, r.prevVout)
  {
    hide ValidTxid, TxidShape;
    BlockSpendRowsAre(b, |b.txs|, height, r);
    TxidIs(r.prevTxid);
    TxidIs(r.spendingTxid);
    if i, j :| i < |b.txs| && SpendAt(b, i, j) && r == SpendOf(b.txs[i], j, height, b) {
      assert IsTx(b, i, r.spendingTxid);
    }
    if i :| IsTx(b, i, r.spendingTxid) && 0 <= r.spendingVin < |b.txs[i].vins|
            && SpendsFrom(b.txs[i].vins[r.spendingVin], r.prevTxid, r.prevVout) {
      assert SpendAt(b, i, r.spendingVin);
    }
  }

  // ----- the totals of a transaction -----

  /** What the output adds to its transaction's total. */
  ghost predicate Adds(o: Vout, n: int) {
    if o.script.owner.Some? && o.value.Btc? && o.value.btc * 100000000.0 >= 1.0 then Carries(o, n) else n == 0
  }

  /** What output `j` adds: an output marked as data adds nothing. */
  ghost predicate OutputAdds(tx: Tx, j: int, n: int)
    requires 0 <= j < |tx.vouts|
  {
    if CarriesData(tx.vouts[j]) then n == 0 else Adds(tx.vouts[j], n)
  }

  /** What input `j` adds: an input without outpoint or inline prevout adds nothing. */
  ghost predicate InputAdds(tx: Tx, j: int, n: int)
    requires 0 <= j < |tx.vins|
  {
    var v := tx.vins[j];
    if (exists prev, k :: SpendsFrom(v, prev, k)) && v.prevout.Some? then Adds(v.prevout.value, n) else n == 0
  }

  ghost predicate TotalsOut(tx: Tx, total: int) {
    exists ns: seq<int> ::
      |ns| == |tx.vouts| && (forall j | 0 <= j < |ns| :: OutputAdds(tx, j, ns[j])) && SumSeq(ns) == total
  }

  ghost predicate TotalsIn(tx: Tx, total: int) {
    exists ns: seq<int> ::
      |ns| == |tx.vins| && (forall j | 0 <= j < |ns| :: InputAdds(tx, j, ns[j])) && SumSeq(ns) == total
  }

  lemma AddsWorth(o: Vout, n: int)
    ensures Adds(o, n) <==> n == if Worth(o).Some? then Worth(o).value.sats else 0
  {
  }

  lemma OutputAddsCoin(tx: Tx, j: nat, n: int)
    requires j < |tx.vouts|
    ensures OutputAdds(tx, j, n) <==> n == if OutCoin(tx.vouts[j]).Some? then OutCoin(tx.vouts[j]).value.sats else 0
  {
    hide Adds, Worth;
    AddsWorth(tx.vouts[j], n);
    DataIs(tx.vouts[j]);
  }

  lemma InputAddsCoin(tx: Tx, j: nat, n: int)
    requires j < |tx.vins|
    ensures InputAdds(tx, j, n) <==>
            n == if Spends(tx.vins[j]) && InCoin(tx.vins[j]).Some? then InCoin(tx.vins[j]).value.sats else 0
  {
    hide Adds, Worth, ValidTxid, TxidShape;
    var v := tx.vins[j];
    if v.txid.Some? {
      TxidIs(v.txid.value);
      if Spends(v) {
        assert SpendsFrom(v, v.txid.value, v.vout.value);
      }
    }
    if v.prevout.Some? {
      AddsWorth(v.prevout.value, n);
    }
  }

  lemma {:induction false} OutTotalIs(tx: Tx, n: nat, ns: seq<int>)
    requires n <= |tx.vouts| == |ns| && forall j | 0 <= j < |ns| :: OutputAdds(tx, j, ns[j])
    ensures OutTotal(tx, n) == SumSeq(ns[..n])
  {
    hide OutputAdds;
    if n > 0 {
      OutTotalIs(tx, n - 1, ns);
      OutputAddsCoin(tx, n - 1, ns[n - 1]);
      assert ns[..n][..n - 1] == ns[..n - 1];
    }
  }

  lemma {:induction false} InTotalIs(tx: Tx, n: nat, ns: seq<int>)
    requires n <= |tx.vins| == |ns| && forall j | 0 <= j < |ns| :: InputAdds(tx, j, ns[j])
    ensures InTotal(tx, n) == SumSeq(ns[..n])
  {
    hide InputAdds;
    if n > 0 {
      InTotalIs(tx, n - 1, ns);
      InputAddsCoin(tx, n - 1, ns[n - 1]);
      assert ns[..n][..n - 1] == ns[..n - 1];
    }
  }

  lemma TotalsOutIff(tx: Tx, total: int)
    ensures TotalsOut(tx, total) <==> total == OutTotal(tx, |tx.vouts|)
  {
    hide OutputAdds, OutTotal, OutCoin;
    var ns := seq(|tx.vouts|, j requires 0 <= j < |tx.vouts| =>
                                if OutCoin(tx.vouts[j]).Some? then OutCoin(tx.vouts[j]).value.sats else 0);
    forall j | 0 <= j < |ns|
      ensures OutputAdds(tx, j, ns[j])
    {
      OutputAddsCoin(tx, j, ns[j]);
    }
    forall ms: seq<int> | |ms| == |tx.vouts| && forall j | 0 <= j < |ms| :: OutputAdds(tx, j, ms[j])
      ensures SumSeq(ms) == OutTotal(tx, |tx.vouts|)
    {
      OutTotalIs(tx, |tx.vouts|, ms);
      assert ms[..|ms|] == ms;
    }
    assert SumSeq(ns) == OutTotal(tx, |tx.vouts|);
  }

  lemma TotalsInIff(tx: Tx, total: int)
    ensures TotalsIn(tx, total) <==> total == InTotal(tx, |tx.vins|)
  {
    hide InputAdds, InTotal, InCoin, Spends;
    var ns := seq(|tx.vins|, j requires 0 <= j < |tx.vins| =>
        if Spends(tx.vins[j]) && InCoin(tx.vins[j]).Some? then InCoin(tx.vins[j]).value.sats else 0);
    forall j | 0 <= j < |ns|
      ensures InputAdds(tx, j, ns[j])
    {
      InputAddsCoin(tx, j, ns[j]);
    }
    forall ms: seq<int> | |ms| == |tx.vins| && forall j | 0 <= j < |ms| :: InputAdds(tx, j, ms[j])
      ensures SumSeq(ms) == InTotal(tx, |tx.vins|)
    {
      InTotalIs(tx, |tx.vins|, ms);
      assert ms[..|ms|] == ms;
    }
    assert SumSeq(ns) == InTotal(tx, |tx.vins|);
  }

  /** A row for every transaction with a valid txid, with the sums of what its outputs and inputs add. */
  lemma {:induction false} TxRowIff(b: Block, height: int, hasPrevouts: bool, r: TxRow)
    requires b.time.Some?
    ensures r in Staged(b, height, hasPrevouts).value.txRows <==>
            && r.blockHash == b.hash && b.time == Some(r.time)
            && exists i :: IsTx(b, i, r.txid) && TotalsOut(b.txs[i], r.totalOut)
                           && if hasPrevouts then TotalsIn(b.txs[i], r.totalIn) else r.totalIn == 0
  {
    hide ValidTxid, TxidShape, TotalsOut, TotalsIn, OutTotal, InTotal;
    BlockTxRowsAre(b, |b.txs|, hasPrevouts, r);
    TxidIs(r.txid);
    forall i | 0 <= i < |b.txs|
      ensures TotalsOut(b.txs[i], r.totalOut) <==> r.totalOut == OutTotal(b.txs[i], |b.txs[i].vouts|)
      ensures TotalsIn(b.txs[i], r.totalIn) <==> r.totalIn == InTotal(b.txs[i], |b.txs[i].vins|)
    {
      TotalsOutIff(b.txs[i], r.totalOut);
      TotalsInIff(b.txs[i], r.totalIn);
    }
    if i :| 0 <= i < |b.txs| && KnownTx(b.txs[i]) && r == TxRowOf(b.txs[i], b, hasPrevouts) {
      assert IsTx(b, i, r.txid);
    }
  }

  // ----- the class of a block -----

  /** Some input, of any transaction, carries a txid. */
  ghost predicate NamesAnOutput(b: Block) {
    exists i, j :: 0 <= i < |b.txs| && 0 <= j < |b.txs[i].vins| && b.txs[i].vins[j].txid != None
  }

  /** Some output would earn a row. */
  ghost predicate PaysSomeone(b: Block) {
    exists i, j, txid, n :: IsTx(b, i, txid) && 0 <= j < |b.txs[i].vouts| && PaysOwner(b.txs[i].vouts[j], n)
  }

  ghost predicate PaysOwner(o: Vout, n: int) {
    o.script.owner != None && !CarriesData(o) && Carries(o, n)
  }

  /** Some output not marked as data has a value above zero, be it a fraction of a satoshi or infinite. */
  ghost predicate HoldsMore(b: Block) {
    exists i, j :: 0 <= i < |b.txs| && 0 <= j < |b.txs[i].vouts| && !CarriesData(b.txs[i].vouts[j])
                   && AboveZero(b.txs[i].vouts[j].value)
  }

  ghost predicate AboveZero(v: Amount) {
    v == NonFinite(true) || (v.Btc? && v.btc > 0.0)
  }

  /** There are transactions, and each has one input, a coinbase. */
  ghost predicate OnlyCoinbases(b: Block) {
    b.txs != [] && forall tx | tx in b.txs :: exists v :: tx.vins == [v] && v.coinbase
  }

  lemma {:induction false} PaysIff(b: Block)
    ensures BlockOutRows(b, |b.txs|) != [] <==> PaysSomeone(b)
  {
    hide ValidTxid, TxidShape, OutCoin, CarriesData, Carries;
    var outs := BlockOutRows(b, |b.txs|);
    if outs != [] {
      BlockOutRowsAre(b, |b.txs|, outs[0]);
      var i, j :| OutAt(b, i, j) && outs[0] == OutRow(b.txs[i], j);
      assert OutAt(b, i, j);
      var o, txid := b.txs[i].vouts[j], b.txs[i].txid.value;
      OutCoinIs(o, OutCoin(o).value);
      TxidIs(txid);
      assert IsTx(b, i, txid) && PaysOwner(o, OutCoin(o).value.sats);
    }
    if i, j, txid, n :| IsTx(b, i, txid) && 0 <= j < |b.txs[i].vouts| && PaysOwner(b.txs[i].vouts[j], n) {
      var o := b.txs[i].vouts[j];
      NotBelowZero(o, n);
      OutCoinIs(o, Coin(o.script.owner.value, n));
      TxidIs(txid);
      BlockOutRowsAre(b, |b.txs|, OutRow(b.txs[i], j));
      assert OutAt(b, i, j);
    }
  }

  lemma HoldsMoreIs(b: Block)
    ensures AnySpendableOutput(b) <==> HoldsMore(b)
  {
    hide IsOpReturn, CarriesData;
    forall i, j | 0 <= i < |b.txs| && 0 <= j < |b.txs[i].vouts|
      ensures IsOpReturn(b.txs[i].vouts[j].script) <==> CarriesData(b.txs[i].vouts[j])
    {
      DataIs(b.txs[i].vouts[j]);
    }
  }

  lemma OnlyCoinbasesIs(b: Block)
    ensures CoinbaseOnly(b) <==> OnlyCoinbases(b)
  {
    if CoinbaseOnly(b) {
      forall tx | tx in b.txs
        ensures exists v :: tx.vins == [v] && v.coinbase
      {
        assert tx.vins == [tx.vins[0]];
      }
    }
    if OnlyCoinbases(b) {
      forall i | 0 <= i < |b.txs|
        ensures |b.txs[i].vins| == 1 && b.txs[i].vins[0].coinbase
      {
        assert b.txs[i] in b.txs;
      }
    }
  }

  /**
   The class follows from four questions about the block, whichever way it was fetched.  Despite
   its name, op_return_only is the class of blocks that hold value which earns no row.
   */
  lemma {:induction false} ClassIff(b: Block, height: int, hasPrevouts: bool)
    requires b.time.Some?
    ensures var f := Staged(b, height, hasPrevouts).value.features;
            && (f == FBoth <==> NamesAnOutput(b) && PaysSomeone(b))
            && (f == FVin <==> NamesAnOutput(b) && !PaysSomeone(b))
            && (f == FVout <==> !NamesAnOutput(b) && PaysSomeone(b))
            && (f == FOpReturnOnly <==> !NamesAnOutput(b) && !PaysSomeone(b) && HoldsMore(b))
            && (f == FCoinbaseOnly <==>
                !NamesAnOutput(b) && !PaysSomeone(b) && !HoldsMore(b) && OnlyCoinbases(b))
            && (f == FNone <==> !NamesAnOutput(b) && !PaysSomeone(b) && !HoldsMore(b) && !OnlyCoinbases(b))
  {
    hide PaysSomeone, HoldsMore, OnlyCoinbases, AnySpendableOutput, CoinbaseOnly;
    RowsShowPreviousTxid(b, height);
    PaysIff(b);
    HoldsMoreIs(b);
    OnlyCoinbasesIs(b);
    assert HasPreviousTxid(b) <==> NamesAnOutput(b);
  }
}
