/** The rows the crawler stages for its tables. */
module Rows {
  import opened Chain

  datatype IoType = In | Out

  datatype TxRow = TxRow(txid: TxId, blockHash: string, time: int, totalIn: int, totalOut: int)
  datatype IoRow = IoRow(txid: TxId, address: Address, kind: string, amount: int, io: IoType, idx: int)
  datatype SpendRow = SpendRow(prevTxid: TxId, prevVout: int, spendingTxid: TxId, spendingVin: int,
                               height: int, blockHash: string, time: int)

  datatype Features = FBoth | FVin | FVout | FOpReturnOnly | FCoinbaseOnly | FNone
}

/** Phase extract: one pass over a block yields the rows of all four tables. */
module Extract {
  import opened Common
  import opened Chain
  import opened Rows

  datatype Parsed = Parsed(txRows: seq<TxRow>, outRows: seq<IoRow>, inRows: seq<IoRow>,
                           spendRows: seq<SpendRow>, features: Features)

  // ----- the rows of one transaction, input by input and output by output -----

  function OutRow(tx: Tx, j: int): IoRow
    requires KnownTx(tx) && 0 <= j < |tx.vouts| && OutCoin(tx.vouts[j]).Some?
  {
    var c := OutCoin(tx.vouts[j]).value;
    IoRow(tx.txid.value, c.owner.address, c.owner.kind, c.sats, Out, j)
  }

  function InRow(tx: Tx, j: int): IoRow
    requires KnownTx(tx) && 0 <= j < |tx.vins| && Spends(tx.vins[j]) && InCoin(tx.vins[j]).Some?
  {
    var c := InCoin(tx.vins[j]).value;
    IoRow(tx.txid.value, c.owner.address, c.owner.kind, c.sats, In, j)
  }

  function SpendOf(tx: Tx, j: int, height: int, b: Block): SpendRow
    requires KnownTx(tx) && 0 <= j < |tx.vins| && Spends(tx.vins[j]) && b.time.Some?
  {
    SpendRow(tx.vins[j].txid.value, tx.vins[j].vout.value, tx.txid.value, j, height, b.hash, b.time.value)
  }

  function OutRows(tx: Tx, n: nat): seq<IoRow>
    requires KnownTx(tx) && n <= |tx.vouts|
  {
    if n == 0 then []
    else OutRows(tx, n - 1) + if OutCoin(tx.vouts[n - 1]).Some? then [OutRow(tx, n - 1)] else []
  }

  function OutTotal(tx: Tx, n: nat): nat
    requires n <= |tx.vouts|
  {
    if n == 0 then 0
    else OutTotal(tx, n - 1) + if OutCoin(tx.vouts[n - 1]).Some? then OutCoin(tx.vouts[n - 1]).value.sats else 0
  }

  function InRows(tx: Tx, n: nat): seq<IoRow>
    requires KnownTx(tx) && n <= |tx.vins|
  {
    if n == 0 then []
    else InRows(tx, n - 1) +
         if Spends(tx.vins[n - 1]) && InCoin(tx.vins[n - 1]).Some? then [InRow(tx, n - 1)] else []
  }

  function InTotal(tx: Tx, n: nat): nat
    requires n <= |tx.vins|
  {
    if n == 0 then 0
    else InTotal(tx, n - 1) +
         if Spends(tx.vins[n - 1]) && InCoin(tx.vins[n - 1]).Some? then InCoin(tx.vins[n - 1]).value.sats else 0
  }

  function SpendRows(tx: Tx, n: nat, height: int, b: Block): seq<SpendRow>
    requires KnownTx(tx) && n <= |tx.vins| && b.time.Some?
  {
    if n == 0 then []
    else SpendRows(tx, n - 1, height, b) +
         if Spends(tx.vins[n - 1]) then [SpendOf(tx, n - 1, height, b)] else []
  }

  function TxRowOf(tx: Tx, b: Block, hasPrevouts: bool): TxRow
    requires KnownTx(tx) && b.time.Some?
  {
    TxRow(tx.txid.value, b.hash, b.time.value, if hasPrevouts then InTotal(tx, |tx.vins|) else 0,
          OutTotal(tx, |tx.vouts|))
  }

  // ----- the rows of the first n transactions of a block -----

  function BlockOutRows(b: Block, n: nat): seq<IoRow>
    requires n <= |b.txs|
  {
    if n == 0 then []
    else BlockOutRows(b, n - 1) + if KnownTx(b.txs[n - 1]) then OutRows(b.txs[n - 1], |b.txs[n - 1].vouts|) else []
  }

  function BlockInRows(b: Block, n: nat): seq<IoRow>
    requires n <= |b.txs|
  {
    if n == 0 then []
    else BlockInRows(b, n - 1) + if KnownTx(b.txs[n - 1]) then InRows(b.txs[n - 1], |b.txs[n - 1].vins|) else []
  }

  function BlockSpendRows(b: Block, n: nat, height: int): seq<SpendRow>
    requires n <= |b.txs| && b.time.Some?
  {
    if n == 0 then []
    else BlockSpendRows(b, n - 1, height) +
         if KnownTx(b.txs[n - 1]) then SpendRows(b.txs[n - 1], |b.txs[n - 1].vins|, height, b) else []
  }

  function BlockTxRows(b: Block, n: nat, hasPrevouts: bool): seq<TxRow>
    requires n <= |b.txs| && b.time.Some?
  {
    if n == 0 then []
    else BlockTxRows(b, n - 1, hasPrevouts) +
         if KnownTx(b.txs[n - 1]) then [TxRowOf(b.txs[n - 1], b, hasPrevouts)] else []
  }

  // ----- classification -----

  predicate HasPreviousTxid(b: Block) {
    exists i, j | 0 <= i < |b.txs| && 0 <= j < |b.txs[i].vins| :: b.txs[i].vins[j].txid.Some?
  }

  predicate CoinbaseOnly(b: Block) {
    |b.txs| > 0 && forall i | 0 <= i < |b.txs| :: |b.txs[i].vins| == 1 && b.txs[i].vins[0].coinbase
  }

  predicate PositiveAmount(v: Amount) {
    match v
    case Absent => false
    case NonFinite(positive) => positive
    case Btc(d) => d > 0.0
  }

  predicate AnySpendableOutput(b: Block) {
    exists i, j | 0 <= i < |b.txs| && 0 <= j < |b.txs[i].vouts| ::
      !IsOpReturn(b.txs[i].vouts[j].script) && PositiveAmount(b.txs[i].vouts[j].value)
  }

  function ClassifyBlockFeatures(hasOutRows: bool, hasInRows: bool, b: Block): Features {
    var hasVin := hasInRows || HasPreviousTxid(b);
    if hasVin && hasOutRows then FBoth
    else if hasVin then FVin
    else if hasOutRows then FVout
    else if AnySpendableOutput(b) then FOpReturnOnly
    else if CoinbaseOnly(b) then FCoinbaseOnly
    else FNone
  }

  /** What one pass over the block stages; None when the block has no time and parsing raises. */
  function Staged(b: Block, height: int, hasPrevouts: bool): Option<Parsed> {
    if b.time.None? then None
    else
      var outs := BlockOutRows(b, |b.txs|);
      var ins := if hasPrevouts then BlockInRows(b, |b.txs|) else [];
      Some(Parsed(BlockTxRows(b, |b.txs|, hasPrevouts), outs, ins, BlockSpendRows(b, |b.txs|, height),
                  ClassifyBlockFeatures(outs != [], ins != [], b)))
  }

  method ParseBlock(b: Block, height: int, hasPrevouts: bool) returns (r: Option<Parsed>)
    ensures r == Staged(b, height, hasPrevouts)
  {
    if b.time.None? {
      return None;
    }
    var txRows: seq<TxRow>, outRows: seq<IoRow>, inRows: seq<IoRow>, spendRows: seq<SpendRow> := [], [], [], [];
    for i := 0 to |b.txs|
      invariant txRows == BlockTxRows(b, i, hasPrevouts)
      invariant outRows == BlockOutRows(b, i)
      invariant inRows == if hasPrevouts then BlockInRows(b, i) else []
      invariant spendRows == BlockSpendRows(b, i, height)
    {
      var tx := b.txs[i];
      if !KnownTx(tx) {
        continue;
      }
      var txid := tx.txid.value;

      var voutTotal := 0;
      for j := 0 to |tx.vouts|
        invariant outRows == BlockOutRows(b, i) + OutRows(tx, j)
        invariant voutTotal == OutTotal(tx, j)
      {
        var vout := tx.vouts[j];
        if vout.value.Absent? || IsOpReturn(vout.script) || vout.script.owner.None? {
          continue;
        }
        var satoshis := ToSats(vout.value);
        if satoshis.None? || satoshis.value <= 0 {
          continue;
        }
        voutTotal := voutTotal + satoshis.value;
        var owner := vout.script.owner.value;
        outRows := outRows + [IoRow(txid, owner.address, owner.kind, satoshis.value, Out, j)];
      }

      var vinTotal := 0;
      for j := 0 to |tx.vins|
        invariant spendRows == BlockSpendRows(b, i, height) + SpendRows(tx, j, height, b)
        invariant inRows == if hasPrevouts then BlockInRows(b, i) + InRows(tx, j) else []
        invariant hasPrevouts ==> vinTotal == InTotal(tx, j)
      {
        var vin := tx.vins[j];
        if !Spends(vin) {
          continue;
        }
        spendRows := spendRows + [SpendRow(vin.txid.value, vin.vout.value, txid, j, height, b.hash, b.time.value)];
        if hasPrevouts && vin.prevout.Some? {
          var prevout := vin.prevout.value;
          if prevout.script.owner.Some? && !prevout.value.Absent? {
            var sat := ToSats(prevout.value);
            if sat.Some? && sat.value > 0 {
              vinTotal := vinTotal + sat.value;
              var owner := prevout.script.owner.value;
              inRows := inRows + [IoRow(txid, owner.address, owner.kind, sat.value, In, j)];
            }
          }
        }
      }
      txRows := txRows + [TxRow(txid, b.hash, b.time.value, if hasPrevouts then vinTotal else 0, voutTotal)];
    }
    r := Some(Parsed(txRows, outRows, inRows, spendRows, ClassifyBlockFeatures(outRows != [], inRows != [], b)));
  }

  // ----- what the staged rows are, position by position -----

  ghost predicate OutAt(b: Block, i: int, j: int) {
    0 <= i < |b.txs| && KnownTx(b.txs[i]) && 0 <= j < |b.txs[i].vouts| && OutCoin(b.txs[i].vouts[j]).Some?
  }

  ghost predicate SpendAt(b: Block, i: int, j: int) {
    0 <= i < |b.txs| && KnownTx(b.txs[i]) && 0 <= j < |b.txs[i].vins| && Spends(b.txs[i].vins[j])
  }

  ghost predicate InAt(b: Block, i: int, j: int) {
    SpendAt(b, i, j) && InCoin(b.txs[i].vins[j]).Some?
  }

  lemma {:induction false} OutRowsAre(tx: Tx, n: nat, r: IoRow)
    requires KnownTx(tx) && n <= |tx.vouts|
    ensures r in OutRows(tx, n) <==> exists j :: 0 <= j < n && OutCoin(tx.vouts[j]).Some? && r == OutRow(tx, j)
  {
    if n > 0 {
      OutRowsAre(tx, n - 1, r);
    }
  }

  lemma {:induction false} InRowsAre(tx: Tx, n: nat, r: IoRow)
    requires KnownTx(tx) && n <= |tx.vins|
    ensures r in InRows(tx, n) <==>
            exists j :: 0 <= j < n && Spends(tx.vins[j]) && InCoin(tx.vins[j]).Some? && r == InRow(tx, j)
  {
    if n > 0 {
      InRowsAre(tx, n - 1, r);
    }
  }

  lemma {:induction false} SpendRowsAre(tx: Tx, n: nat, height: int, b: Block, r: SpendRow)
    requires KnownTx(tx) && n <= |tx.vins| && b.time.Some?
    ensures r in SpendRows(tx, n, height, b) <==>
            exists j :: 0 <= j < n && Spends(tx.vins[j]) && r == SpendOf(tx, j, height, b)
  {
    if n > 0 {
      SpendRowsAre(tx, n - 1, height, b, r);
    }
  }

  /** Out rows: exactly the addressed, positive, non-OP_RETURN outputs of known transactions. */
  lemma {:induction false} BlockOutRowsAre(b: Block, n: nat, r: IoRow)
    requires n <= |b.txs|
    ensures r in BlockOutRows(b, n) <==> exists i, j :: i < n && OutAt(b, i, j) && r == OutRow(b.txs[i], j)
  {
    if n > 0 {
      BlockOutRowsAre(b, n - 1, r);
      if KnownTx(b.txs[n - 1]) {
        var tx := b.txs[n - 1];
        OutRowsAre(tx, |tx.vouts|, r);
        if j :| 0 <= j < |tx.vouts| && OutCoin(tx.vouts[j]).Some? && r == OutRow(tx, j) {
          assert OutAt(b, n - 1, j);
        }
      }
    }
  }

  lemma {:induction false} BlockInRowsAre(b: Block, n: nat, r: IoRow)
    requires n <= |b.txs|
    ensures r in BlockInRows(b, n) <==> exists i, j :: i < n && InAt(b, i, j) && r == InRow(b.txs[i], j)
  {
    if n > 0 {
      BlockInRowsAre(b, n - 1, r);
      if KnownTx(b.txs[n - 1]) {
        var tx := b.txs[n - 1];
        InRowsAre(tx, |tx.vins|, r);
        if j :| 0 <= j < |tx.vins| && Spends(tx.vins[j]) && InCoin(tx.vins[j]).Some? && r == InRow(tx, j) {
          assert InAt(b, n - 1, j);
        }
      }
    }
  }

  lemma {:induction false} BlockSpendRowsAre(b: Block, n: nat, height: int, r: SpendRow)
    requires n <= |b.txs| && b.time.Some?
    ensures r in BlockSpendRows(b, n, height) <==>
            exists i, j :: i < n && SpendAt(b, i, j) && r == SpendOf(b.txs[i], j, height, b)
  {
    if n > 0 {
      BlockSpendRowsAre(b, n - 1, height, r);
      if KnownTx(b.txs[n - 1]) {
        var tx := b.txs[n - 1];
        SpendRowsAre(tx, |tx.vins|, height, b, r);
        if j :| 0 <= j < |tx.vins| && Spends(tx.vins[j]) && r == SpendOf(tx, j, height, b) {
          assert SpendAt(b, n - 1, j);
        }
      }
    }
  }

  lemma {:induction false} BlockTxRowsAre(b: Block, n: nat, hasPrevouts: bool, r: TxRow)
    requires n <= |b.txs| && b.time.Some?
    ensures r in BlockTxRows(b, n, hasPrevouts) <==>
            exists i :: 0 <= i < n && KnownTx(b.txs[i]) && r == TxRowOf(b.txs[i], b, hasPrevouts)
  {
    if n > 0 {
      BlockTxRowsAre(b, n - 1, hasPrevouts, r);
    }
  }

  /** Any input that earns an in row or a spend row is seen by the classifier. */
  lemma RowsShowPreviousTxid(b: Block, height: int)
    requires b.time.Some?
    ensures BlockInRows(b, |b.txs|) != [] || BlockSpendRows(b, |b.txs|, height) != [] ==> HasPreviousTxid(b)
  {
    var ins, spends := BlockInRows(b, |b.txs|), BlockSpendRows(b, |b.txs|, height);
    if ins != [] {
      BlockInRowsAre(b, |b.txs|, ins[0]);
      var i, j :| InAt(b, i, j) && ins[0] == InRow(b.txs[i], j);
      assert InAt(b, i, j) && SpendAt(b, i, j);
      assert b.txs[i].vins[j].txid.Some?;
    } else if spends != [] {
      BlockSpendRowsAre(b, |b.txs|, height, spends[0]);
      var i, j :| SpendAt(b, i, j) && spends[0] == SpendOf(b.txs[i], j, height, b);
      assert SpendAt(b, i, j);
      assert b.txs[i].vins[j].txid.Some?;
    }
  }

  /** Inline prevouts do not change how a block is classified, so both routes skip the same blocks. */
  lemma FeaturesIgnorePrevouts(b: Block, height: int)
    requires b.time.Some?
    ensures Staged(b, height, true).value.features == Staged(b, height, false).value.features
  {
    RowsShowPreviousTxid(b, height);
  }

  /** A skipped block has nothing to store but its bare transactions. */
  lemma SkippedBlocksAreEmpty(b: Block, height: int, hasPrevouts: bool)
    requires b.time.Some? && Staged(b, height, hasPrevouts).value.features == FNone
    ensures BlockOutRows(b, |b.txs|) == [] && BlockInRows(b, |b.txs|) == []
    ensures BlockSpendRows(b, |b.txs|, height) == []
  {
    RowsShowPreviousTxid(b, height);
  }
}
