/**
 Phase backfill-vins: inputs without a usable inline prevout are resolved against the out rows
 that are already stored.
 */
module Backfill {
  import opened Common
  import opened Chain
  import opened Rows
  import opened Extract
  import opened Ledger

  /** An input whose spent output has to be looked up. */
  datatype Need = Need(prevTxid: TxId, prevVout: int, curTxid: TxId, vinIdx: int)

  function NeededKey(n: Need): IoKey {
    IoKey(n.prevTxid, Out, n.prevVout)
  }

  function ResolvedRow(e: IoEntry, n: Need): IoRow {
    IoRow(n.curTxid, e.address, e.kind, e.amount, In, n.vinIdx)
  }

  // ----- the walk over the block's inputs -----

  function Missing(tx: Tx, n: nat, hasPrevouts: bool): seq<Need>
    requires KnownTx(tx) && n <= |tx.vins|
  {
    if n == 0 then []
    else
      var v := tx.vins[n - 1];
      Missing(tx, n - 1, hasPrevouts) +
      if Spends(v) && !(hasPrevouts && InCoin(v).Some?)
      then [Need(v.txid.value, v.vout.value, tx.txid.value, n - 1)] else []
  }

  function BlockMissing(b: Block, n: nat, hasPrevouts: bool): seq<Need>
    requires n <= |b.txs|
  {
    if n == 0 then []
    else BlockMissing(b, n - 1, hasPrevouts) +
         if KnownTx(b.txs[n - 1]) then Missing(b.txs[n - 1], |b.txs[n - 1].vins|, hasPrevouts) else []
  }

  function InlineTotals(b: Block, n: nat, hasPrevouts: bool): map<TxId, int>
    requires n <= |b.txs|
  {
    if n == 0 then map[]
    else
      var m := InlineTotals(b, n - 1, hasPrevouts);
      var tx := b.txs[n - 1];
      if KnownTx(tx) then m[tx.txid.value := if hasPrevouts then InTotal(tx, |tx.vins|) else 0] else m
  }

  // ----- the join of the needed outpoints with the stored out rows -----

  function Resolved(io: IoTable, needs: seq<Need>, n: nat): seq<IoRow>
    requires n <= |needs|
  {
    if n == 0 then []
    else
      var k := NeededKey(needs[n - 1]);
      Resolved(io, needs, n - 1) + if k in io then [ResolvedRow(io[k], needs[n - 1])] else []
  }

  function AddResolved(totals: map<TxId, int>, io: IoTable, needs: seq<Need>, n: nat): map<TxId, int>
    requires n <= |needs|
  {
    if n == 0 then totals
    else
      var m := AddResolved(totals, io, needs, n - 1);
      var cur, k := needs[n - 1].curTxid, NeededKey(needs[n - 1]);
      if k in io then m[cur := (if cur in m then m[cur] else 0) + io[k].amount] else m
  }

  function FilledRows(io: IoTable, b: Block, hasPrevouts: bool): seq<IoRow> {
    var needs := BlockMissing(b, |b.txs|, hasPrevouts);
    (if hasPrevouts then BlockInRows(b, |b.txs|) else []) + Resolved(io, needs, |needs|)
  }

  function FilledTotals(io: IoTable, b: Block, hasPrevouts: bool): map<TxId, int> {
    var needs := BlockMissing(b, |b.txs|, hasPrevouts);
    AddResolved(InlineTotals(b, |b.txs|, hasPrevouts), io, needs, |needs|)
  }

  /** Data effect of backfilling one block; None when it raises. */
  function BackfillBlock(db: Tables, b: Block, height: int, hasPrevouts: bool): Option<Tables> {
    if b.time.None? then None
    else
      var spends := InsertSpendRows(db.spends, BlockSpendRows(b, |b.txs|, height));
      if spends.None? then None
      else Some(Tables(UpdateTotalIn(db.txs, FilledTotals(db.io, b, hasPrevouts)),
                       InsertIoRows(db.io, FilledRows(db.io, b, hasPrevouts)),
                       spends.value))
  }

  /** The walk over the block's inputs. */
  method WalkVins(b: Block, height: int, hasPrevouts: bool)
    returns (inRows: seq<IoRow>, totals: map<TxId, int>, missing: seq<Need>, spendRows: seq<SpendRow>)
    requires b.time.Some?
    ensures inRows == if hasPrevouts then BlockInRows(b, |b.txs|) else []
    ensures totals == InlineTotals(b, |b.txs|, hasPrevouts)
    ensures missing == BlockMissing(b, |b.txs|, hasPrevouts)
    ensures spendRows == BlockSpendRows(b, |b.txs|, height)
  {
    hide ValidTxid;
    inRows, totals, missing, spendRows := [], map[], [], [];
    for i := 0 to |b.txs|
      invariant inRows == if hasPrevouts then BlockInRows(b, i) else []
      invariant totals == InlineTotals(b, i, hasPrevouts)
      invariant missing == BlockMissing(b, i, hasPrevouts)
      invariant spendRows == BlockSpendRows(b, i, height)
    {
      var tx := b.txs[i];
      if !KnownTx(tx) {
        continue;
      }
      var txid, vinTotal := tx.txid.value, 0;
      for j := 0 to |tx.vins|
        invariant inRows == if hasPrevouts then BlockInRows(b, i) + InRows(tx, j) else []
        invariant vinTotal == if hasPrevouts then InTotal(tx, j) else 0
        invariant missing == BlockMissing(b, i, hasPrevouts) + Missing(tx, j, hasPrevouts)
        invariant spendRows == BlockSpendRows(b, i, height) + SpendRows(tx, j, height, b)
      {
        var vin := tx.vins[j];
        if !Spends(vin) {
          continue;
        }
        var prevTxid, prevVout := vin.txid.value, vin.vout.value;
        spendRows := spendRows + [SpendRow(prevTxid, prevVout, txid, j, height, b.hash, b.time.value)];
        if hasPrevouts && vin.prevout.Some? {
          var prevout := vin.prevout.value;
          if prevout.script.owner.Some? && !prevout.value.Absent? {
            var sat := ToSats(prevout.value);
            if sat.Some? && sat.value > 0 {
              vinTotal := vinTotal + sat.value;
              var owner := prevout.script.owner.value;
              inRows := inRows + [IoRow(txid, owner.address, owner.kind, sat.value, In, j)];
              continue;
            }
          }
        }
        missing := missing + [Need(prevTxid, prevVout, txid, j)];
      }
      totals := totals[txid := vinTotal];
    }
  }

  method BackfillVins(s: Store, b: Block, height: int, hasPrevouts: bool) returns (ok: bool)
    modifies s
    ensures ok == BackfillBlock(old(s.View()), b, height, hasPrevouts).Some?
    ensures s.View() == if ok then BackfillBlock(old(s.View()), b, height, hasPrevouts).value else old(s.View())
  {
    hide InsertIoRows, InsertSpendRows, UpdateTotalIn, BlockInRows, InlineTotals, BlockMissing, BlockSpendRows;
    if b.time.None? {
      return false;
    }
    var inRows, totals, missing, spendRows := WalkVins(b, height, hasPrevouts);

    ghost var inline, inlineTotals := inRows, totals;
    var stored := s.io;
    for n := 0 to |missing|
      invariant inRows == inline + Resolved(stored, missing, n)
      invariant totals == AddResolved(inlineTotals, stored, missing, n)
    {
      var need := missing[n];
      if NeededKey(need) in stored {
        var e := stored[NeededKey(need)];
        inRows := inRows + [IoRow(need.curTxid, e.address, e.kind, e.amount, In, need.vinIdx)];
        var sofar := if need.curTxid in totals then totals[need.curTxid] else 0;
        totals := totals[need.curTxid := sofar + e.amount];
      }
    }

    var txs0, io0, spends0 := s.txs, s.io, s.spends;
    s.InsertTxioRows(inRows);
    s.UpdateTotals(totals);
    ok := s.InsertSpendsRows(spendRows);
    if !ok {
      s.txs, s.io, s.spends := txs0, io0, spends0;
    }
  }

  // ----- what is filled in, input by input -----

  /** What an input contributes: its inline prevout, or else the stored out row it names. */
  function Contribution(io: IoTable, v: Vin, hasPrevouts: bool): Option<IoEntry>
    requires Spends(v)
  {
    if hasPrevouts && InCoin(v).Some? then
      var c := InCoin(v).value;
      Some(IoEntry(c.owner.address, c.owner.kind, c.sats))
    else
      var k := IoKey(v.txid.value, Out, v.vout.value);
      if k in io then Some(io[k]) else None
  }

  function RowFor(tx: Tx, j: int, e: IoEntry): IoRow
    requires KnownTx(tx)
  {
    IoRow(tx.txid.value, e.address, e.kind, e.amount, In, j)
  }

  ghost predicate Fills(io: IoTable, b: Block, hasPrevouts: bool, i: int, j: int, r: IoRow) {
    && SpendAt(b, i, j) && Contribution(io, b.txs[i].vins[j], hasPrevouts).Some?
    && r == RowFor(b.txs[i], j, Contribution(io, b.txs[i].vins[j], hasPrevouts).value)
  }

  function ContributionTotal(io: IoTable, tx: Tx, n: nat, hasPrevouts: bool): int
    requires n <= |tx.vins|
  {
    if n == 0 then 0
    else ContributionTotal(io, tx, n - 1, hasPrevouts) +
         if Spends(tx.vins[n - 1]) && Contribution(io, tx.vins[n - 1], hasPrevouts).Some?
         then Contribution(io, tx.vins[n - 1], hasPrevouts).value.amount else 0
  }

  function NeedOf(tx: Tx, j: int): Need
    requires KnownTx(tx) && 0 <= j < |tx.vins| && Spends(tx.vins[j])
  {
    Need(tx.vins[j].txid.value, tx.vins[j].vout.value, tx.txid.value, j)
  }

  ghost predicate NeedAt(b: Block, hasPrevouts: bool, i: int, j: int) {
    SpendAt(b, i, j) && !(hasPrevouts && InCoin(b.txs[i].vins[j]).Some?)
  }

  lemma {:induction false} MissingAre(tx: Tx, n: nat, hasPrevouts: bool, x: Need)
    requires KnownTx(tx) && n <= |tx.vins|
    ensures x in Missing(tx, n, hasPrevouts) <==>
            exists j ::
              0 <= j < n && Spends(tx.vins[j]) && !(hasPrevouts && InCoin(tx.vins[j]).Some?) && x == NeedOf(tx, j)
  {
    if n > 0 {
      MissingAre(tx, n - 1, hasPrevouts, x);
    }
  }

  lemma {:induction false} BlockMissingAre(b: Block, n: nat, hasPrevouts: bool, x: Need)
    requires n <= |b.txs|
    ensures x in BlockMissing(b, n, hasPrevouts) <==>
            exists i, j :: i < n && NeedAt(b, hasPrevouts, i, j) && x == NeedOf(b.txs[i], j)
  {
    if n > 0 {
      BlockMissingAre(b, n - 1, hasPrevouts, x);
      if KnownTx(b.txs[n - 1]) {
        var tx := b.txs[n - 1];
        MissingAre(tx, |tx.vins|, hasPrevouts, x);
        if j :| && 0 <= j < |tx.vins| && Spends(tx.vins[j]) && !(hasPrevouts && InCoin(tx.vins[j]).Some?)
                && x == NeedOf(tx, j) {
          assert NeedAt(b, hasPrevouts, n - 1, j);
        }
      }
    }
  }

  lemma {:induction false} ResolvedAre(io: IoTable, needs: seq<Need>, n: nat, r: IoRow)
    requires n <= |needs|
    ensures r in Resolved(io, needs, n) <==>
            exists m :: 0 <= m < n && NeededKey(needs[m]) in io && r == ResolvedRow(io[NeededKey(needs[m])], needs[m])
  {
    if n > 0 {
      ResolvedAre(io, needs, n - 1, r);
    }
  }

  /** Every spending input contributes its one row, wherever the row was found. */
  lemma FilledRowsAre(io: IoTable, b: Block, hasPrevouts: bool, r: IoRow)
    ensures r in FilledRows(io, b, hasPrevouts) <==> exists i, j :: Fills(io, b, hasPrevouts, i, j, r)
  {
    var needs := BlockMissing(b, |b.txs|, hasPrevouts);
    BlockInRowsAre(b, |b.txs|, r);
    ResolvedAre(io, needs, |needs|, r);
    if r in FilledRows(io, b, hasPrevouts) {
      if hasPrevouts && r in BlockInRows(b, |b.txs|) {
        var i, j :| i < |b.txs| && InAt(b, i, j) && r == InRow(b.txs[i], j);
        assert InAt(b, i, j);
        assert Fills(io, b, hasPrevouts, i, j, r);
      } else {
        var m :| 0 <= m < |needs| && NeededKey(needs[m]) in io && r == ResolvedRow(io[NeededKey(needs[m])], needs[m]);
        BlockMissingAre(b, |b.txs|, hasPrevouts, needs[m]);
        var i, j :| i < |b.txs| && NeedAt(b, hasPrevouts, i, j) && needs[m] == NeedOf(b.txs[i], j);
        assert NeedAt(b, hasPrevouts, i, j);
        assert Fills(io, b, hasPrevouts, i, j, r);
      }
    }
    if i, j :| Fills(io, b, hasPrevouts, i, j, r) {
      assert Fills(io, b, hasPrevouts, i, j, r);
      var v := b.txs[i].vins[j];
      if hasPrevouts && InCoin(v).Some? {
        assert InAt(b, i, j) && r == InRow(b.txs[i], j);
      } else {
        assert NeedAt(b, hasPrevouts, i, j);
        BlockMissingAre(b, |b.txs|, hasPrevouts, NeedOf(b.txs[i], j));
        var m :| 0 <= m < |needs| && needs[m] == NeedOf(b.txs[i], j);
        assert r == ResolvedRow(io[NeededKey(needs[m])], needs[m]);
      }
    }
  }

  // ----- the dictionary of input totals -----

  /** What the lookups add to one transaction. */
  function ResolvedSum(io: IoTable, needs: seq<Need>, n: nat, txid: TxId): int
    requires n <= |needs|
  {
    if n == 0 then 0
    else ResolvedSum(io, needs, n - 1, txid) +
         if needs[n - 1].curTxid == txid && NeededKey(needs[n - 1]) in io then io[NeededKey(needs[n - 1])].amount else 0
  }

  lemma {:induction false} ResolvedSumConcat(io: IoTable, a: seq<Need>, b: seq<Need>, n: nat, txid: TxId)
    requires n <= |b|
    ensures ResolvedSum(io, a + b, |a| + n, txid) == ResolvedSum(io, a, |a|, txid) + ResolvedSum(io, b, n, txid)
  {
    if n == 0 {
      ResolvedSumPrefix(io, a, b, |a|, txid);
    } else {
      ResolvedSumConcat(io, a, b, n - 1, txid);
    }
  }

  lemma {:induction false} ResolvedSumPrefix(io: IoTable, a: seq<Need>, b: seq<Need>, n: nat, txid: TxId)
    requires n <= |a|
    ensures ResolvedSum(io, a + b, n, txid) == ResolvedSum(io, a, n, txid)
  {
    if n > 0 {
      ResolvedSumPrefix(io, a, b, n - 1, txid);
    }
  }

  lemma {:induction false} AddResolvedIs(totals: map<TxId, int>, io: IoTable, needs: seq<Need>, n: nat, txid: TxId)
    requires n <= |needs| && txid in totals
    ensures var m := AddResolved(totals, io, needs, n);
            txid in m && m[txid] == totals[txid] + ResolvedSum(io, needs, n, txid)
  {
    if n > 0 {
      AddResolvedIs(totals, io, needs, n - 1, txid);
    }
  }

  /** Transactions of a block have different txids, as far as they are valid. */
  ghost predicate BlockTxidsDiffer(b: Block) {
    forall i, i' | 0 <= i < |b.txs| && 0 <= i' < |b.txs| && KnownTx(b.txs[i]) && KnownTx(b.txs[i']) ::
      b.txs[i].txid == b.txs[i'].txid ==> i == i'
  }

  lemma {:induction false} MissingElsewhere(io: IoTable, tx: Tx, n: nat, hasPrevouts: bool, txid: TxId)
    requires KnownTx(tx) && n <= |tx.vins| && tx.txid.value != txid
    ensures var needs := Missing(tx, n, hasPrevouts); ResolvedSum(io, needs, |needs|, txid) == 0
  {
    if n > 0 {
      MissingElsewhere(io, tx, n - 1, hasPrevouts, txid);
      var head, needs := Missing(tx, n - 1, hasPrevouts), Missing(tx, n, hasPrevouts);
      if needs != head {
        ResolvedSumConcat(io, head, needs[|head|..], 1, txid);
        assert needs == head + needs[|head|..];
      }
    }
  }

  lemma {:induction false} MissingHere(io: IoTable, tx: Tx, n: nat, hasPrevouts: bool)
    requires KnownTx(tx) && n <= |tx.vins|
    ensures var needs := Missing(tx, n, hasPrevouts);
            (if hasPrevouts then InTotal(tx, n) else 0) + ResolvedSum(io, needs, |needs|, tx.txid.value)
            == ContributionTotal(io, tx, n, hasPrevouts)
  {
    if n > 0 {
      MissingHere(io, tx, n - 1, hasPrevouts);
      var head, needs := Missing(tx, n - 1, hasPrevouts), Missing(tx, n, hasPrevouts);
      if needs != head {
        ResolvedSumConcat(io, head, needs[|head|..], 1, tx.txid.value);
        assert needs == head + needs[|head|..];
      }
    }
  }

  lemma {:induction false} BlockResolvedSum(io: IoTable, b: Block, n: nat, hasPrevouts: bool, i: nat)
    requires n <= |b.txs| && i < |b.txs| && KnownTx(b.txs[i]) && BlockTxidsDiffer(b)
    ensures var needs, own := BlockMissing(b, n, hasPrevouts), Missing(b.txs[i], |b.txs[i].vins|, hasPrevouts);
            ResolvedSum(io, needs, |needs|, b.txs[i].txid.value)
            == if i < n then ResolvedSum(io, own, |own|, b.txs[i].txid.value) else 0
  {
    if n > 0 {
      BlockResolvedSum(io, b, n - 1, hasPrevouts, i);
      var tx := b.txs[n - 1];
      if KnownTx(tx) {
        var head, tail := BlockMissing(b, n - 1, hasPrevouts), Missing(tx, |tx.vins|, hasPrevouts);
        ResolvedSumConcat(io, head, tail, |tail|, b.txs[i].txid.value);
        if n - 1 != i {
          MissingElsewhere(io, tx, |tx.vins|, hasPrevouts, b.txs[i].txid.value);
        }
      } else {
        assert BlockMissing(b, n, hasPrevouts) == BlockMissing(b, n - 1, hasPrevouts);
      }
    }
  }

  lemma {:induction false} InlineTotalsAre(b: Block, n: nat, hasPrevouts: bool, i: nat)
    requires n <= |b.txs| && i < n && KnownTx(b.txs[i]) && BlockTxidsDiffer(b)
    ensures var m, tx := InlineTotals(b, n, hasPrevouts), b.txs[i];
            tx.txid.value in m && m[tx.txid.value] == if hasPrevouts then InTotal(tx, |tx.vins|) else 0
  {
    if i < n - 1 {
      InlineTotalsAre(b, n - 1, hasPrevouts, i);
    }
  }

  /** A transaction's total is the sum of its inputs' contributions. */
  lemma FilledTotalsAre(io: IoTable, b: Block, hasPrevouts: bool, i: nat)
    requires i < |b.txs| && KnownTx(b.txs[i]) && BlockTxidsDiffer(b)
    ensures var m, tx := FilledTotals(io, b, hasPrevouts), b.txs[i];
            tx.txid.value in m && m[tx.txid.value] == ContributionTotal(io, tx, |tx.vins|, hasPrevouts)
  {
    var needs, tx := BlockMissing(b, |b.txs|, hasPrevouts), b.txs[i];
    InlineTotalsAre(b, |b.txs|, hasPrevouts, i);
    AddResolvedIs(InlineTotals(b, |b.txs|, hasPrevouts), io, needs, |needs|, tx.txid.value);
    BlockResolvedSum(io, b, |b.txs|, hasPrevouts, i);
    MissingHere(io, tx, |tx.vins|, hasPrevouts);
  }

  /** Only the block's own transactions get a total. */
  lemma {:induction false} InlineTotalsKeys(b: Block, n: nat, hasPrevouts: bool, k: TxId)
    requires n <= |b.txs|
    ensures k in InlineTotals(b, n, hasPrevouts) <==>
            exists i :: 0 <= i < n && KnownTx(b.txs[i]) && b.txs[i].txid.value == k
  {
    if n > 0 {
      InlineTotalsKeys(b, n - 1, hasPrevouts, k);
    }
  }

  lemma {:induction false} AddResolvedKeys(totals: map<TxId, int>, io: IoTable, needs: seq<Need>, n: nat, k: TxId)
    requires n <= |needs|
    requires forall m :: 0 <= m < |needs| ==> needs[m].curTxid in totals
    ensures k in AddResolved(totals, io, needs, n) <==> k in totals
  {
    if n > 0 {
      AddResolvedKeys(totals, io, needs, n - 1, k);
    }
  }

  lemma FilledTotalsKeys(io: IoTable, b: Block, hasPrevouts: bool, k: TxId)
    ensures k in FilledTotals(io, b, hasPrevouts) <==>
            exists i :: 0 <= i < |b.txs| && KnownTx(b.txs[i]) && b.txs[i].txid.value == k
  {
    var needs, totals := BlockMissing(b, |b.txs|, hasPrevouts), InlineTotals(b, |b.txs|, hasPrevouts);
    InlineTotalsKeys(b, |b.txs|, hasPrevouts, k);
    forall m | 0 <= m < |needs|
      ensures needs[m].curTxid in totals
    {
      BlockMissingAre(b, |b.txs|, hasPrevouts, needs[m]);
      var i, j :| i < |b.txs| && NeedAt(b, hasPrevouts, i, j) && needs[m] == NeedOf(b.txs[i], j);
      assert NeedAt(b, hasPrevouts, i, j);
      InlineTotalsKeys(b, |b.txs|, hasPrevouts, needs[m].curTxid);
    }
    AddResolvedKeys(totals, io, needs, |needs|, k);
  }
}
