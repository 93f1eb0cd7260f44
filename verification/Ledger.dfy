/**
 The three ledger tables and their conflict rules.  A table is a map from its unique key to the
 other columns; an INSERT walks the staged rows in order.
 */
module Ledger {
  import opened Common
  import opened Chain
  import opened Rows
  import opened Extract

  datatype IoKey = IoKey(txid: TxId, io: IoType, idx: int)
  datatype Outpoint = Outpoint(txid: TxId, vout: int)

  datatype TxEntry = TxEntry(blockHash: string, time: int, totalIn: int, totalOut: int)
  datatype IoEntry = IoEntry(address: Address, kind: string, amount: int)
  datatype SpendEntry = SpendEntry(spendingTxid: TxId, spendingVin: int, height: int, blockHash: string, time: int)

  type TxTable = map<TxId, TxEntry>
  type IoTable = map<IoKey, IoEntry>
  type SpendTable = map<Outpoint, SpendEntry>

  datatype Tables = Tables(txs: TxTable, io: IoTable, spends: SpendTable)

  const EMPTY := Tables(map[], map[], map[])

  function TxEntryOf(r: TxRow): TxEntry {
    TxEntry(r.blockHash, r.time, r.totalIn, r.totalOut)
  }

  function IoKeyOf(r: IoRow): IoKey {
    IoKey(r.txid, r.io, r.idx)
  }

  function IoEntryOf(r: IoRow): IoEntry {
    IoEntry(r.address, r.kind, r.amount)
  }

  function OutpointOf(r: SpendRow): Outpoint {
    Outpoint(r.prevTxid, r.prevVout)
  }

  function SpendEntryOf(r: SpendRow): SpendEntry {
    SpendEntry(r.spendingTxid, r.spendingVin, r.height, r.blockHash, r.time)
  }

  // ----- transactions: totals are refreshed, a computed total_in survives a later 0 -----

  function UpsertTx(t: TxTable, r: TxRow): TxTable {
    if r.txid !in t then t[r.txid := TxEntryOf(r)]
    else
      var e := t[r.txid];
      if e.totalOut != r.totalOut || (r.totalIn > 0 && e.totalIn != r.totalIn) then
        t[r.txid := e.(totalOut := r.totalOut, totalIn := if r.totalIn > 0 then r.totalIn else e.totalIn)]
      else t
  }

  function UpsertTxs(t: TxTable, rows: seq<TxRow>, n: nat): TxTable
    requires n <= |rows|
  {
    if n == 0 then t else UpsertTx(UpsertTxs(t, rows, n - 1), rows[n - 1])
  }

  /** The keys among the first n rows that are inserted or update a stored row. */
  function Written(t: TxTable, rows: seq<TxRow>, n: nat): set<TxId>
    requires n <= |rows|
  {
    if n == 0 then {}
    else Written(t, rows, n - 1) + if UpsertTxs(t, rows, n) != UpsertTxs(t, rows, n - 1) then {rows[n - 1].txid} else {}
  }

  /** One ON CONFLICT DO UPDATE statement may not come back to a row it wrote: the database raises. */
  predicate ComesBack(t: TxTable, rows: seq<TxRow>, n: nat)
    requires n <= |rows|
  {
    n > 0 && (ComesBack(t, rows, n - 1) || rows[n - 1].txid in Written(t, rows, n - 1))
  }

  function InsertTxRows(t: TxTable, rows: seq<TxRow>): Option<TxTable> {
    if ComesBack(t, rows, |rows|) then None else Some(UpsertTxs(t, rows, |rows|))
  }

  // ----- transaction_io: the first row for a key stays -----

  predicate ValidIoRow(r: IoRow) {
    ValidTxid(r.txid) && r.amount >= 0
  }

  function InsertIo(t: IoTable, rows: seq<IoRow>, n: nat): IoTable
    requires n <= |rows|
  {
    if n == 0 then t
    else
      var t' := InsertIo(t, rows, n - 1);
      var r := rows[n - 1];
      if ValidIoRow(r) && IoKeyOf(r) !in t' then t'[IoKeyOf(r) := IoEntryOf(r)] else t'
  }

  function InsertIoRows(t: IoTable, rows: seq<IoRow>): IoTable {
    InsertIo(t, rows, |rows|)
  }

  // ----- spends: the first edge for an outpoint stays; an input may spend only one outpoint -----

  /** The second unique key of the table has no conflict clause, so a clash on it raises. */
  predicate SpenderTaken(t: SpendTable, r: SpendRow) {
    exists k | k in t :: t[k].spendingTxid == r.spendingTxid && t[k].spendingVin == r.spendingVin
  }

  function InsertSpends(t: SpendTable, rows: seq<SpendRow>, n: nat): Option<SpendTable>
    requires n <= |rows|
  {
    if n == 0 then Some(t)
    else
      var before := InsertSpends(t, rows, n - 1);
      if before.None? then None
      else
        var t', r := before.value, rows[n - 1];
        if OutpointOf(r) in t' then before
        else if SpenderTaken(t', r) then None
        else Some(t'[OutpointOf(r) := SpendEntryOf(r)])
  }

  function InsertSpendRows(t: SpendTable, rows: seq<SpendRow>): Option<SpendTable> {
    InsertSpends(t, rows, |rows|)
  }

  // ----- update_total_in: fills in only what is still 0 -----

  function UpdateTotalIn(t: TxTable, totals: map<TxId, int>): TxTable {
    map k | k in t :: if k in totals && t[k].totalIn == 0 then t[k].(totalIn := totals[k]) else t[k]
  }

  // ----- one block, one transaction -----

  /** The write of the extract phase: all three tables change, or none. */
  function WriteParsed(db: Tables, p: Parsed): Option<Tables> {
    var txs := InsertTxRows(db.txs, p.txRows);
    var spends := InsertSpendRows(db.spends, p.spendRows);
    if txs.None? || spends.None? then None
    else Some(Tables(txs.value, InsertIoRows(db.io, p.outRows + p.inRows), spends.value))
  }

  /** Data effect of extracting a block; None when it raises, unchanged tables when it is skipped. */
  function ExtractBlock(db: Tables, b: Block, height: int, hasPrevouts: bool): Option<Tables> {
    var p := Staged(b, height, hasPrevouts);
    if p.None? then None
    else if p.value.features == FNone then Some(db)
    else WriteParsed(db, p.value)
  }

  class Store {
    var txs: TxTable
    var io: IoTable
    var spends: SpendTable

    function View(): Tables
      reads this
    {
      Tables(txs, io, spends)
    }

    constructor ()
      ensures View() == EMPTY
    {
      txs, io, spends := map[], map[], map[];
    }

    method InsertTxRows(rows: seq<TxRow>) returns (ok: bool)
      modifies this`txs
      ensures ok == !ComesBack(old(txs), rows, |rows|)
      ensures ok ==> txs == UpsertTxs(old(txs), rows, |rows|)
    {
      var written: set<TxId> := {};
      for n := 0 to |rows|
        invariant txs == UpsertTxs(old(txs), rows, n) && written == Written(old(txs), rows, n)
        invariant !ComesBack(old(txs), rows, n)
      {
        var r := rows[n];
        if r.txid in written {
          ComingBackStays(old(txs), rows, n + 1);
          return false;
        }
        if r.txid !in txs {
          written := written + {r.txid};
          txs := txs[r.txid := TxEntryOf(r)];
        } else {
          var e := txs[r.txid];
          if e.totalOut != r.totalOut || (r.totalIn > 0 && e.totalIn != r.totalIn) {
            written := written + {r.txid};
            var totalIn := if r.totalIn > 0 then r.totalIn else e.totalIn;
            txs := txs[r.txid := TxEntry(e.blockHash, e.time, totalIn, r.totalOut)];
          }
        }
      }
      ok := true;
    }

    method InsertTxioRows(rows: seq<IoRow>)
      modifies this`io
      ensures io == InsertIoRows(old(io), rows)
    {
      for n := 0 to |rows|
        invariant io == InsertIo(old(io), rows, n)
      {
        var r := rows[n];
        if !ValidIoRow(r) {
          continue;
        }
        if IoKeyOf(r) !in io {
          io := io[IoKeyOf(r) := IoEntryOf(r)];
        }
      }
    }

    method InsertSpendsRows(rows: seq<SpendRow>) returns (ok: bool)
      modifies this`spends
      ensures ok == InsertSpendRows(old(spends), rows).Some?
      ensures ok ==> spends == InsertSpendRows(old(spends), rows).value
    {
      for n := 0 to |rows|
        invariant InsertSpends(old(spends), rows, n) == Some(spends)
      {
        var r := rows[n];
        if OutpointOf(r) in spends {
          continue;
        }
        if SpenderTaken(spends, r) {
          FailureStays(old(spends), rows, n + 1);
          return false;
        }
        spends := spends[OutpointOf(r) := SpendEntryOf(r)];
      }
      ok := true;
    }

    /** Only a total_in of 0 is replaced, only by a total given for that txid, and nothing else changes. */
    method UpdateTotals(totals: map<TxId, int>)
      modifies this`txs
      ensures txs.Keys == old(txs.Keys)
      ensures forall k | k in txs :: txs[k] == old(txs)[k].(totalIn := txs[k].totalIn)
      ensures forall k | k in txs && k in totals && old(txs)[k].totalIn == 0 :: txs[k].totalIn == totals[k]
      ensures forall k | k in txs && (k !in totals || old(txs)[k].totalIn != 0) :: txs[k].totalIn == old(txs)[k].totalIn
      ensures txs == UpdateTotalIn(old(txs), totals)
    {
      var left := totals.Keys;
      while left != {}
        invariant left <= totals.Keys
        invariant txs == UpdateTotalIn(old(txs), map k | k in totals && k !in left :: totals[k])
      {
        var k :| k in left;
        if k in txs && txs[k].totalIn == 0 {
          txs := txs[k := txs[k].(totalIn := totals[k])];
        }
        left := left - {k};
      }
      assert (map k | k in totals && k !in left :: totals[k]) == totals;
    }

    /** Phase extract, data side; an error rolls the whole transaction back. */
    method Extract(b: Block, height: int, hasPrevouts: bool) returns (ok: bool)
      modifies this
      ensures ok == ExtractBlock(old(View()), b, height, hasPrevouts).Some?
      ensures View() == if ok then ExtractBlock(old(View()), b, height, hasPrevouts).value else old(View())
    {
      var parsed := ParseBlock(b, height, hasPrevouts);
      if parsed.None? {
        return false;
      }
      var p := parsed.value;
      if p.features == FNone {
        return true;
      }
      var txs0, io0, spends0 := txs, io, spends;
      ok := InsertTxRows(p.txRows);
      if ok {
        InsertTxioRows(p.outRows + p.inRows);
        ok := InsertSpendsRows(p.spendRows);
      }
      if !ok {
        txs, io, spends := txs0, io0, spends0;
      }
    }
  }

  lemma {:induction false} ComingBackStays(t: TxTable, rows: seq<TxRow>, n: nat)
    requires n <= |rows| && ComesBack(t, rows, n)
    ensures ComesBack(t, rows, |rows|)
    decreases |rows| - n
  {
    if n < |rows| {
      ComingBackStays(t, rows, n + 1);
    }
  }

  lemma {:induction false} FailureStays(t: SpendTable, rows: seq<SpendRow>, n: nat)
    requires n <= |rows| && InsertSpends(t, rows, n).None?
    ensures InsertSpendRows(t, rows).None?
    decreases |rows| - n
  {
    if n < |rows| {
      FailureStays(t, rows, n + 1);
    }
  }
}
