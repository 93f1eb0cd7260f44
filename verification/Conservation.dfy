/**
 Money is conserved across the tables: the balances of all addresses add up to what transactions
 paid out minus what they took in.
 */
module Conservation {
  import opened Common
  import opened Sums
  import opened Chain
  import opened Rows
  import opened Extract
  import opened Ledger
  import opened Confluence
  import opened History
  import opened Watch
  import opened FullLedger

  ghost function OutAmounts(db: Tables): map<IoKey, int> {
    map k | k in db.io && k.io == Out :: db.io[k].amount
  }

  ghost function InAmounts(db: Tables): map<IoKey, int> {
    map k | k in db.io && k.io == In :: db.io[k].amount
  }

  ghost function SpentAmounts(db: Tables): map<IoKey, int> {
    map k | k in db.io && k.io == Out && Prev(k) in db.spends :: db.io[k].amount
  }

  ghost function UnspentAmounts(db: Tables): map<IoKey, int> {
    map k | k in db.io && k.io == Out && Prev(k) !in db.spends :: db.io[k].amount
  }

  ghost function TxidOf(ks: set<IoKey>): map<IoKey, TxId> {
    map k | k in ks :: k.txid
  }

  ghost function TotalsOut(db: Tables): map<TxId, int> {
    map t | t in db.txs :: db.txs[t].totalOut
  }

  ghost function TotalsIn(db: Tables): map<TxId, int> {
    map t | t in db.txs :: db.txs[t].totalIn
  }

  ghost function Balances(db: Tables): map<Address, int> {
    map a | a in BuildBalances(db) :: BuildBalances(db)[a].balance
  }

  /** In any tables: what an address received is what it holds plus what it spent. */
  lemma ReceivedIsBalancePlusSpent(db: Tables, a: Address)
    ensures BalanceOf(db, a).received == BalanceOf(db, a).balance + BalanceOf(db, a).spent
  {
    TotalUnion(Amounts(db, Outs(db, a)), Amounts(db, UnspentOuts(db, a)), Amounts(db, SpentOuts(db, a)));
  }

  ghost function UnspentOwners(db: Tables): map<IoKey, Address> {
    map k | k in UnspentAmounts(db) :: db.io[k].address
  }

  lemma UnspentOf(db: Tables, a: Address)
    ensures Slice(UnspentAmounts(db), UnspentOwners(db), a) == Amounts(db, UnspentOuts(db, a))
  {
  }

  lemma OwnersHaveOuts(db: Tables)
    ensures forall k | k in UnspentAmounts(db) :: k in UnspentOwners(db) && UnspentOwners(db)[k] in OutAddresses(db)
    ensures Balances(db).Keys == OutAddresses(db)
    ensures forall a | a in OutAddresses(db) :: Balances(db)[a] == Total(Amounts(db, UnspentOuts(db, a)))
  {
    hide Total;
  }

  /** In any tables: the balances of all addresses add up to all unspent out rows. */
  lemma BalancesAreUnspent(db: Tables)
    ensures Total(Balances(db)) == Total(UnspentAmounts(db))
  {
    hide Total, Slice, UnspentAmounts, UnspentOwners, Balances, OutAddresses, Amounts, UnspentOuts;
    var m, key, owners := UnspentAmounts(db), UnspentOwners(db), OutAddresses(db);
    OwnersHaveOuts(db);
    TotalByKeys(m, key, owners);
    forall a | a in owners
      ensures Total(Slice(m, key, a)) == Balances(db)[a]
    {
      UnspentOf(db, a);
    }
    assert Balances(db) == GroupTotals(m, key, owners);
  }

  // ----- per transaction -----

  ghost function OutMap(tx: Tx, n: nat): map<IoKey, int>
    requires KnownTx(tx) && n <= |tx.vouts|
  {
    map j | 0 <= j < n && OutCoin(tx.vouts[j]).Some? :: IoKey(tx.txid.value, Out, j) := OutCoin(tx.vouts[j]).value.sats
  }

  ghost function InMap(tx: Tx, n: nat): map<IoKey, int>
    requires KnownTx(tx) && n <= |tx.vins|
  {
    map j | 0 <= j < n && Spends(tx.vins[j]) && InCoin(tx.vins[j]).Some? ::
      IoKey(tx.txid.value, In, j) := InCoin(tx.vins[j]).value.sats
  }

  lemma TotalInsert<K(!new)>(m: map<K, int>, k: K, x: int)
    requires k !in m
    ensures Total(m[k := x]) == Total(m) + x
  {
    TotalRemove(m[k := x], k);
    assert m[k := x] - {k} == m;
  }

  lemma OutMapStep(tx: Tx, n: nat)
    requires KnownTx(tx) && n < |tx.vouts|
    ensures var k, c := IoKey(tx.txid.value, Out, n), OutCoin(tx.vouts[n]);
            && k !in OutMap(tx, n)
            && OutMap(tx, n + 1) == if c.Some? then OutMap(tx, n)[k := c.value.sats] else OutMap(tx, n)
  {
    hide OutCoin, ValidTxid;
    var k, c := IoKey(tx.txid.value, Out, n), OutCoin(tx.vouts[n]);
    var m := if c.Some? then OutMap(tx, n)[k := c.value.sats] else OutMap(tx, n);
    assert forall x | x in m && x != k :: x in OutMap(tx, n + 1);
    assert OutMap(tx, n + 1) == m;
  }

  lemma InMapStep(tx: Tx, n: nat)
    requires KnownTx(tx) && n < |tx.vins|
    ensures var k, v := IoKey(tx.txid.value, In, n), tx.vins[n];
            && k !in InMap(tx, n)
            && InMap(tx, n + 1)
               == if Spends(v) && InCoin(v).Some? then InMap(tx, n)[k := InCoin(v).value.sats] else InMap(tx, n)
  {
    hide InCoin, Spends, ValidTxid;
    var k, v := IoKey(tx.txid.value, In, n), tx.vins[n];
    var m := if Spends(v) && InCoin(v).Some? then InMap(tx, n)[k := InCoin(v).value.sats] else InMap(tx, n);
    assert forall x | x in m && x != k :: x in InMap(tx, n + 1);
    assert InMap(tx, n + 1) == m;
  }

  lemma {:induction false} OutMapTotal(tx: Tx, n: nat)
    requires KnownTx(tx) && n <= |tx.vouts|
    ensures Total(OutMap(tx, n)) == OutTotal(tx, n)
  {
    if n == 0 {
      assert OutMap(tx, 0) == map[];
    } else {
      hide OutMap, OutCoin, Total, KnownTx;
      OutMapTotal(tx, n - 1);
      OutMapStep(tx, n - 1);
      if OutCoin(tx.vouts[n - 1]).Some? {
        TotalInsert(OutMap(tx, n - 1), IoKey(tx.txid.value, Out, n - 1), OutCoin(tx.vouts[n - 1]).value.sats);
      }
    }
  }

  lemma {:induction false} InMapTotal(tx: Tx, n: nat)
    requires KnownTx(tx) && n <= |tx.vins|
    ensures Total(InMap(tx, n)) == InTotal(tx, n)
  {
    if n == 0 {
      assert InMap(tx, 0) == map[];
    } else {
      hide InMap, InCoin, Spends, Total, KnownTx;
      InMapTotal(tx, n - 1);
      InMapStep(tx, n - 1);
      if Spends(tx.vins[n - 1]) && InCoin(tx.vins[n - 1]).Some? {
        TotalInsert(InMap(tx, n - 1), IoKey(tx.txid.value, In, n - 1), InCoin(tx.vins[n - 1]).value.sats);
      }
    }
  }

  ghost function OutsOfTx(db: Tables, t: TxId): map<IoKey, int> {
    Slice(OutAmounts(db), TxidOf(OutAmounts(db).Keys), t)
  }

  ghost function InsOfTx(db: Tables, t: TxId): map<IoKey, int> {
    Slice(InAmounts(db), TxidOf(InAmounts(db).Keys), t)
  }

  lemma OutRowIsOutput(chain: seq<Block>, h: int, i: int, k: IoKey)
    requires WellFormed(chain) && TxAt(chain, h, i) && k in OutsOfTx(FullTables(chain), chain[h].txs[i].txid.value)
    ensures var m := OutMap(chain[h].txs[i], |chain[h].txs[i].vouts|);
            k in m && m[k] == OutsOfTx(FullTables(chain), chain[h].txs[i].txid.value)[k]
  {
    hide FullIo, FullTxs, FullSpends;
    var h', i' := StoredOutPosition(chain, k);
    assert chain[h'].txs[i'].txid == chain[h].txs[i].txid;
  }

  lemma InRowIsInput(chain: seq<Block>, h: int, i: int, k: IoKey)
    requires WellFormed(chain) && TxAt(chain, h, i) && k in InsOfTx(FullTables(chain), chain[h].txs[i].txid.value)
    ensures var m := InMap(chain[h].txs[i], |chain[h].txs[i].vins|);
            k in m && m[k] == InsOfTx(FullTables(chain), chain[h].txs[i].txid.value)[k]
  {
    hide FullIo, FullTxs, FullSpends;
    var h', i' := StoredInPosition(chain, k);
    assert TxAt(chain, h', i') && chain[h'].txs[i'].txid == chain[h].txs[i].txid;
  }

  /** The stored out rows of a transaction are its addressed outputs. */
  lemma OutRowsOfTx(chain: seq<Block>, h: int, i: int)
    requires WellFormed(chain) && TxAt(chain, h, i)
    ensures var tx := chain[h].txs[i]; OutsOfTx(FullTables(chain), tx.txid.value) == OutMap(tx, |tx.vouts|)
  {
    hide FullIo, FullTxs, FullSpends, WellFormed, DistinctTxids;
    var tx := chain[h].txs[i];
    var outs, m := OutsOfTx(FullTables(chain), tx.txid.value), OutMap(tx, |tx.vouts|);
    forall k | k in outs
      ensures k in m && m[k] == outs[k]
    {
      OutRowIsOutput(chain, h, i, k);
    }
    forall k | k in m
      ensures k in outs
    {
      assert OutAt(chain[h], i, k.idx);
      OutStored(chain, h, i, k.idx);
    }
  }

  /** The stored in rows of a transaction are its addressed inputs. */
  lemma InRowsOfTx(chain: seq<Block>, h: int, i: int)
    requires WellFormed(chain) && TxAt(chain, h, i)
    ensures var tx := chain[h].txs[i]; InsOfTx(FullTables(chain), tx.txid.value) == InMap(tx, |tx.vins|)
  {
    hide FullIo, FullTxs, FullSpends, WellFormed, DistinctTxids;
    var tx := chain[h].txs[i];
    var ins, m := InsOfTx(FullTables(chain), tx.txid.value), InMap(tx, |tx.vins|);
    forall k | k in ins
      ensures k in m && m[k] == ins[k]
    {
      InRowIsInput(chain, h, i, k);
    }
    forall k | k in m
      ensures k in ins
    {
      assert InAt(chain[h], i, k.idx);
      InStored(chain, h, i, k.idx);
    }
  }

  lemma OutStored(chain: seq<Block>, h: int, i: int, j: int)
    requires WellFormed(chain) && 0 <= h < |chain| && OutAt(chain[h], i, j)
    ensures IoKeyOf(OutRow(chain[h].txs[i], j)) in FullIo(chain)
    ensures FullIo(chain)[IoKeyOf(OutRow(chain[h].txs[i], j))] == IoEntryOf(OutRow(chain[h].txs[i], j))
  {
    var r := OutRow(chain[h].txs[i], j);
    BlockOutRowsAre(chain[h], |chain[h].txs|, r);
    assert IoRowOf(chain, h, r);
    FullIoHas(chain, h, r);
  }

  lemma InStored(chain: seq<Block>, h: int, i: int, j: int)
    requires WellFormed(chain) && 0 <= h < |chain| && InAt(chain[h], i, j)
    ensures IoKeyOf(InRow(chain[h].txs[i], j)) in FullIo(chain)
    ensures FullIo(chain)[IoKeyOf(InRow(chain[h].txs[i], j))] == IoEntryOf(InRow(chain[h].txs[i], j))
  {
    var r := InRow(chain[h].txs[i], j);
    BlockInRowsAre(chain[h], |chain[h].txs|, r);
    assert IoRowOf(chain, h, r);
    FullIoHas(chain, h, r);
  }

  /** total_out and total_in of every stored transaction are the sums of its stored rows. */
  lemma TotalsAreRowSums(chain: seq<Block>, t: TxId)
    requires WellFormed(chain) && t in FullTxs(chain)
    ensures var db := FullTables(chain);
            && db.txs[t].totalOut == Total(OutsOfTx(db, t))
            && db.txs[t].totalIn == Total(InsOfTx(db, t))
  {
    var h, i := StoredTxPosition(chain, t);
    var tx := chain[h].txs[i];
    OutRowsOfTx(chain, h, i);
    InRowsOfTx(chain, h, i);
    OutMapTotal(tx, |tx.vouts|);
    InMapTotal(tx, |tx.vins|);
  }

  lemma RowsHaveTxs(chain: seq<Block>)
    requires WellFormed(chain)
    ensures forall k | k in FullIo(chain) :: k.txid in FullTxs(chain)
  {
    hide FullIo, FullTxs, FullSpends;
    forall k | k in FullIo(chain)
      ensures k.txid in FullTxs(chain)
    {
      if k.io == Out {
        var h := OutRowAligned(chain, k);
      } else {
        var h, i := StoredInPosition(chain, k);
        assert chain[h].txs[i].vins[k.idx].txid.Some?;
        TxStored(chain, h, i);
      }
    }
  }

  lemma TotalsOverTxs(chain: seq<Block>)
    requires WellFormed(chain)
    ensures var db := FullTables(chain);
            Total(TotalsOut(db)) == Total(OutAmounts(db)) && Total(TotalsIn(db)) == Total(InAmounts(db))
  {
    hide FullIo, FullTxs, FullSpends, Total;
    var db := FullTables(chain);
    var outs, ins := OutAmounts(db), InAmounts(db);
    RowsHaveTxs(chain);
    forall t | t in db.txs
      ensures db.txs[t].totalOut == Total(Slice(outs, TxidOf(outs.Keys), t))
      ensures db.txs[t].totalIn == Total(Slice(ins, TxidOf(ins.Keys), t))
    {
      TotalsAreRowSums(chain, t);
    }
    TotalByKeys(outs, TxidOf(outs.Keys), db.txs.Keys);
    TotalByKeys(ins, TxidOf(ins.Keys), db.txs.Keys);
    assert TotalsOut(db) == GroupTotals(outs, TxidOf(outs.Keys), db.txs.Keys);
    assert TotalsIn(db) == GroupTotals(ins, TxidOf(ins.Keys), db.txs.Keys);
  }

  // ----- in rows match spent out rows one to one -----

  /** The out row that an input row consumes. */
  ghost predicate Consumes(chain: seq<Block>, k: IoKey, o: IoKey) {
    exists h, i ::
      InputAt(chain, h, i, k.idx) && chain[h].txs[i].txid == Some(k.txid) && o == PrevKey(chain[h].txs[i].vins[k.idx])
  }

  lemma InRowConsumes(chain: seq<Block>, k: IoKey) returns (o: IoKey)
    requires WellFormed(chain) && k in FullIo(chain) && k.io == In
    ensures Consumes(chain, k, o) && o in SpentAmounts(FullTables(chain))
    ensures FullIo(chain)[o].amount == FullIo(chain)[k].amount && FullIo(chain)[o].address == FullIo(chain)[k].address
    ensures FullSpends(chain)[Prev(o)].spendingTxid == k.txid
  {
    hide FullIo, FullTxs, FullSpends;
    var h, i := StoredInPosition(chain, k);
    var r := SpendOf(chain[h].txs[i], k.idx, h, chain[h]);
    o := PrevKey(chain[h].txs[i].vins[k.idx]);
    PrevRowIsPrevout(chain, h, i, k.idx);
    assert SpendAt(chain[h], i, k.idx);
    BlockSpendRowsAre(chain[h], |chain[h].txs|, h, r);
    FullSpendsHas(chain, h, r);
    assert Prev(o) == OutpointOf(r);
  }

  lemma SpentRowIsConsumed(chain: seq<Block>, o: IoKey) returns (k: IoKey)
    requires WellFormed(chain) && o in SpentAmounts(FullTables(chain))
    ensures k in FullIo(chain) && k.io == In && Consumes(chain, k, o)
  {
    hide FullIo, FullTxs, FullSpends;
    var h, i, j := StoredSpendPosition(chain, Prev(o));
    PrevRowIsPrevout(chain, h, i, j);
    assert InAt(chain[h], i, j);
    InStored(chain, h, i, j);
    k := IoKeyOf(InRow(chain[h].txs[i], j));
    assert InputAt(chain, h, i, k.idx);
  }

  lemma ConsumesOneToOne(chain: seq<Block>, k: IoKey, k': IoKey, o: IoKey, o': IoKey)
    requires WellFormed(chain) && Consumes(chain, k, o) && Consumes(chain, k', o') && k.io == k'.io
    ensures k == k' <==> o == o'
  {
    var h, i :|
        InputAt(chain, h, i, k.idx) && chain[h].txs[i].txid == Some(k.txid)
        && o == PrevKey(chain[h].txs[i].vins[k.idx]);
    var h', i' :|
        InputAt(chain, h', i', k'.idx) && chain[h'].txs[i'].txid == Some(k'.txid)
        && o' == PrevKey(chain[h'].txs[i'].vins[k'.idx]);
    assert InputAt(chain, h, i, k.idx) && InputAt(chain, h', i', k'.idx);
    if o == o' {
      assert chain[h].txs[i].vins[k.idx].txid == chain[h'].txs[i'].vins[k'.idx].txid;
      assert chain[h].txs[i].vins[k.idx].vout == chain[h'].txs[i'].vins[k'.idx].vout;
    }
    if k == k' {
      assert TxAt(chain, h, i) && TxAt(chain, h', i');
    }
  }

  ghost predicate ConsumesSpent(chain: seq<Block>, k: IoKey, o: IoKey) {
    && Consumes(chain, k, o) && k in FullIo(chain) && o in SpentAmounts(FullTables(chain))
    && FullIo(chain)[o].amount == FullIo(chain)[k].amount && FullIo(chain)[o].address == FullIo(chain)[k].address
    && FullSpends(chain)[Prev(o)].spendingTxid == k.txid
  }

  ghost function ConsumedBy(chain: seq<Block>, k: IoKey): (o: IoKey)
    requires WellFormed(chain) && k in FullIo(chain) && k.io == In
    ensures ConsumesSpent(chain, k, o)
  {
    assert exists o :: ConsumesSpent(chain, k, o) by {
      var o := InRowConsumes(chain, k);
      assert ConsumesSpent(chain, k, o);
    }
    var o :| ConsumesSpent(chain, k, o);
    o
  }

  /** `f` takes each input row to the spent out row it consumes, one to one and onto, amounts equal. */
  ghost predicate Matching(chain: seq<Block>, ins: map<IoKey, int>, spent: map<IoKey, int>, f: map<IoKey, IoKey>) {
    && f.Keys == ins.Keys
    && (forall k | k in ins :: Consumes(chain, k, f[k]) && f[k] in spent && spent[f[k]] == ins[k])
    && (forall k, k' | k in ins && k' in ins && f[k] == f[k'] :: k == k')
    && (forall o | o in spent :: exists k :: k in ins && f[k] == o)
  }

  /** Addressed inputs and spent addressed outputs match one to one, so they carry the same money. */
  lemma {:induction false} InputsAreSpentOutputs(chain: seq<Block>)
    requires WellFormed(chain)
    ensures exists f :: Matching(chain, InAmounts(FullTables(chain)), SpentAmounts(FullTables(chain)), f)
    ensures Total(InAmounts(FullTables(chain))) == Total(SpentAmounts(FullTables(chain)))
  {
    hide WellFormed, FullIo, FullTxs, FullSpends, Consumes, Total;
    var db := FullTables(chain);
    var ins, spent := InAmounts(db), SpentAmounts(db);
    var f := map k | k in ins :: ConsumedBy(chain, k);
    forall k, k' | k in ins && k' in ins && f[k] == f[k']
      ensures k == k'
    {
      ConsumesOneToOne(chain, k, k', f[k], f[k']);
    }
    forall o | o in spent
      ensures exists k :: k in ins && f[k] == o
    {
      var k := SpentRowIsConsumed(chain, o);
      ConsumesOneToOne(chain, k, k, f[k], o);
      assert k in ins;
    }
    assert Matching(chain, ins, spent, f);
    TotalBijection(ins, spent, f);
  }

  /**
   After full extraction, all balances together are all total_out minus all total_in: nothing is
   counted twice or lost between the three tables.
   */
  lemma BalancesConserve(chain: seq<Block>)
    requires WellFormed(chain)
    ensures var db := Complete(chain);
            Total(Balances(db)) == Total(TotalsOut(db)) - Total(TotalsIn(db))
  {
    hide WellFormed, FullIo, FullTxs, FullSpends, Total, Complete;
    var db := FullTables(chain);
    CompleteIsFull(chain);
    BalancesAreUnspent(db);
    TotalsOverTxs(chain);
    InputsAreSpentOutputs(chain);
    TotalUnion(OutAmounts(db), UnspentAmounts(db), SpentAmounts(db));
  }
}
