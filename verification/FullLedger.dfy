/** The tables of a completely extracted chain, seen by the balance queries. */
module FullLedger {
  import opened Common
  import opened Chain
  import opened Rows
  import opened Extract
  import opened Ledger
  import opened Confluence
  import opened History
  import opened Sums
  import opened Watch
  import opened Clamp
  import V = ViewAgreement

  ghost function Complete(chain: seq<Block>): Tables {
    LedgerOf(chain, Below(|chain|), Below(|chain|))
  }

  ghost function Hashes(chain: seq<Block>): (s: seq<string>)
    ensures |s| == |chain| && forall h | 0 <= h < |chain| :: s[h] == chain[h].hash
  {
    seq(|chain|, h requires 0 <= h < |chain| => chain[h].hash)
  }

  ghost function Times(chain: seq<Block>): (s: seq<int>)
    requires WellFormed(chain)
    ensures |s| == |chain| && forall h | 0 <= h < |chain| :: s[h] == chain[h].time.value
  {
    seq(|chain|, h requires 0 <= h < |chain| => chain[h].time.value)
  }

  lemma CompleteIsFull(chain: seq<Block>)
    requires WellFormed(chain)
    ensures Complete(chain) == FullTables(chain)
  {
    var all, db := Below(|chain|), Complete(chain);
    StoredIsCovered(chain, all, all);
    assert FullTxs(chain).Keys == TxKeys(chain, all);
    assert FullIo(chain).Keys == OutKeys(chain, all) + InKeys(chain, all);
    assert FullSpends(chain).Keys == SpendKeys(chain, all);
    RestrictedIs(FullTables(chain), FullTables(chain), StoredBy(chain, all, all));
  }

  // ----- rows and their positions -----

  lemma TxStored(chain: seq<Block>, h: int, i: int)
    requires WellFormed(chain) && TxAt(chain, h, i) && Kept(chain[h])
    ensures var tx := chain[h].txs[i];
            tx.txid.value in FullTxs(chain) && FullTxs(chain)[tx.txid.value] == TxEntryOf(TxRowOf(tx, chain[h], true))
  {
    var b, r := chain[h], TxRowOf(chain[h].txs[i], chain[h], true);
    BlockTxRowsAre(b, |b.txs|, true, r);
    FullTxsHas(chain, h, r);
  }

  lemma StoredTxPosition(chain: seq<Block>, t: TxId) returns (h: int, i: int)
    requires WellFormed(chain) && t in FullTxs(chain)
    ensures TxAt(chain, h, i) && Kept(chain[h]) && chain[h].txs[i].txid == Some(t)
    ensures FullTxs(chain)[t] == TxEntryOf(TxRowOf(chain[h].txs[i], chain[h], true))
  {
    var r;
    h, r :| TxRowOfHeight(chain, h, r) && r.txid == t;
    i := TxRowPosition(chain, h, r);
    FullTxsHas(chain, h, r);
  }

  lemma StoredOutPosition(chain: seq<Block>, k: IoKey) returns (h: int, i: int)
    requires WellFormed(chain) && k in FullIo(chain) && k.io == Out
    ensures 0 <= h < |chain| && OutAt(chain[h], i, k.idx) && k == IoKeyOf(OutRow(chain[h].txs[i], k.idx))
    ensures FullIo(chain)[k] == IoEntryOf(OutRow(chain[h].txs[i], k.idx))
    ensures TxAt(chain, h, i) && Kept(chain[h])
  {
    var r, j;
    h, r :| IoRowOf(chain, h, r) && IoKeyOf(r) == k;
    i, j := IoRowPosition(chain, h, r);
    FullIoHas(chain, h, r);
    BlockOutRowsAre(chain[h], |chain[h].txs|, r);
  }

  lemma StoredInPosition(chain: seq<Block>, k: IoKey) returns (h: int, i: int)
    requires WellFormed(chain) && k in FullIo(chain) && k.io == In
    ensures InputAt(chain, h, i, k.idx) && InAt(chain[h], i, k.idx) && k == IoKeyOf(InRow(chain[h].txs[i], k.idx))
    ensures FullIo(chain)[k] == IoEntryOf(InRow(chain[h].txs[i], k.idx))
  {
    var r, j;
    h, r :| IoRowOf(chain, h, r) && IoKeyOf(r) == k;
    i, j := IoRowPosition(chain, h, r);
    FullIoHas(chain, h, r);
  }

  lemma StoredSpendPosition(chain: seq<Block>, s: Outpoint) returns (h: int, i: int, j: int)
    requires WellFormed(chain) && s in FullSpends(chain)
    ensures InputAt(chain, h, i, j) && s == OutpointOf(SpendOf(chain[h].txs[i], j, h, chain[h]))
    ensures FullSpends(chain)[s] == SpendEntryOf(SpendOf(chain[h].txs[i], j, h, chain[h]))
    ensures Kept(chain[h])
  {
    var r;
    h, r :| SpendRowOf(chain, h, r) && OutpointOf(r) == s;
    i, j := SpendRowPosition(chain, h, r);
    FullSpendsHas(chain, h, r);
    RowsShowPreviousTxid(chain[h], h);
  }

  // ----- a complete ledger lines up with its chain -----

  lemma OutRowAligned(chain: seq<Block>, k: IoKey) returns (h: int)
    requires WellFormed(chain) && k in FullIo(chain) && k.io == Out
    ensures k.txid in FullTxs(chain) && FullIo(chain)[k].amount > 0
    ensures 0 <= h < |chain| && FullTxs(chain)[k.txid].blockHash == chain[h].hash
    ensures V.HashAt(Hashes(chain), h, FullTxs(chain)[k.txid].blockHash)
    ensures Prev(k) in FullSpends(chain) ==> h <= FullSpends(chain)[Prev(k)].height
  {
    var i;
    h, i := StoredOutPosition(chain, k);
    TxStored(chain, h, i);
    if Prev(k) in FullSpends(chain) {
      var sh, si, sj := StoredSpendPosition(chain, Prev(k));
      var h', i', j' :| Origin(chain, sh, si, sj, h', i', j');
      assert Origin(chain, sh, si, sj, h', i', j') && TxAt(chain, h', i');
      assert chain[h'].txs[i'].txid == chain[h].txs[i].txid;
    }
  }

  lemma SpendRowAligned(chain: seq<Block>, s: Outpoint)
    requires WellFormed(chain) && s in FullSpends(chain)
    ensures var e := FullSpends(chain)[s];
            && e.spendingTxid in FullTxs(chain)
            && V.HashAt(Hashes(chain), e.height, FullTxs(chain)[e.spendingTxid].blockHash)
  {
    var h, i, j := StoredSpendPosition(chain, s);
    TxStored(chain, h, i);
  }

  lemma TxRowAligned(chain: seq<Block>, t: TxId)
    requires WellFormed(chain) && t in FullTxs(chain)
    ensures exists h ::
              V.HashAt(Hashes(chain), h, FullTxs(chain)[t].blockHash) && FullTxs(chain)[t].time == Times(chain)[h]
  {
    var h, i := StoredTxPosition(chain, t);
    assert V.HashAt(Hashes(chain), h, FullTxs(chain)[t].blockHash);
  }

  lemma HashDetermines(chain: seq<Block>, h: int, s: string)
    requires WellFormed(chain) && V.HashAt(Hashes(chain), h, s)
    ensures V.HeightOf(Hashes(chain), s) == h
  {
    var h' := V.HeightOf(Hashes(chain), s);
    assert chain[h].hash == chain[h'].hash;
  }

  lemma CompleteIsAligned(chain: seq<Block>)
    requires WellFormed(chain)
    ensures V.Aligned(Complete(chain), Hashes(chain), Times(chain))
  {
    hide WellFormed, FullTxs, FullIo, FullSpends, LedgerOf;
    var db, hashes, times := FullTables(chain), Hashes(chain), Times(chain);
    CompleteIsFull(chain);
    DistinctHashes(chain);
    forall k | k in db.io && k.io == Out
      ensures k.txid in db.txs && db.io[k].amount >= 0
      ensures exists h :: V.HashAt(hashes, h, db.txs[k.txid].blockHash)
      ensures Prev(k) in db.spends ==> V.HeightOf(hashes, db.txs[k.txid].blockHash) <= db.spends[Prev(k)].height
    {
      var h := OutRowAligned(chain, k);
      HashDetermines(chain, h, db.txs[k.txid].blockHash);
    }
    forall t | t in db.txs
      ensures exists h :: V.HashAt(hashes, h, db.txs[t].blockHash) && db.txs[t].time == times[h]
    {
      TxRowAligned(chain, t);
    }
    forall s | s in db.spends
      ensures db.spends[s].spendingTxid in db.txs
      ensures V.HashAt(hashes, db.spends[s].height, db.txs[db.spends[s].spendingTxid].blockHash)
    {
      SpendRowAligned(chain, s);
    }
  }

  lemma DistinctHashes(chain: seq<Block>)
    requires WellFormed(chain)
    ensures Distinct(Hashes(chain))
  {
  }

  // ----- scan-addresses on a complete ledger -----

  ghost function Unseen(addresses: set<Address>): WatchTable {
    map a | a in addresses :: UNSEEN
  }

  ghost predicate SameFigures(w: WatchRow, r: WatchRow) {
    w.balance == r.balance && w.utxos == r.utxos && w.txCount == r.txCount && w.firstSeen == r.firstSeen
    && w.lastSeen == r.lastSeen
  }

  /** Whatever a row said before, recomputing overwrites its figures; without out rows it stays. */
  lemma RecomputeForgets(db: Tables, a: Address, w: WatchRow, w': WatchRow)
    ensures var r, r' := RecomputeRow(db, a, w), RecomputeRow(db, a, w');
            && (Outs(db, a) == {} ==> r == w)
            && (Outs(db, a) != {} ==>
                  && r.balance == r'.balance == Total(Amounts(db, UnspentOuts(db, a)))
                  && r.utxos == r'.utxos == |UnspentOuts(db, a)| && r.txCount == r'.txCount
                  && r.scannedHeight == w.scannedHeight && r.scannedTime == w.scannedTime
                  && (TouchTimes(db, a) != {} ==> r.firstSeen == r'.firstSeen && r.lastSeen == r'.lastSeen))
  {
    hide AllTouched, UnspentOuts, Amounts, Outs, TouchTimes, Total;
  }

  /** In a complete ledger an address with an out row is touched by a stored transaction. */
  lemma TouchedInTime(chain: seq<Block>, a: Address)
    requires WellFormed(chain) && Outs(FullTables(chain), a) != {}
    ensures TouchTimes(FullTables(chain), a) != {}
  {
    hide WellFormed, FullIo, FullTxs, FullSpends;
    var db := FullTables(chain);
    var k :| k in Outs(db, a);
    var h := OutRowAligned(chain, k);
    assert k.txid in AllTouched(db, a);
    assert db.txs[k.txid].time in TouchTimes(db, a);
  }

  /**
   Scanning a completely extracted chain from height 0 up, from unseen rows, ends where
   recompute-balances ends from any rows whatever; an address without out rows keeps the row it has.
   */
  lemma {:induction false} ScanEqualsRecompute(chain: seq<Block>, watch: WatchTable)
    requires WellFormed(chain)
    ensures var db, order := Complete(chain), V.Ascending(|chain|);
            var scanned := V.ScanAll(db, Hashes(chain), Times(chain), Unseen(watch.Keys), order, |order|);
            var anew := Recompute(db, watch);
            && scanned.Keys == anew.Keys == watch.Keys
            && (forall a | a in watch && Outs(db, a) != {} :: SameFigures(scanned[a], anew[a]))
            && (forall a | a in watch && Outs(db, a) == {} :: SameFigures(scanned[a], UNSEEN) && anew[a] == watch[a])
  {
    hide V.Aligned, Complete, WellFormed, RecomputeRow, V.RowAfter, ClampFires, V.ScanAll, FullTables, Outs, TouchTimes;
    var db, order := Complete(chain), V.Ascending(|chain|);
    var scanned := V.ScanAll(db, Hashes(chain), Times(chain), Unseen(watch.Keys), order, |order|);
    CompleteIsAligned(chain);
    CompleteIsFull(chain);
    forall a | a in watch
      ensures scanned.Keys == watch.Keys && SameFigures(scanned[a], RecomputeRow(db, a, UNSEEN))
      ensures Outs(db, a) != {} ==> SameFigures(RecomputeRow(db, a, watch[a]), RecomputeRow(db, a, UNSEEN))
      ensures Outs(db, a) == {} ==> RecomputeRow(db, a, watch[a]) == watch[a] && RecomputeRow(db, a, UNSEEN) == UNSEEN
    {
      V.ScanAllByRow(db, Hashes(chain), Times(chain), Unseen(watch.Keys), order, |order|, a);
      V.ScanInOrderAgrees(db, Hashes(chain), Times(chain), a);
      RecomputeForgets(db, a, watch[a], UNSEEN);
      RecomputeForgets(db, a, UNSEEN, UNSEEN);
      if Outs(db, a) != {} {
        TouchedInTime(chain, a);
      }
    }
    if watch.Keys == {} {
      NobodyWatched(db, Hashes(chain), Times(chain), order, |order|);
    }
  }

  lemma {:induction false} NobodyWatched(db: Tables, hashes: seq<string>, times: seq<int>, order: seq<int>, n: nat)
    requires n <= |order| && |hashes| == |times| && V.InRange(hashes, order)
    ensures V.ScanAll(db, hashes, times, Unseen({}), order, n).Keys == {}
  {
    if n > 0 {
      NobodyWatched(db, hashes, times, order, n - 1);
    }
  }
}
