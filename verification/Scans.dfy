/**
 What one address scan sees of the ledger when other heights are still missing: it never misses a
 credit of its own height, and misses exactly the debits whose outputs are not stored yet.
 */
module Scans {
  import opened Common
  import opened Sums
  import opened Chain
  import opened Rows
  import opened Extract
  import opened Ledger
  import opened Confluence
  import opened Watch
  import opened FullLedger
  import opened Conservation
  import opened SoundTables
  import V = ViewAgreement

  /** Sound tables in which the block at `h` is extracted and has its spend edges. */
  ghost predicate Sees(chain: seq<Block>, db: Tables, h: int) {
    && 0 <= h < |chain| && chain[h].time.Some? && Sound(chain, db)
    && OutsStored(chain, db, h) && SpendsStored(chain, db, h)
  }

  /** Outputs of `a` that are spent at `h` and have no stored row. */
  ghost function MissedDebits(chain: seq<Block>, db: Tables, h: int, a: Address): set<IoKey> {
    set k | k in Debits(FullTables(chain), h, a) && k !in db.io
  }

  lemma TxKeyAtHeight(chain: seq<Block>, h: int, i: int)
    requires TxAt(chain, h, i) && Kept(chain[h]) && chain[h].time.Some?
    ensures chain[h].txs[i].txid.value in AllTxKeys(TxRowsAtHeight(chain, h))
  {
    var rows, r := TxRowsAtHeight(chain, h), TxRowOf(chain[h].txs[i], chain[h], true);
    BlockTxRowsAre(chain[h], |chain[h].txs|, true, r);
    TxRowKeysAre(rows, |rows|);
    var m :| 0 <= m < |rows| && rows[m] == r;
  }

  lemma OutKeyAtHeight(chain: seq<Block>, h: int, i: int, j: int)
    requires 0 <= h < |chain| && OutAt(chain[h], i, j)
    ensures IoKeyOf(OutRow(chain[h].txs[i], j)) in AllIoKeys(OutRowsAtHeight(chain, h))
  {
    var rows, r := OutRowsAtHeight(chain, h), OutRow(chain[h].txs[i], j);
    BlockOutRowsAre(chain[h], |chain[h].txs|, r);
    IoRowKeysAre(rows, |rows|);
    var m :| 0 <= m < |rows| && rows[m] == r;
  }

  lemma SpendKeyAtHeight(chain: seq<Block>, h: int, i: int, j: int)
    requires InputAt(chain, h, i, j) && chain[h].time.Some?
    ensures OutpointOf(SpendOf(chain[h].txs[i], j, h, chain[h])) in AllSpendKeys(SpendRowsAtHeight(chain, h))
  {
    var rows, r := SpendRowsAtHeight(chain, h), SpendOf(chain[h].txs[i], j, h, chain[h]);
    assert SpendAt(chain[h], i, j);
    BlockSpendRowsAre(chain[h], |chain[h].txs|, h, r);
    SpendRowKeysAre(rows, |rows|);
    var m :| 0 <= m < |rows| && rows[m] == r;
  }

  // ----- credits and debits of one height -----

  lemma SoundRows(chain: seq<Block>, db: Tables)
    requires Sound(chain, db)
    ensures forall k | k in db.io :: k in FullIo(chain) && db.io[k] == FullIo(chain)[k]
    ensures forall k | k in db.spends :: k in FullSpends(chain) && db.spends[k] == FullSpends(chain)[k]
    ensures forall k | k in db.txs :: k in FullTxs(chain) && db.txs[k].blockHash == FullTxs(chain)[k].blockHash
  {
  }

  lemma CreditIsStored(chain: seq<Block>, db: Tables, h: int, a: Address, k: IoKey)
    requires WellFormed(chain) && Sees(chain, db, h) && k in Credits(FullTables(chain), chain[h].hash, a)
    ensures k in db.io && k.txid in db.txs
  {
    hide FullIo, FullTxs, FullSpends, AllTxKeys, AllIoKeys, AllSpendKeys, Sound;
    var h', i := StoredOutPosition(chain, k);
    TxStored(chain, h', i);
    assert chain[h'].hash == chain[h].hash;
    OutKeyAtHeight(chain, h, i, k.idx);
    TxKeyAtHeight(chain, h, i);
  }

  lemma DebitIsStored(chain: seq<Block>, db: Tables, h: int, a: Address, k: IoKey)
    requires WellFormed(chain) && Sees(chain, db, h) && k in Debits(FullTables(chain), h, a)
    ensures Prev(k) in db.spends
  {
    hide FullIo, FullTxs, FullSpends, AllTxKeys, AllIoKeys, AllSpendKeys, Sound, WellFormed;
    var h', i, j := StoredSpendPosition(chain, Prev(k));
    SpendKeyAtHeight(chain, h, i, j);
  }

  /** Of its own height a scan sees every credit, and every debit whose output is stored. */
  lemma SeenOfHeight(chain: seq<Block>, db: Tables, h: int, a: Address)
    requires WellFormed(chain) && Sees(chain, db, h)
    ensures Credits(db, chain[h].hash, a) == Credits(FullTables(chain), chain[h].hash, a)
    ensures Debits(db, h, a) == Debits(FullTables(chain), h, a) - MissedDebits(chain, db, h, a)
    ensures Amounts(db, Credits(db, chain[h].hash, a))
            == Amounts(FullTables(chain), Credits(FullTables(chain), chain[h].hash, a))
    ensures Amounts(db, Debits(db, h, a)) == Amounts(FullTables(chain), Debits(db, h, a))
    ensures DebitTxids(db, Debits(db, h, a)) == DebitTxids(FullTables(chain), Debits(db, h, a))
  {
    hide FullIo, FullTxs, FullSpends, Sees, WellFormed;
    SeesSound(chain, db, h);
    SoundRows(chain, db);
    hide Sound;
    forall k | k in Credits(FullTables(chain), chain[h].hash, a)
      ensures k in db.io && k.txid in db.txs
    {
      CreditIsStored(chain, db, h, a, k);
    }
    forall k | k in Debits(FullTables(chain), h, a)
      ensures Prev(k) in db.spends
    {
      DebitIsStored(chain, db, h, a, k);
    }
  }

  /** Transactions that touch `a` at `h`, and that a scan sees no touch of. */
  ghost function MissedTxs(chain: seq<Block>, db: Tables, h: int, a: Address): set<TxId>
    requires 0 <= h < |chain|
  {
    TouchedTxids(FullTables(chain), chain[h].hash, h, a) - TouchedTxids(db, chain[h].hash, h, a)
  }

  /** They are those that spend a missed output and touch the address in no other way. */
  lemma SeenTxs(chain: seq<Block>, db: Tables, h: int, a: Address)
    requires WellFormed(chain) && Sees(chain, db, h)
    ensures 0 <= h < |chain|
    ensures var full, seen := FullTables(chain), TouchedTxids(db, chain[h].hash, h, a);
            && MissedTxs(chain, db, h, a) == DebitTxids(full, MissedDebits(chain, db, h, a)) - seen
            && |seen| == |TouchedTxids(full, chain[h].hash, h, a)| - |MissedTxs(chain, db, h, a)|
  {
    hide WellFormed, FullTables, Credits, Debits, MissedDebits, Sees;
    SeesSound(chain, db, h);
    SeenOfHeight(chain, db, h, a);
    MissedAreDebits(chain, db, h, a);
    var full, missed := FullTables(chain), MissedDebits(chain, db, h, a);
    var all := Debits(full, h, a);
    SplitDebitTxids(full, all, missed);
    var touched, seen := TouchedTxids(full, chain[h].hash, h, a), TouchedTxids(db, chain[h].hash, h, a);
    assert seen <= touched;
    assert touched == seen + (touched - seen);
  }

  lemma SplitDebitTxids(db: Tables, all: set<IoKey>, part: set<IoKey>)
    requires part <= all
    ensures DebitTxids(db, all) == DebitTxids(db, all - part) + DebitTxids(db, part)
  {
    assert all == (all - part) + part;
  }

  lemma SeesSound(chain: seq<Block>, db: Tables, h: int)
    requires Sees(chain, db, h)
    ensures 0 <= h < |chain| && chain[h].time.Some? && Sound(chain, db)
  {
  }

  // ----- by how much a scan is off -----

  ghost function MissedSats(chain: seq<Block>, db: Tables, h: int, a: Address): int {
    Total(Amounts(FullTables(chain), MissedDebits(chain, db, h, a)))
  }

  lemma {:induction false} AtLeastOnes(m: map<IoKey, int>)
    requires forall k | k in m :: m[k] > 0
    ensures Total(m) >= |m|
    decreases |m|
  {
    if m != map[] {
      var k :| k in m;
      TotalRemove(m, k);
      assert (m - {k}).Keys == m.Keys - {k} && |m.Keys - {k}| == |m| - 1 && |(m - {k}).Keys| == |m - {k}|;
      AtLeastOnes(m - {k});
    }
  }

  /** Every output has worth, so a scan that misses one is off by at least a satoshi. */
  lemma MissedHasWorth(chain: seq<Block>, db: Tables, h: int, a: Address)
    requires WellFormed(chain)
    ensures MissedSats(chain, db, h, a) >= |MissedDebits(chain, db, h, a)|
  {
    hide WellFormed, FullTxs, FullSpends, FullIo, Total;
    var m := Amounts(FullTables(chain), MissedDebits(chain, db, h, a));
    forall k | k in m
      ensures m[k] > 0
    {
      var h' := OutRowAligned(chain, k);
    }
    assert m.Keys == MissedDebits(chain, db, h, a);
    assert |m.Keys| == |m|;
    AtLeastOnes(m);
  }

  lemma DeltaOffBy(chain: seq<Block>, db: Tables, h: int, a: Address)
    requires WellFormed(chain) && Sees(chain, db, h)
    ensures 0 <= h < |chain|
    ensures DeltaSats(db, chain[h].hash, h, a)
            == DeltaSats(FullTables(chain), chain[h].hash, h, a) + MissedSats(chain, db, h, a)
    ensures DeltaUtxos(db, chain[h].hash, h, a)
            == DeltaUtxos(FullTables(chain), chain[h].hash, h, a) + |MissedDebits(chain, db, h, a)|
  {
    hide WellFormed, FullTables, Credits, Debits, Amounts, Total, Sees, MissedDebits;
    SeesSound(chain, db, h);
    SeenOfHeight(chain, db, h, a);
    var full, all, missed := FullTables(chain), Debits(FullTables(chain), h, a), MissedDebits(chain, db, h, a);
    DebitsAreRows(full, h, a);
    MissedAreDebits(chain, db, h, a);
    SplitAmounts(full, all, missed);
  }

  lemma SplitAmounts(db: Tables, all: set<IoKey>, part: set<IoKey>)
    requires part <= all && forall k | k in all :: k in db.io
    ensures Total(Amounts(db, all)) == Total(Amounts(db, all - part)) + Total(Amounts(db, part))
    ensures |all| == |all - part| + |part|
  {
    hide Total;
    TotalUnion(Amounts(db, all), Amounts(db, all - part), Amounts(db, part));
    assert all == (all - part) + part;
  }

  lemma DebitsAreRows(db: Tables, h: int, a: Address)
    ensures forall k | k in Debits(db, h, a) :: k in db.io
  {
  }

  lemma MissedAreDebits(chain: seq<Block>, db: Tables, h: int, a: Address)
    ensures MissedDebits(chain, db, h, a) <= Debits(FullTables(chain), h, a)
  {
  }

  lemma ScannedBalance(db: Tables, hash: string, h: int, time: int, a: Address, w: WatchRow)
    requires w.balance >= 0
    ensures ScanRow(db, hash, h, time, a, w).balance == Max(0, w.balance + DeltaSats(db, hash, h, a))
  {
    hide DeltaSats, DeltaUtxos, TouchedTxids;
    if !Touched(db, hash, h, a) {
      V.UntouchedIsZero(db, hash, h, a);
    }
  }

  /** A scan of `h` does to every watch row what it would do on the complete ledger. */
  ghost predicate ScansTrue(chain: seq<Block>, db: Tables, h: int, a: Address)
    requires 0 <= h < |chain| && chain[h].time.Some?
  {
    forall w :: ScanRow(db, chain[h].hash, h, chain[h].time.value, a, w)
             == ScanRow(FullTables(chain), chain[h].hash, h, chain[h].time.value, a, w)
  }

  lemma NothingMissedScansTrue(chain: seq<Block>, db: Tables, h: int, a: Address)
    requires WellFormed(chain) && Sees(chain, db, h) && MissedDebits(chain, db, h, a) == {}
    ensures 0 <= h < |chain| && chain[h].time.Some? && ScansTrue(chain, db, h, a)
  {
    hide WellFormed, FullTables, Credits, Debits, Total, Sees, Amounts, CreditTxids, DebitTxids, MissedDebits;
    SeesSound(chain, db, h);
    SeenOfHeight(chain, db, h, a);
    assert Debits(FullTables(chain), h, a) - {} == Debits(FullTables(chain), h, a);
  }

  /**
   A scan of an extracted height changes every watch row as on the complete ledger if and only if
   each output of the address that is spent at that height has its row already.
   */
  lemma ScansTrueIff(chain: seq<Block>, db: Tables, h: int, a: Address)
    requires WellFormed(chain) && Sees(chain, db, h)
    ensures 0 <= h < |chain| && chain[h].time.Some?
    ensures ScansTrue(chain, db, h, a) <==> MissedDebits(chain, db, h, a) == {}
    ensures MissedSats(chain, db, h, a) == 0 <==> MissedDebits(chain, db, h, a) == {}
  {
    hide WellFormed, FullTables, Sees, DeltaSats, DeltaUtxos, ScanRow, MissedDebits, MissedSats;
    SeesSound(chain, db, h);
    MissedHasWorth(chain, db, h, a);
    if MissedDebits(chain, db, h, a) == {} {
      NothingMissedScansTrue(chain, db, h, a);
      MissedNothing(chain, db, h, a);
    } else {
      DeltaOffBy(chain, db, h, a);
      var full, hash, time := FullTables(chain), chain[h].hash, chain[h].time.value;
      var d, d' := DeltaSats(db, hash, h, a), DeltaSats(full, hash, h, a);
      var w := UNSEEN.(balance := Max(0, -d'));
      ScannedBalance(db, hash, h, time, a, w);
      ScannedBalance(full, hash, h, time, a, w);
      assert |MissedDebits(chain, db, h, a)| > 0;
      assert ScanRow(db, hash, h, time, a, w) != ScanRow(full, hash, h, time, a, w);
    }
  }

  lemma MissedNothing(chain: seq<Block>, db: Tables, h: int, a: Address)
    requires MissedDebits(chain, db, h, a) == {}
    ensures MissedSats(chain, db, h, a) == 0
  {
    assert Amounts(FullTables(chain), {}) == map[];
  }

  /** With every block up to `h` extracted nothing is missed: outputs are created before they are spent. */
  lemma ExtractedBelowMissesNothing(chain: seq<Block>, db: Tables, h: int, a: Address)
    requires WellFormed(chain) && 0 <= h < |chain|
    requires forall k | 0 <= k <= h :: chain[k].time.Some? && OutsStored(chain, db, k)
    ensures MissedDebits(chain, db, h, a) == {}
  {
    hide WellFormed, FullIo, FullTxs, FullSpends, AllTxKeys, AllIoKeys, AllSpendKeys;
    forall k | k in Debits(FullTables(chain), h, a)
      ensures k in db.io
    {
      var h', i := StoredOutPosition(chain, k);
      var h2 := OutRowAligned(chain, k);
      SameCreation(chain, k, h', i, h2);
      OutKeyAtHeight(chain, h', i, k.idx);
      assert OutsStored(chain, db, h');
    }
  }

  lemma SameCreation(chain: seq<Block>, k: IoKey, h: int, i: int, h': int)
    requires WellFormed(chain) && TxAt(chain, h, i) && Kept(chain[h]) && chain[h].txs[i].txid == Some(k.txid)
    requires 0 <= h' < |chain| && k.txid in FullTxs(chain) && FullTxs(chain)[k.txid].blockHash == chain[h'].hash
    ensures h == h'
  {
    hide FullTxs;
    TxStored(chain, h, i);
  }
}
