/**
 Tables whose rows are all rows of the chain, with totals of inputs that may still be incomplete: no
 write fails on them, and every write keeps them so.
 */
module SoundTables {
  import opened Common
  import opened Chain
  import opened Rows
  import opened Extract
  import opened Ledger
  import opened Backfill
  import opened Confluence
  import opened History

  ghost predicate TxsSound(t: TxTable, u: TxTable) {
    forall k | k in t :: k in u && t[k] == u[k].(totalIn := t[k].totalIn)
  }

  /** Every stored row is a row of the chain; only total_in may still be incomplete. */
  ghost predicate Sound(chain: seq<Block>, db: Tables) {
    && Within(db.io, FullIo(chain)) && Within(db.spends, FullSpends(chain))
    && TxsSound(db.txs, FullTxs(chain))
  }

  ghost predicate OutsStored(chain: seq<Block>, db: Tables, h: int)
    requires 0 <= h < |chain| && chain[h].time.Some?
  {
    AllTxKeys(TxRowsAtHeight(chain, h)) <= db.txs.Keys && AllIoKeys(OutRowsAtHeight(chain, h)) <= db.io.Keys
  }

  ghost predicate SpendsStored(chain: seq<Block>, db: Tables, h: int)
    requires 0 <= h < |chain| && chain[h].time.Some?
  {
    AllSpendKeys(SpendRowsAtHeight(chain, h)) <= db.spends.Keys
  }

  /** Rows once stored stay. */
  ghost predicate Grows(db: Tables, db': Tables) {
    db.txs.Keys <= db'.txs.Keys && db.io.Keys <= db'.io.Keys && db.spends.Keys <= db'.spends.Keys
  }

  lemma EmptyIsSound(chain: seq<Block>)
    ensures Sound(chain, EMPTY)
  {
  }

  lemma GrowsSelf(db: Tables)
    ensures Grows(db, db)
  {
  }

  // ----- one write keeps tables sound -----

  lemma {:induction false} UpsertTxsSound(t: TxTable, rows: seq<TxRow>, n: nat, u: TxTable, hasPrevouts: bool)
    requires n <= |rows| && TxsSound(t, u)
    requires forall r | r in rows :: RefreshesTo(r, u, hasPrevouts)
    ensures TxsSound(UpsertTxs(t, rows, n), u)
    ensures UpsertTxs(t, rows, n).Keys == t.Keys + TxRowKeys(rows, n)
  {
    if n > 0 {
      UpsertTxsSound(t, rows, n - 1, u, hasPrevouts);
      assert rows[n - 1] in rows;
    }
  }

  ghost predicate Skips(b: Block, h: int, hasPrevouts: bool) {
    b.time.Some? && Staged(b, h, hasPrevouts).value.features == FNone
  }

  /** On sound tables an extraction never fails, and stores all the block has. */
  lemma ExtractKeepsSound(chain: seq<Block>, db: Tables, h: int, hasPrevouts: bool)
    requires WellFormed(chain) && 0 <= h < |chain| && Sound(chain, db)
    ensures chain[h].time.Some? && (Skips(chain[h], h, hasPrevouts) <==> !Kept(chain[h]))
    ensures var r := ExtractBlock(db, chain[h], h, hasPrevouts);
            && r.Some? && Sound(chain, r.value) && Grows(db, r.value)
            && (Kept(chain[h]) ==> OutsStored(chain, r.value, h) && SpendsStored(chain, r.value, h))
  {
    hide FullIo, FullTxs, FullSpends, WellFormed, AllTxKeys, AllIoKeys, AllSpendKeys, TxRowsAtHeight, Kept,
         SpendersDiffer, TxsSound, Within, IoRowsAgree, SpendRowsAgree, TxRowsAgree;
    WellFormedBlock(chain, h);
    StagedAgrees(chain, h, hasPrevouts);
    RowKeysAtHeight(chain, h, hasPrevouts);
    var p := Staged(chain[h], h, hasPrevouts).value;
    if Kept(chain[h]) {
      SpendersOfChain(chain);
      WriteKeepsSound(FullTables(chain), db, p, hasPrevouts);
      IoKeysConcat(p.outRows, p.inRows);
    }
  }

  lemma SpendersOfChain(chain: seq<Block>)
    requires WellFormed(chain)
    ensures SpendersDiffer(FullSpends(chain))
  {
    FullSpendersDiffer(chain);
  }

  lemma WriteKeepsSound(full: Tables, db: Tables, p: Parsed, hasPrevouts: bool)
    requires TxsSound(db.txs, full.txs) && Within(db.io, full.io) && Within(db.spends, full.spends)
             && SpendersDiffer(full.spends)
    requires TxRowsAgree(p.txRows, full.txs, hasPrevouts)
    requires IoRowsAgree(p.outRows + p.inRows, full.io) && SpendRowsAgree(p.spendRows, full.spends)
    ensures var r := WriteParsed(db, p);
            && r.Some? && Grows(db, r.value)
            && TxsSound(r.value.txs, full.txs) && Within(r.value.io, full.io) && Within(r.value.spends, full.spends)
            && AllTxKeys(p.txRows) <= r.value.txs.Keys && AllIoKeys(p.outRows + p.inRows) <= r.value.io.Keys
            && AllSpendKeys(p.spendRows) <= r.value.spends.Keys
  {
    hide TxRowKeys, IoRowKeys, SpendRowKeys, UpsertTxs, InsertIo, InsertSpends, SpendersDiffer, RepeatsTxid, TxsSound,
         Within;
    DifferentRowsGoIn(db.txs, p.txRows, |p.txRows|);
    UpsertTxsSound(db.txs, p.txRows, |p.txRows|, full.txs, hasPrevouts);
    InsertIoWithin(db.io, p.outRows + p.inRows, |p.outRows + p.inRows|, full.io);
    InsertSpendsWithin(db.spends, p.spendRows, |p.spendRows|, full.spends);
  }

  /** Neither does a backfill fail, whatever it finds. */
  lemma BackfillKeepsSound(chain: seq<Block>, db: Tables, h: int, hasPrevouts: bool)
    requires WellFormed(chain) && 0 <= h < |chain| && Sound(chain, db)
    ensures chain[h].time.Some?
    ensures var r := BackfillBlock(db, chain[h], h, hasPrevouts);
            r.Some? && Sound(chain, r.value) && Grows(db, r.value) && SpendsStored(chain, r.value, h)
  {
    hide FullIo, FullTxs, FullSpends, FilledRows, FilledTotals;
    WellFormedBlock(chain, h);
    var rows, spendRows := FilledRows(db.io, chain[h], hasPrevouts), SpendRowsAtHeight(chain, h);
    FullSpendersDiffer(chain);
    FoundKeysAre(chain, db.io, h, hasPrevouts);
    SpendsAgree(chain, h);
    InsertIoWithin(db.io, rows, |rows|, FullIo(chain));
    InsertSpendsWithin(db.spends, spendRows, |spendRows|, FullSpends(chain));
  }

  /** A skipped block has no out, in or spend rows at all. */
  lemma SkippedHasNoSpends(chain: seq<Block>, h: int)
    requires 0 <= h < |chain| && chain[h].time.Some? && !Kept(chain[h])
    ensures OutRowsAtHeight(chain, h) == [] && InRowsAtHeight(chain, h) == [] && SpendRowsAtHeight(chain, h) == []
    ensures AllSpendKeys(SpendRowsAtHeight(chain, h)) == {} && AllIoKeys(OutRowsAtHeight(chain, h)) == {}
    ensures AllTxKeys(TxRowsAtHeight(chain, h)) == {}
  {
    RowsShowPreviousTxid(chain[h], h);
    SkippedBlocksAreEmpty(chain[h], h, false);
  }
}
