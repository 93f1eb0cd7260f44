/**
 What every history of writes leaves behind, well-timed or not.  The first backfill that finds
 anything of a transaction decides its total of inputs for good.
 */
module Fates {
  import opened Common
  import opened Chain
  import opened Rows
  import opened Extract
  import opened Ledger
  import opened Backfill
  import opened Confluence
  import opened History
  import opened TwoPass
  import opened SoundTables
  import opened FullLedger
  import opened PartialBackfill

  // ----- one write on any sound tables -----

  /** The total of a key after upserting one more row. */
  ghost function TotalWith(t: TxTable, u: TxTable, written: set<TxId>, hasPrevouts: bool, k: TxId): int
    requires k in u
  {
    if hasPrevouts && k in written && u[k].totalIn > 0 then u[k].totalIn else if k in t then t[k].totalIn else 0
  }

  lemma UpsertTotal(t: TxTable, before: TxTable, r: TxRow, u: TxTable, written: set<TxId>, hasPrevouts: bool)
    requires TxsSound(before, u) && RefreshesTo(r, u, hasPrevouts) && before.Keys == t.Keys + written
    requires forall k | k in before :: before[k].totalIn == TotalWith(t, u, written, hasPrevouts, k)
    ensures var after := UpsertTx(before, r);
            && TxsSound(after, u) && after.Keys == before.Keys + {r.txid}
            && forall k | k in after :: after[k].totalIn == TotalWith(t, u, written + {r.txid}, hasPrevouts, k)
  {
  }

  lemma {:induction false} UpsertTotals(t: TxTable, rows: seq<TxRow>, n: nat, u: TxTable, hasPrevouts: bool)
    requires n <= |rows| && TxsSound(t, u)
    requires forall r | r in rows :: RefreshesTo(r, u, hasPrevouts)
    ensures UpsertTxs(t, rows, n).Keys == t.Keys + TxRowKeys(rows, n) && TxsSound(UpsertTxs(t, rows, n), u)
    ensures forall k | k in UpsertTxs(t, rows, n) ::
              k in u && UpsertTxs(t, rows, n)[k].totalIn == TotalWith(t, u, TxRowKeys(rows, n), hasPrevouts, k)
  {
    if n > 0 {
      hide UpsertTx, TotalWith, RefreshesTo, TxsSound;
      UpsertTotals(t, rows, n - 1, u, hasPrevouts);
      assert rows[n - 1] in rows;
      UpsertTotal(t, UpsertTxs(t, rows, n - 1), rows[n - 1], u, TxRowKeys(rows, n - 1), hasPrevouts);
      assert TxRowKeys(rows, n) == TxRowKeys(rows, n - 1) + {rows[n - 1].txid};
    }
  }

  /** An extraction adds the rows of its block; with inline prevouts it sets every total that is not 0. */
  ghost predicate Extends(chain: seq<Block>, db: Tables, db': Tables, h: int, hasPrevouts: bool)
    requires 0 <= h < |chain| && chain[h].time.Some?
  {
    var own := AllTxKeys(TxRowsAtHeight(chain, h));
    && db'.txs.Keys == db.txs.Keys + own
    && db'.io.Keys
       == db.io.Keys + AllIoKeys(OutRowsAtHeight(chain, h))
          + (if hasPrevouts then AllIoKeys(InRowsAtHeight(chain, h)) else {})
    && db'.spends.Keys == db.spends.Keys + AllSpendKeys(SpendRowsAtHeight(chain, h))
    && forall k | k in db'.txs ::
         k in FullTxs(chain) && db'.txs[k].totalIn
         == if hasPrevouts && k in own && FullTxs(chain)[k].totalIn > 0 then FullTxs(chain)[k].totalIn
            else if k in db.txs then db.txs[k].totalIn else 0
  }

  lemma ExtractExtends(chain: seq<Block>, db: Tables, h: int, hasPrevouts: bool)
    requires WellFormed(chain) && 0 <= h < |chain| && Sound(chain, db)
    ensures chain[h].time.Some?
    ensures var r := ExtractBlock(db, chain[h], h, hasPrevouts);
            r.Some? && Sound(chain, r.value) && Extends(chain, db, r.value, h, hasPrevouts)
  {
    hide FullIo, FullTxs, FullSpends, WellFormed, AllTxKeys, AllIoKeys, AllSpendKeys, TxRowsAtHeight, InRowsAtHeight,
         Kept, TxsSound, Within, IoRowsAgree, SpendRowsAgree, TxRowsAgree, WriteParsed;
    WellFormedBlock(chain, h);
    StagedAgrees(chain, h, hasPrevouts);
    RowKeysAtHeight(chain, h, hasPrevouts);
    ExtractKeepsSound(chain, db, h, hasPrevouts);
    var p := Staged(chain[h], h, hasPrevouts).value;
    if Kept(chain[h]) {
      SpendersOfChain(chain);
      WriteExtends(FullTables(chain), db, p, hasPrevouts);
      IoKeysConcat(p.outRows, p.inRows);
    } else {
      SkippedHasNoSpends(chain, h);
      SkippedHasNoIns(chain, h);
      SoundTxs(chain, db);
    }
  }

  lemma SkippedHasNoIns(chain: seq<Block>, h: int)
    requires 0 <= h < |chain| && chain[h].time.Some? && !Kept(chain[h])
    ensures AllIoKeys(InRowsAtHeight(chain, h)) == {}
  {
    SkippedHasNoSpends(chain, h);
  }

  lemma SoundTxs(chain: seq<Block>, db: Tables)
    requires Sound(chain, db)
    ensures forall k | k in db.txs :: k in FullTxs(chain)
  {
  }

  lemma WriteExtends(full: Tables, db: Tables, p: Parsed, hasPrevouts: bool)
    requires TxsSound(db.txs, full.txs) && Within(db.io, full.io) && Within(db.spends, full.spends)
             && SpendersDiffer(full.spends)
    requires TxRowsAgree(p.txRows, full.txs, hasPrevouts)
    requires IoRowsAgree(p.outRows + p.inRows, full.io) && SpendRowsAgree(p.spendRows, full.spends)
    ensures var r := WriteParsed(db, p);
            && r.Some?
            && r.value.txs.Keys == db.txs.Keys + AllTxKeys(p.txRows)
            && r.value.io.Keys == db.io.Keys + AllIoKeys(p.outRows + p.inRows)
            && r.value.spends.Keys == db.spends.Keys + AllSpendKeys(p.spendRows)
            && forall k | k in r.value.txs ::
                 k in full.txs && r.value.txs[k].totalIn
                 == if hasPrevouts && k in AllTxKeys(p.txRows) && full.txs[k].totalIn > 0 then full.txs[k].totalIn
                    else if k in db.txs then db.txs[k].totalIn else 0
  {
    hide TxRowKeys, IoRowKeys, SpendRowKeys, UpsertTxs, InsertIo, InsertSpends, SpendersDiffer, RepeatsTxid, TxsSound,
         Within;
    DifferentRowsGoIn(db.txs, p.txRows, |p.txRows|);
    UpsertTotals(db.txs, p.txRows, |p.txRows|, full.txs, hasPrevouts);
    InsertIoWithin(db.io, p.outRows + p.inRows, |p.outRows + p.inRows|, full.io);
    InsertSpendsWithin(db.spends, p.spendRows, |p.spendRows|, full.spends);
  }

  /** A backfill adds the in rows it knows, and sets totals that are still 0. */
  ghost predicate FillsIn(chain: seq<Block>, db: Tables, db': Tables, h: int, hasPrevouts: bool)
    requires 0 <= h < |chain| && chain[h].time.Some?
  {
    var totals := FilledTotals(db.io, chain[h], hasPrevouts);
    && db'.txs.Keys == db.txs.Keys
    && db'.io.Keys == db.io.Keys + InputKeysFound(chain, db.io, h, hasPrevouts)
    && db'.spends.Keys == db.spends.Keys + AllSpendKeys(SpendRowsAtHeight(chain, h))
    && forall k | k in db.txs ::
         db'.txs[k].totalIn == if k in totals && db.txs[k].totalIn == 0 then totals[k] else db.txs[k].totalIn
  }

  lemma BackfillFills(chain: seq<Block>, db: Tables, h: int, hasPrevouts: bool)
    requires WellFormed(chain) && 0 <= h < |chain| && Sound(chain, db)
    ensures chain[h].time.Some?
    ensures var r := BackfillBlock(db, chain[h], h, hasPrevouts);
            r.Some? && Sound(chain, r.value) && FillsIn(chain, db, r.value, h, hasPrevouts)
  {
    hide FullIo, FullTxs, FullSpends, FilledRows, FilledTotals, WellFormed, Within, IoRowsAgree, SpendersDiffer,
         AllIoKeys;
    WellFormedBlock(chain, h);
    BackfillKeepsSound(chain, db, h, hasPrevouts);
    var rows, spendRows := FilledRows(db.io, chain[h], hasPrevouts), SpendRowsAtHeight(chain, h);
    SpendersOfChain(chain);
    FoundKeysAre(chain, db.io, h, hasPrevouts);
    SpendsAgree(chain, h);
    FilledKeys(db.io, rows, FullIo(chain));
    InsertSpendsWithin(db.spends, spendRows, |spendRows|, FullSpends(chain));
  }

  // ----- exactly when a backfill completes its block -----

  /** Every input of worth has its in row, every stored transaction its whole total. */
  ghost predicate HeightComplete(chain: seq<Block>, db: Tables, h: int)
    requires 0 <= h < |chain|
  {
    && (forall i, j | InAt(chain[h], i, j) :: IoKeyOf(InRow(chain[h].txs[i], j)) in db.io)
    && (forall i | TxAt(chain, h, i) && Kept(chain[h]) ::
        TotalIs(chain, db, h, i, InTotal(chain[h].txs[i], |chain[h].txs[i].vins|)))
  }

  ghost predicate TotalIs(chain: seq<Block>, db: Tables, h: int, i: int, total: int)
    requires TxAt(chain, h, i)
  {
    var t := chain[h].txs[i].txid.value;
    t in db.txs && db.txs[t].totalIn == total
  }

  /** The lookup of a transaction's inputs finds all of them. */
  ghost predicate FindsAll(chain: seq<Block>, io: set<IoKey>, h: int, i: int, hasPrevouts: bool)
    requires TxAt(chain, h, i)
  {
    hasPrevouts || !AnyMissed(chain, io, h, i, |chain[h].txs[i].vins|)
  }

  ghost predicate FindsSome(chain: seq<Block>, io: set<IoKey>, h: int, i: int, hasPrevouts: bool)
    requires TxAt(chain, h, i)
  {
    hasPrevouts || AnyFound(chain, io, h, i, |chain[h].txs[i].vins|)
  }

  /** An input gets its row if and only if it comes inline or its spent output's row is stored. */
  lemma FoundKeyIff(chain: seq<Block>, io: IoTable, h: int, i: int, j: int, hasPrevouts: bool)
    requires WellFormed(chain) && 0 <= h < |chain| && Within(io, FullIo(chain)) && InAt(chain[h], i, j)
    ensures IoKeyOf(InRow(chain[h].txs[i], j)) in InputKeysFound(chain, io, h, hasPrevouts) <==>
            hasPrevouts || PrevKey(chain[h].txs[i].vins[j]) in io
  {
    var b, r, found := chain[h], InRow(chain[h].txs[i], j), FilledRows(io, chain[h], hasPrevouts);
    if hasPrevouts || PrevKey(b.txs[i].vins[j]) in io {
      assert InputAt(chain, h, i, j);
      ContributionIs(chain, io, h, i, j, hasPrevouts);
      assert Backfill.Fills(io, b, hasPrevouts, i, j, r);
      FilledRowsAre(io, b, hasPrevouts, r);
      IoRowKeysAre(found, |found|);
      var m :| 0 <= m < |found| && found[m] == r;
    } else if IoKeyOf(r) in InputKeysFound(chain, io, h, false) {
      FoundInputIsStored(chain, io, h, i, j);
    }
  }

  /** What a backfill makes of one transaction's total. */
  lemma TotalAfterBackfill(chain: seq<Block>, db: Tables, h: int, i: int, hasPrevouts: bool)
    requires WellFormed(chain) && TxAt(chain, h, i) && Sound(chain, db) && chain[h].txs[i].txid.value in db.txs
    ensures var tx := chain[h].txs[i]; var total := FilledTotals(db.io, chain[h], hasPrevouts);
            && tx.txid.value in total
            && 0 <= total[tx.txid.value] <= InTotal(tx, |tx.vins|)
            && (total[tx.txid.value] == InTotal(tx, |tx.vins|) <==> FindsAll(chain, db.io.Keys, h, i, hasPrevouts))
            && (!hasPrevouts ==> (total[tx.txid.value] == 0 <==> !FindsSome(chain, db.io.Keys, h, i, hasPrevouts)))
  {
    hide FullIo, FullTxs, FullSpends, Within, FilledTotals, ContributionTotal, AnyFound, AnyMissed, InTotal, TxsSound;
    var tx := chain[h].txs[i];
    WellFormedBlock(chain, h);
    FilledTotalsAre(db.io, chain[h], hasPrevouts, i);
    if hasPrevouts {
      ContributionTotalIs(chain, db.io, h, i, |tx.vins|, true);
    } else {
      PartialSum(chain, db.io, h, i, |tx.vins|);
    }
  }

  /**
   On any sound tables in which the block is extracted, a backfill completes the block if and only
   if every input of worth has its row, comes inline or is found, and every total is whole already
   or is still 0 and is found whole now.
   */
  lemma BackfillFillsIff(chain: seq<Block>, db: Tables, h: int, hasPrevouts: bool)
    requires WellFormed(chain) && 0 <= h < |chain| && Sound(chain, db) && chain[h].time.Some?
             && OutsStored(chain, db, h)
    ensures var after := BackfillBlock(db, chain[h], h, hasPrevouts);
            after.Some? && (HeightComplete(chain, after.value, h) <==>
              && (forall i, j | InAt(chain[h], i, j) ::
                    IoKeyOf(InRow(chain[h].txs[i], j)) in db.io || hasPrevouts
                    || PrevKey(chain[h].txs[i].vins[j]) in db.io)
              && (forall i | TxAt(chain, h, i) && Kept(chain[h]) ::
                    || TotalIs(chain, db, h, i, InTotal(chain[h].txs[i], |chain[h].txs[i].vins|))
                    || (TotalIs(chain, db, h, i, 0) && FindsAll(chain, db.io.Keys, h, i, hasPrevouts))))
  {
    hide FullIo, FullTxs, FullSpends, Within, FilledTotals, FilledRows, AnyFound, AnyMissed, InTotal, TxsSound, Kept,
         BackfillBlock, InputKeysFound, AllTxKeys, AllIoKeys, AllSpendKeys, WellFormed, FindsAll, FindsSome;
    BackfillFills(chain, db, h, hasPrevouts);
    var after := BackfillBlock(db, chain[h], h, hasPrevouts).value;
    forall i, j | InAt(chain[h], i, j)
      ensures IoKeyOf(InRow(chain[h].txs[i], j)) in after.io <==>
              IoKeyOf(InRow(chain[h].txs[i], j)) in db.io || hasPrevouts || PrevKey(chain[h].txs[i].vins[j]) in db.io
    {
      FoundKeyIff(chain, db.io, h, i, j, hasPrevouts);
    }
    forall i | TxAt(chain, h, i) && Kept(chain[h])
      ensures TotalIs(chain, after, h, i, InTotal(chain[h].txs[i], |chain[h].txs[i].vins|)) <==>
              || TotalIs(chain, db, h, i, InTotal(chain[h].txs[i], |chain[h].txs[i].vins|))
              || (TotalIs(chain, db, h, i, 0) && FindsAll(chain, db.io.Keys, h, i, hasPrevouts))
    {
      ExtractedTx(chain, db, h, i);
      TotalAfterBackfill(chain, db, h, i, hasPrevouts);
    }
  }

  lemma ExtractedTx(chain: seq<Block>, db: Tables, h: int, i: int)
    requires TxAt(chain, h, i) && Kept(chain[h]) && chain[h].time.Some? && OutsStored(chain, db, h)
    ensures chain[h].txs[i].txid.value in db.txs
  {
    var rows, r := TxRowsAtHeight(chain, h), TxRowOf(chain[h].txs[i], chain[h], true);
    BlockTxRowsAre(chain[h], |chain[h].txs|, true, r);
    TxRowKeysAre(rows, |rows|);
    var m :| 0 <= m < |rows| && rows[m] == r;
  }

  // ----- whole histories -----

  /** What the queue asks: a block is backfilled only after it is extracted. */
  ghost predicate Gated(chain: seq<Block>, ws: seq<Write>) {
    forall n | 0 <= n < |ws| :: 0 <= ws[n].height < |chain| && (ws[n].BackfillW? ==> ws[n].height in Extracted(ws, n))
  }

  /** What has become of a transaction's total of inputs. */
  datatype Fate = Untouched | Whole | Partial

  /** An extraction with inline prevouts makes it whole; else the first backfill that finds anything decides. */
  ghost function FateOf(chain: seq<Block>, ws: seq<Write>, n: nat, h: int, i: int): Fate
    requires n <= |ws| && TxAt(chain, h, i)
  {
    if n == 0 then Untouched
    else
      var before, w, stored := FateOf(chain, ws, n - 1, h, i), ws[n - 1], OutKeys(chain, Extracted(ws, n - 1));
      if w.height != h then before
      else if w.ExtractW? then (if w.hasPrevouts then Whole else before)
      else if before != Untouched then before
      else if FindsAll(chain, stored, h, i, w.hasPrevouts) then Whole
      else if FindsSome(chain, stored, h, i, w.hasPrevouts) then Partial
      else Untouched
  }

  ghost function OutsIn(ks: set<IoKey>): set<IoKey> {
    set k | k in ks && k.io == Out
  }

  ghost function InsIn(ks: set<IoKey>): set<IoKey> {
    set k | k in ks && k.io == In
  }

  lemma KindsAdd(ks: set<IoKey>, outs: set<IoKey>, ins: set<IoKey>)
    requires (forall k | k in outs :: k.io == Out) && (forall k | k in ins :: k.io == In)
    ensures OutsIn(ks + outs + ins) == OutsIn(ks) + outs && InsIn(ks + outs + ins) == InsIn(ks) + ins
  {
  }

  /** Which rows are stored after a history; of the in rows, only that they are of filled heights. */
  ghost predicate KeysAre(chain: seq<Block>, db: Tables, extracted: set<int>, filled: set<int>) {
    && db.txs.Keys == TxKeys(chain, extracted)
    && OutsIn(db.io.Keys) == OutKeys(chain, extracted)
    && InsIn(db.io.Keys) <= InKeys(chain, filled)
    && db.spends.Keys == SpendKeys(chain, extracted)
  }

  lemma HeightKinds(chain: seq<Block>, h: int)
    requires 0 <= h < |chain|
    ensures forall k | k in AllIoKeys(OutRowsAtHeight(chain, h)) :: k.io == Out
    ensures forall k | k in AllIoKeys(InRowsAtHeight(chain, h)) :: k.io == In
  {
    KeyKinds(chain, {h});
    OutKeysGrow(chain, {}, h);
    InKeysGrow(chain, {}, h);
    assert {} + {h} == {h};
  }

  lemma ExtractKeys(chain: seq<Block>, db: Tables, db': Tables, e: set<int>, f: set<int>, h: int, hasPrevouts: bool)
    requires 0 <= h < |chain| && chain[h].time.Some? && KeysAre(chain, db, e, f)
             && Extends(chain, db, db', h, hasPrevouts)
    ensures KeysAre(chain, db', e + {h}, if hasPrevouts then f + {h} else f)
  {
    hide TxKeys, OutKeys, InKeys, SpendKeys, AllTxKeys, AllIoKeys, AllSpendKeys, OutsIn, InsIn;
    TxKeysGrow(chain, e, h);
    OutKeysGrow(chain, e, h);
    SpendKeysGrow(chain, e, h);
    InKeysGrow(chain, f, h);
    HeightKinds(chain, h);
    KindsAdd(db.io.Keys, AllIoKeys(OutRowsAtHeight(chain, h)),
             if hasPrevouts then AllIoKeys(InRowsAtHeight(chain, h)) else {});
  }

  lemma BackfillKeys(chain: seq<Block>, db: Tables, db': Tables, e: set<int>, f: set<int>, h: int, hasPrevouts: bool)
    requires WellFormed(chain) && 0 <= h < |chain| && chain[h].time.Some? && KeysAre(chain, db, e, f) && h in e
    requires Sound(chain, db) && FillsIn(chain, db, db', h, hasPrevouts)
    ensures KeysAre(chain, db', e, f + {h})
  {
    hide TxKeys, OutKeys, InKeys, SpendKeys, AllTxKeys, AllIoKeys, AllSpendKeys, OutsIn, InsIn, WellFormed,
         InputKeysFound, FullIo, FullTxs, FullSpends, FilledTotals, FilledRows, IoRowsAgree;
    FoundKeysAre(chain, db.io, h, hasPrevouts);
    SpendKeysGrow(chain, e, h);
    InKeysGrow(chain, f, h);
    HeightKinds(chain, h);
    var found := InputKeysFound(chain, db.io, h, hasPrevouts);
    KindsAdd(db.io.Keys, {}, found);
    assert db.io.Keys + {} + found == db'.io.Keys;
    assert e + {h} == e;
  }

  lemma EmptyKeys(chain: seq<Block>)
    ensures KeysAre(chain, EMPTY, {}, {}) && Sound(chain, EMPTY)
  {
  }

  lemma {:induction false} RunKeys(chain: seq<Block>, ws: seq<Write>, n: nat)
    requires WellFormed(chain) && Gated(chain, ws) && n <= |ws|
    ensures var db := Run(chain, EMPTY, ws, n);
            Sound(chain, db) && KeysAre(chain, db, Extracted(ws, n), Filled(ws, n))
  {
    hide WellFormed, ExtractBlock, BackfillBlock, KeysAre, Sound, Extends, FillsIn;
    if n == 0 {
      EmptyKeys(chain);
    } else {
      RunKeys(chain, ws, n - 1);
      var w, db, e, f := ws[n - 1], Run(chain, EMPTY, ws, n - 1), Extracted(ws, n - 1), Filled(ws, n - 1);
      if w.ExtractW? {
        ExtractExtends(chain, db, w.height, w.hasPrevouts);
        ExtractKeys(chain, db, Run(chain, EMPTY, ws, n), e, f, w.height, w.hasPrevouts);
        assert Filled(ws, n) == if w.hasPrevouts then f + {w.height} else f;
      } else {
        BackfillFills(chain, db, w.height, w.hasPrevouts);
        BackfillKeys(chain, db, Run(chain, EMPTY, ws, n), e, f, w.height, w.hasPrevouts);
        assert Extracted(ws, n) == e;
      }
    }
  }

  /** What a fate looks like in the tables of a transaction's extracted block. */
  ghost predicate Shows(chain: seq<Block>, db: Tables, h: int, i: int, fate: Fate)
    requires TxAt(chain, h, i)
  {
    var tx := chain[h].txs[i];
    && tx.txid.value in db.txs
    && var total, full := db.txs[tx.txid.value].totalIn, InTotal(tx, |tx.vins|);
       match fate
       case Untouched => total == 0
       case Partial => 0 < total < full
       case Whole => total == full && InsStored(chain, db, h, i)
  }

  ghost predicate InsStored(chain: seq<Block>, db: Tables, h: int, i: int)
    requires TxAt(chain, h, i)
  {
    forall j | InAt(chain[h], i, j) :: IoKeyOf(InRow(chain[h].txs[i], j)) in db.io
  }

  /** Writes of other heights do not show in a transaction's total. */
  lemma NotOfHeight(chain: seq<Block>, h: int, i: int, h': int, io: IoTable, hasPrevouts: bool)
    requires WellFormed(chain) && TxAt(chain, h, i) && Kept(chain[h]) && 0 <= h' < |chain| && h' != h
             && chain[h'].time.Some?
    ensures chain[h].txs[i].txid.value !in AllTxKeys(TxRowsAtHeight(chain, h'))
    ensures chain[h].txs[i].txid.value !in FilledTotals(io, chain[h'], hasPrevouts)
  {
    var t := chain[h].txs[i].txid.value;
    TxOfHeight(chain, {h'}, h, i);
    TxKeysGrow(chain, {}, h');
    assert {} + {h'} == {h'};
    FilledTotalsKeys(io, chain[h'], hasPrevouts, t);
    forall i' | 0 <= i' < |chain[h'].txs| && KnownTx(chain[h'].txs[i'])
      ensures chain[h'].txs[i'].txid.value != t
    {
      assert TxAt(chain, h', i') && TxAt(chain, h, i);
    }
  }

  lemma OtherHeightKeepsFate(chain: seq<Block>, db: Tables, db': Tables, w: Write, h: int, i: int, fate: Fate)
    requires WellFormed(chain) && TxAt(chain, h, i) && Kept(chain[h]) && Shows(chain, db, h, i, fate)
    requires 0 <= w.height < |chain| && w.height != h && chain[w.height].time.Some?
    requires if w.ExtractW? then Extends(chain, db, db', w.height, w.hasPrevouts)
             else FillsIn(chain, db, db', w.height, w.hasPrevouts)
    ensures Shows(chain, db', h, i, fate)
  {
    hide WellFormed, AllTxKeys, AllIoKeys, AllSpendKeys, InTotal, FilledTotals, InputKeysFound, FullTxs, TxRowsAtHeight,
         OutRowsAtHeight, InRowsAtHeight;
    NotOfHeight(chain, h, i, w.height, db.io, w.hasPrevouts);
  }

  lemma FullTotalIs(chain: seq<Block>, h: int, i: int)
    requires WellFormed(chain) && TxAt(chain, h, i) && Kept(chain[h])
    ensures var tx := chain[h].txs[i];
            && tx.txid.value in FullTxs(chain) && FullTxs(chain)[tx.txid.value].totalIn == InTotal(tx, |tx.vins|)
            && chain[h].time.Some? && tx.txid.value in AllTxKeys(TxRowsAtHeight(chain, h))
  {
    WellFormedBlock(chain, h);
    TxStored(chain, h, i);
    OwnKey(chain, h, i);
  }

  lemma OwnKey(chain: seq<Block>, h: int, i: int)
    requires WellFormed(chain) && TxAt(chain, h, i) && Kept(chain[h]) && chain[h].time.Some?
    ensures chain[h].txs[i].txid.value in AllTxKeys(TxRowsAtHeight(chain, h))
  {
    hide WellFormed, DistinctTxids, AllTxKeys, TxRowsAtHeight, Kept;
    TxOfHeight(chain, {h}, h, i);
    TxKeysGrow(chain, {}, h);
    assert {} + {h} == {h};
    assert TxKeys(chain, {}) == {};
  }

  /** All in rows of a height are stored once they are written inline. */
  lemma InRowsStored(chain: seq<Block>, db: Tables, h: int, i: int)
    requires TxAt(chain, h, i) && AllIoKeys(InRowsAtHeight(chain, h)) <= db.io.Keys
    ensures InsStored(chain, db, h, i)
  {
    forall j | InAt(chain[h], i, j)
      ensures IoKeyOf(InRow(chain[h].txs[i], j)) in db.io
    {
      InputHasKey(chain, h, i, j);
    }
  }

  lemma ExtractShows(chain: seq<Block>, db: Tables, db': Tables, h: int, i: int, hasPrevouts: bool, fate: Fate)
    requires WellFormed(chain) && TxAt(chain, h, i) && Kept(chain[h]) && chain[h].time.Some?
    requires Extends(chain, db, db', h, hasPrevouts)
    requires if chain[h].txs[i].txid.value in db.txs then Shows(chain, db, h, i, fate) else fate == Untouched
    ensures Shows(chain, db', h, i, if hasPrevouts then Whole else fate)
  {
    hide WellFormed, AllTxKeys, AllIoKeys, AllSpendKeys, InTotal, FullTxs, TxRowsAtHeight, OutRowsAtHeight,
         InRowsAtHeight, Kept;
    FullTotalIs(chain, h, i);
    if hasPrevouts {
      InRowsStored(chain, db', h, i);
    }
  }

  lemma BackfillShows(chain: seq<Block>, db: Tables, db': Tables, h: int, i: int, hasPrevouts: bool, fate: Fate)
    requires WellFormed(chain) && TxAt(chain, h, i) && Kept(chain[h]) && chain[h].time.Some?
    requires Sound(chain, db) && FillsIn(chain, db, db', h, hasPrevouts) && Shows(chain, db, h, i, fate)
    ensures Shows(chain, db', h, i,
                  if fate != Untouched then fate
                  else if FindsAll(chain, db.io.Keys, h, i, hasPrevouts) then Whole
                  else if FindsSome(chain, db.io.Keys, h, i, hasPrevouts) then Partial
                  else Untouched)
  {
    hide WellFormed, AllTxKeys, AllIoKeys, AllSpendKeys, InTotal, FullTxs, TxRowsAtHeight, OutRowsAtHeight,
         InRowsAtHeight, Kept, FilledTotals, InputKeysFound, FindsAll, FindsSome, TxsSound, Within, FullIo, FullSpends;
    TotalAfterBackfill(chain, db, h, i, hasPrevouts);
    if FindsAll(chain, db.io.Keys, h, i, hasPrevouts) {
      FoundRowsStored(chain, db, db', h, i, hasPrevouts);
    }
    FindsAllIsSome(chain, db.io.Keys, h, i, hasPrevouts);
  }

  lemma FindsAllIsSome(chain: seq<Block>, io: set<IoKey>, h: int, i: int, hasPrevouts: bool)
    requires TxAt(chain, h, i)
    ensures hasPrevouts ==> FindsAll(chain, io, h, i, hasPrevouts)
  {
  }

  lemma FoundRowsStored(chain: seq<Block>, db: Tables, db': Tables, h: int, i: int, hasPrevouts: bool)
    requires WellFormed(chain) && TxAt(chain, h, i) && chain[h].time.Some? && Sound(chain, db)
    requires FillsIn(chain, db, db', h, hasPrevouts) && FindsAll(chain, db.io.Keys, h, i, hasPrevouts)
    ensures InsStored(chain, db', h, i)
  {
    hide WellFormed, AllTxKeys, AllIoKeys, AllSpendKeys, FullTxs, FullIo, FullSpends, FilledTotals, InputKeysFound,
         Within;
    forall j | InAt(chain[h], i, j)
      ensures IoKeyOf(InRow(chain[h].txs[i], j)) in db'.io
    {
      FoundKeyIff(chain, db.io, h, i, j, hasPrevouts);
      assert hasPrevouts || !Missed(chain, db.io.Keys, h, i, j);
    }
  }

  /** Lookups see the out rows only, so a fate depends on the extracted heights alone. */
  lemma LookupsSee(chain: seq<Block>, db: Tables, e: set<int>, f: set<int>, h: int, i: int, hasPrevouts: bool)
    requires KeysAre(chain, db, e, f) && TxAt(chain, h, i)
    ensures FindsAll(chain, db.io.Keys, h, i, hasPrevouts) == FindsAll(chain, OutKeys(chain, e), h, i, hasPrevouts)
    ensures FindsSome(chain, db.io.Keys, h, i, hasPrevouts) == FindsSome(chain, OutKeys(chain, e), h, i, hasPrevouts)
  {
    hide OutKeys, InKeys, TxKeys, SpendKeys;
    forall j
      ensures Found(chain, db.io.Keys, h, i, j) <==> Found(chain, OutKeys(chain, e), h, i, j)
      ensures Missed(chain, db.io.Keys, h, i, j) <==> Missed(chain, OutKeys(chain, e), h, i, j)
    {
      if InAt(chain[h], i, j) {
        var k := PrevKey(chain[h].txs[i].vins[j]);
        assert k in OutsIn(db.io.Keys) <==> k in db.io.Keys;
      }
    }
  }

  /** In every gated history each transaction's total shows its fate. */
  lemma {:induction false} FateShows(chain: seq<Block>, ws: seq<Write>, n: nat, h: int, i: int)
    requires WellFormed(chain) && Gated(chain, ws) && n <= |ws| && TxAt(chain, h, i) && Kept(chain[h])
    ensures h in Extracted(ws, n) ==> Shows(chain, Run(chain, EMPTY, ws, n), h, i, FateOf(chain, ws, n, h, i))
    ensures h !in Extracted(ws, n) ==> h !in Filled(ws, n)
    ensures h !in Filled(ws, n) ==> FateOf(chain, ws, n, h, i) == Untouched
  {
    hide WellFormed, ExtractBlock, BackfillBlock, KeysAre, Sound, Extends, FillsIn, Shows, FindsAll, FindsSome, OutKeys,
         Kept, Gated;
    if n > 0 {
      GateHolds(chain, ws, n - 1);
      FateShows(chain, ws, n - 1, h, i);
      RunKeys(chain, ws, n - 1);
      var w, db, e, f := ws[n - 1], Run(chain, EMPTY, ws, n - 1), Extracted(ws, n - 1), Filled(ws, n - 1);
      var db', fate := Run(chain, EMPTY, ws, n), FateOf(chain, ws, n - 1, h, i);
      if w.ExtractW? {
        ExtractExtends(chain, db, w.height, w.hasPrevouts);
        if w.height == h {
          StoredIff(chain, db, e, f, h, i);
          ExtractShows(chain, db, db', h, i, w.hasPrevouts, fate);
        } else if h in e {
          OtherHeightKeepsFate(chain, db, db', w, h, i, fate);
        }
      } else {
        BackfillFills(chain, db, w.height, w.hasPrevouts);
        if w.height == h {
          LookupsSee(chain, db, e, f, h, i, w.hasPrevouts);
          BackfillShows(chain, db, db', h, i, w.hasPrevouts, fate);
        } else if h in e {
          OtherHeightKeepsFate(chain, db, db', w, h, i, fate);
        }
      }
    }
  }

  lemma StoredIff(chain: seq<Block>, db: Tables, e: set<int>, f: set<int>, h: int, i: int)
    requires WellFormed(chain) && TxAt(chain, h, i) && Kept(chain[h]) && KeysAre(chain, db, e, f)
    ensures chain[h].txs[i].txid.value in db.txs <==> h in e
  {
    TxOfHeight(chain, e, h, i);
  }

  /** Every transaction of a filled height was found whole. */
  ghost predicate AllWhole(chain: seq<Block>, ws: seq<Write>) {
    forall h, i | TxAt(chain, h, i) && Kept(chain[h]) && h in Filled(ws, |ws|) :: FateOf(chain, ws, |ws|, h, i) == Whole
  }

  /** A fate still open after a backfill of the height means a total that is missing. */
  lemma {:induction false} OpenFateIsMissing(chain: seq<Block>, ws: seq<Write>, n: nat, h: int, i: int)
    requires WellFormed(chain) && n <= |ws| && TxAt(chain, h, i)
    requires h in Filled(ws, n) && FateOf(chain, ws, n, h, i) == Untouched
    ensures InTotal(chain[h].txs[i], |chain[h].txs[i].vins|) > 0
  {
    var w := ws[n - 1];
    if w.BackfillW? && w.height == h {
      var io := OutKeys(chain, Extracted(ws, n - 1));
      assert AnyMissed(chain, io, h, i, |chain[h].txs[i].vins|);
      var j :| j < |chain[h].txs[i].vins| && Missed(chain, io, h, i, j);
      assert InAt(chain[h], i, j);
      InputHasWorth(chain[h].txs[i], |chain[h].txs[i].vins|, j);
    } else {
      OpenFateIsMissing(chain, ws, n - 1, h, i);
    }
  }

  lemma {:induction false} InputHasWorth(tx: Tx, n: nat, j: int)
    requires n <= |tx.vins| && 0 <= j < n && Spends(tx.vins[j]) && InCoin(tx.vins[j]).Some?
    ensures InTotal(tx, n) > 0
  {
    if j < n - 1 {
      InputHasWorth(tx, n - 1, j);
    }
  }

  lemma WholeLedgerTotals(chain: seq<Block>, ws: seq<Write>, k: TxId)
    requires WellFormed(chain) && Gated(chain, ws) && k in Run(chain, EMPTY, ws, |ws|).txs && AllWhole(chain, ws)
    ensures var db, full := Run(chain, EMPTY, ws, |ws|), FullTxs(chain);
            k in full && db.txs[k] == if k in TxKeys(chain, Filled(ws, |ws|)) then full[k] else full[k].(totalIn := 0)
  {
    hide WellFormed, Run, KeysAre, FullIo, FullSpends, FullTxs, TxKeys, Kept, InTotal, Extracted, Filled, FateOf;
    var n := |ws|;
    var db := Run(chain, EMPTY, ws, n);
    RunKeys(chain, ws, n);
    SoundTxs(chain, db);
    var h, i := StoredTxPosition(chain, k);
    FullTotalIs(chain, h, i);
    TxOfHeight(chain, Filled(ws, n), h, i);
    StoredIff(chain, db, Extracted(ws, n), Filled(ws, n), h, i);
    FateShows(chain, ws, n, h, i);
  }

  lemma WholeLedgerIns(chain: seq<Block>, ws: seq<Write>, k: IoKey)
    requires WellFormed(chain) && Gated(chain, ws) && AllWhole(chain, ws) && k in InKeys(chain, Filled(ws, |ws|))
    ensures k in Run(chain, EMPTY, ws, |ws|).io
  {
    hide WellFormed, Run, Kept, Extracted, Filled, FateOf, InRow;
    var h, r :| h in Filled(ws, |ws|) && 0 <= h < |chain| && r in InRowsAtHeight(chain, h) && IoKeyOf(r) == k;
    var i, j := InRowPosition(chain, h, r);
    InputsAreKept(chain, h);
    assert FateOf(chain, ws, |ws|, h, i) == Whole;
    FateShows(chain, ws, |ws|, h, i);
  }

  lemma InputsAreKept(chain: seq<Block>, h: int)
    requires WellFormed(chain) && 0 <= h < |chain| && InRowsAtHeight(chain, h) != []
    ensures Kept(chain[h])
  {
    WellFormedBlock(chain, h);
    if !Kept(chain[h]) {
      SkippedHasNoSpends(chain, h);
    }
  }

  /**
   After any history in which backfills follow their own extraction, the tables are those of the
   heights extracted and filled if and only if every transaction of a filled height was found whole:
   by an inline extraction, or by the first backfill that found anything of it.
   */
  lemma {:induction false} HistoryIsLedgerIff(chain: seq<Block>, ws: seq<Write>)
    requires WellFormed(chain) && Gated(chain, ws)
    ensures Run(chain, EMPTY, ws, |ws|) == LedgerOf(chain, Extracted(ws, |ws|), Filled(ws, |ws|)) <==>
            AllWhole(chain, ws)
  {
    hide WellFormed, Run, FullIo, FullSpends, FullTxs, Kept, Extracted, Filled, TxKeys, OutKeys, InKeys, SpendKeys,
         AllWhole;
    var n := |ws|;
    var db, e, f := Run(chain, EMPTY, ws, n), Extracted(ws, n), Filled(ws, n);
    RunKeys(chain, ws, n);
    FilledWithin(chain, ws, n);
    StoredIsCovered(chain, e, f);
    RestrictedIs(db, FullTables(chain), StoredBy(chain, e, f));
    if AllWhole(chain, ws) {
      forall k | k in db.txs
        ensures k in FullTxs(chain) && db.txs[k]
                == if k in TxKeys(chain, f) then FullTxs(chain)[k] else FullTxs(chain)[k].(totalIn := 0)
      {
        WholeLedgerTotals(chain, ws, k);
      }
      forall k | k in InKeys(chain, f)
        ensures k in db.io
      {
        WholeLedgerIns(chain, ws, k);
      }
      KeyKinds(chain, f);
      KeyKinds(chain, e);
      assert db.io.Keys == OutsIn(db.io.Keys) + InsIn(db.io.Keys);
      assert db.io.Keys == OutKeys(chain, e) + InKeys(chain, f);
    } else {
      NotWholeTotal(chain, ws);
    }
  }

  lemma GateHolds(chain: seq<Block>, ws: seq<Write>, n: nat)
    requires Gated(chain, ws) && n < |ws|
    ensures 0 <= ws[n].height < |chain| && (ws[n].BackfillW? ==> ws[n].height in Extracted(ws, n))
  {
    hide Extracted;
  }

  lemma {:induction false} FilledWithin(chain: seq<Block>, ws: seq<Write>, n: nat)
    requires Gated(chain, ws) && n <= |ws|
    ensures Filled(ws, n) <= Extracted(ws, n)
  {
    hide Gated;
    if n > 0 {
      GateHolds(chain, ws, n - 1);
      FilledWithin(chain, ws, n - 1);
    }
  }

  /** Otherwise some stored total of a filled height is too low. */
  lemma NotWholeTotal(chain: seq<Block>, ws: seq<Write>)
    requires WellFormed(chain) && Gated(chain, ws) && !AllWhole(chain, ws)
    ensures exists k :: LowTotal(chain, Run(chain, EMPTY, ws, |ws|), k) && k in TxKeys(chain, Filled(ws, |ws|))
  {
    hide WellFormed, Run, FullTxs, Kept, Extracted, Filled, TxKeys, InTotal;
    var n := |ws|;
    var h, i :| TxAt(chain, h, i) && Kept(chain[h]) && h in Filled(ws, n) && FateOf(chain, ws, n, h, i) != Whole;
    FateShows(chain, ws, n, h, i);
    FilledWithin(chain, ws, n);
    FullTotalIs(chain, h, i);
    TxOfHeight(chain, Filled(ws, n), h, i);
    if FateOf(chain, ws, n, h, i) == Untouched {
      OpenFateIsMissing(chain, ws, n, h, i);
    }
    assert LowTotal(chain, Run(chain, EMPTY, ws, n), chain[h].txs[i].txid.value);
  }

  ghost predicate LowTotal(chain: seq<Block>, db: Tables, k: TxId) {
    k in db.txs && k in FullTxs(chain) && db.txs[k].totalIn < FullTxs(chain)[k].totalIn
  }

  /**
   Confluence over all gated histories: against one that found everything whole, another with the
   same heights extracted and filled ends in the same tables if and only if it did too.
   */
  lemma {:induction false} ConfluentIff(chain: seq<Block>, ws: seq<Write>, ws': seq<Write>)
    requires WellFormed(chain) && Gated(chain, ws) && Gated(chain, ws') && AllWhole(chain, ws)
    requires Extracted(ws, |ws|) == Extracted(ws', |ws'|) && Filled(ws, |ws|) == Filled(ws', |ws'|)
    ensures Run(chain, EMPTY, ws, |ws|) == Run(chain, EMPTY, ws', |ws'|) <==> AllWhole(chain, ws')
  {
    hide WellFormed, Run, AllWhole, LedgerOf, Extracted, Filled;
    HistoryIsLedgerIff(chain, ws);
    HistoryIsLedgerIff(chain, ws');
  }

  /** The fates in closed form for a history without backfills that come too early. */
  lemma {:induction false} WellTimedIsWhole(chain: seq<Block>, ws: seq<Write>)
    requires WellFormed(chain) && WellTimed(chain, ws)
    ensures Gated(chain, ws) && AllWhole(chain, ws)
  {
    hide WellFormed, Run, AllWhole, LedgerOf, Resolvable, OutKeys;
    RunIs(chain, ws, |ws|);
    HistoryIsLedgerIff(chain, ws);
  }
}
