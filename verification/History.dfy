/**
 What one extraction or backfill does to tables that complete writes have left.  Module TwoPass
 runs histories of them; module Fates covers the tables that partial backfills leave.
 */
module History {
  import opened Common
  import opened Chain
  import opened Rows
  import opened Extract
  import opened Ledger
  import opened Backfill
  import opened Confluence

  // ----- key sets, one height more -----

  lemma TxKeysGrow(chain: seq<Block>, hs: set<int>, h: int)
    requires 0 <= h < |chain| && chain[h].time.Some?
    ensures TxKeys(chain, hs + {h}) == TxKeys(chain, hs) + AllTxKeys(TxRowsAtHeight(chain, h))
  {
    hide TxRowsAtHeight;
    var rows := TxRowsAtHeight(chain, h);
    TxRowKeysAre(rows, |rows|);
    forall k | k in AllTxKeys(rows)
      ensures k in TxKeys(chain, hs + {h})
    {
      var m :| 0 <= m < |rows| && rows[m].txid == k;
      assert rows[m] in rows;
    }
  }

  lemma SpendKeysGrow(chain: seq<Block>, hs: set<int>, h: int)
    requires 0 <= h < |chain| && chain[h].time.Some?
    ensures SpendKeys(chain, hs + {h}) == SpendKeys(chain, hs) + AllSpendKeys(SpendRowsAtHeight(chain, h))
  {
    var rows := SpendRowsAtHeight(chain, h);
    SpendRowKeysAre(rows, |rows|);
    forall k | k in AllSpendKeys(rows)
      ensures k in SpendKeys(chain, hs + {h})
    {
      var m :| 0 <= m < |rows| && OutpointOf(rows[m]) == k;
      assert rows[m] in rows;
    }
  }

  lemma OutKeysGrow(chain: seq<Block>, hs: set<int>, h: int)
    requires 0 <= h < |chain|
    ensures OutKeys(chain, hs + {h}) == OutKeys(chain, hs) + AllIoKeys(OutRowsAtHeight(chain, h))
  {
    var rows := OutRowsAtHeight(chain, h);
    IoRowKeysAre(rows, |rows|);
    forall k | k in AllIoKeys(rows)
      ensures k in OutKeys(chain, hs + {h})
    {
      var m :| 0 <= m < |rows| && IoKeyOf(rows[m]) == k;
      assert rows[m] in rows;
    }
  }

  lemma InKeysGrow(chain: seq<Block>, hs: set<int>, h: int)
    requires 0 <= h < |chain|
    ensures InKeys(chain, hs + {h}) == InKeys(chain, hs) + AllIoKeys(InRowsAtHeight(chain, h))
  {
    var rows := InRowsAtHeight(chain, h);
    IoRowKeysAre(rows, |rows|);
    forall k | k in AllIoKeys(rows)
      ensures k in InKeys(chain, hs + {h})
    {
      var m :| 0 <= m < |rows| && IoKeyOf(rows[m]) == k;
      assert rows[m] in rows;
    }
  }

  lemma {:induction false} IoKeysConcat(a: seq<IoRow>, b: seq<IoRow>)
    ensures AllIoKeys(a + b) == AllIoKeys(a) + AllIoKeys(b)
  {
    if |b| == 0 {
      assert a + b == a;
    } else {
      var n := |b| - 1;
      IoKeysConcat(a, b[..n]);
      IoKeysPrefix(a + b, |a| + n);
      IoKeysPrefix(b, n);
      assert (a + b)[..|a| + n] == a + b[..n];
    }
  }

  lemma {:induction false} IoKeysPrefix(rows: seq<IoRow>, n: nat)
    requires n <= |rows|
    ensures IoRowKeys(rows, n) == AllIoKeys(rows[..n])
    decreases n
  {
    if n > 0 {
      IoKeysPrefix(rows, n - 1);
      IoKeysPrefix(rows[..n], n - 1);
      assert rows[..n][..n - 1] == rows[..n - 1];
    }
  }

  lemma {:induction false} TxKeysIgnorePrevouts(b: Block, n: nat, hasPrevouts: bool)
    requires n <= |b.txs| && b.time.Some?
    ensures |BlockTxRows(b, n, hasPrevouts)| == |BlockTxRows(b, n, true)|
    ensures AllTxKeys(BlockTxRows(b, n, hasPrevouts)) == AllTxKeys(BlockTxRows(b, n, true))
  {
    if n > 0 {
      TxKeysIgnorePrevouts(b, n - 1, hasPrevouts);
      if KnownTx(b.txs[n - 1]) {
        TxKeysSnoc(BlockTxRows(b, n - 1, hasPrevouts), TxRowOf(b.txs[n - 1], b, hasPrevouts));
        TxKeysSnoc(BlockTxRows(b, n - 1, true), TxRowOf(b.txs[n - 1], b, true));
      } else {
        assert BlockTxRows(b, n, hasPrevouts) == BlockTxRows(b, n - 1, hasPrevouts);
        assert BlockTxRows(b, n, true) == BlockTxRows(b, n - 1, true);
      }
    }
  }

  lemma TxKeysSnoc(rows: seq<TxRow>, r: TxRow)
    ensures AllTxKeys(rows + [r]) == AllTxKeys(rows) + {r.txid}
  {
    TxKeysOfPrefix(rows, [r], |rows|);
  }

  lemma {:induction false} TxKeysOfPrefix(a: seq<TxRow>, b: seq<TxRow>, n: nat)
    requires n <= |a|
    ensures TxRowKeys(a + b, n) == TxRowKeys(a, n)
  {
    if n > 0 {
      TxKeysOfPrefix(a, b, n - 1);
    }
  }

  // ----- the rows of a well-formed chain agree with its complete tables -----

  lemma WellFormedBlock(chain: seq<Block>, h: int)
    requires WellFormed(chain) && 0 <= h < |chain|
    ensures chain[h].time.Some? && BlockTxidsDiffer(chain[h])
  {
    var b := chain[h];
    forall i, i' | 0 <= i < |b.txs| && 0 <= i' < |b.txs| && KnownTx(b.txs[i]) && KnownTx(b.txs[i'])
           && b.txs[i].txid == b.txs[i'].txid
      ensures i == i'
    {
      assert TxAt(chain, h, i) && TxAt(chain, h, i');
    }
  }

  lemma {:induction false} TxRowsDiffer(b: Block, n: nat, hasPrevouts: bool)
    requires n <= |b.txs| && b.time.Some? && BlockTxidsDiffer(b)
    ensures !RepeatsTxid(BlockTxRows(b, n, hasPrevouts))
  {
    if n > 0 {
      TxRowsDiffer(b, n - 1, hasPrevouts);
      var head, rows := BlockTxRows(b, n - 1, hasPrevouts), BlockTxRows(b, n, hasPrevouts);
      if KnownTx(b.txs[n - 1]) {
        forall m | 0 <= m < |head|
          ensures head[m].txid != b.txs[n - 1].txid.value
        {
          BlockTxRowsAre(b, n - 1, hasPrevouts, head[m]);
        }
        assert forall m | 0 <= m < |head| :: rows[m] == head[m];
      }
    }
  }

  lemma TxsAgree(chain: seq<Block>, h: int, hasPrevouts: bool)
    requires WellFormed(chain) && 0 <= h < |chain| && Kept(chain[h])
    ensures TxRowsAgree(BlockTxRows(chain[h], |chain[h].txs|, hasPrevouts), FullTxs(chain), hasPrevouts)
  {
    var b := chain[h];
    WellFormedBlock(chain, h);
    TxRowsDiffer(b, |b.txs|, hasPrevouts);
    forall r | r in BlockTxRows(b, |b.txs|, hasPrevouts)
      ensures RefreshesTo(r, FullTxs(chain), hasPrevouts)
    {
      BlockTxRowsAre(b, |b.txs|, hasPrevouts, r);
      var i :| 0 <= i < |b.txs| && KnownTx(b.txs[i]) && r == TxRowOf(b.txs[i], b, hasPrevouts);
      var u := TxRowOf(b.txs[i], b, true);
      BlockTxRowsAre(b, |b.txs|, true, u);
      FullTxsHas(chain, h, u);
    }
  }

  lemma SpendsAgree(chain: seq<Block>, h: int)
    requires WellFormed(chain) && 0 <= h < |chain| && chain[h].time.Some?
    ensures SpendRowsAgree(SpendRowsAtHeight(chain, h), FullSpends(chain))
  {
    forall r | r in SpendRowsAtHeight(chain, h)
      ensures OutpointOf(r) in FullSpends(chain) && FullSpends(chain)[OutpointOf(r)] == SpendEntryOf(r)
    {
      assert SpendRowOf(chain, h, r);
      FullSpendsHas(chain, h, r);
    }
  }

  lemma IoAgrees(chain: seq<Block>, h: int)
    requires WellFormed(chain) && 0 <= h < |chain|
    ensures IoRowsAgree(OutRowsAtHeight(chain, h), FullIo(chain))
    ensures IoRowsAgree(InRowsAtHeight(chain, h), FullIo(chain))
  {
    forall r | IoRowOf(chain, h, r)
      ensures ValidIoRow(r) && IoKeyOf(r) in FullIo(chain) && FullIo(chain)[IoKeyOf(r)] == IoEntryOf(r)
    {
      var i, j := IoRowPosition(chain, h, r);
      FullIoHas(chain, h, r);
    }
    assert forall r | r in OutRowsAtHeight(chain, h) :: IoRowOf(chain, h, r);
    assert forall r | r in InRowsAtHeight(chain, h) :: IoRowOf(chain, h, r);
  }

  lemma StoredIsCovered(chain: seq<Block>, extracted: set<int>, filled: set<int>)
    requires WellFormed(chain) && filled <= extracted
    ensures Covered(FullTables(chain), StoredBy(chain, extracted, filled))
  {
    FullSpendersDiffer(chain);
    assert TxKeys(chain, extracted) <= TxKeys(chain, Below(|chain|));
    assert OutKeys(chain, extracted) <= OutKeys(chain, Below(|chain|));
    assert InKeys(chain, filled) <= InKeys(chain, Below(|chain|));
    assert SpendKeys(chain, extracted) <= SpendKeys(chain, Below(|chain|));
  }

  // ----- extracting one block -----

  /** Extracting a block, first time or again, with inline prevouts or without. */
  lemma ExtractMeets(chain: seq<Block>, extracted: set<int>, filled: set<int>, h: int, hasPrevouts: bool)
    requires WellFormed(chain) && 0 <= h < |chain| && filled <= extracted
    ensures ExtractBlock(LedgerOf(chain, extracted, filled), chain[h], h, hasPrevouts)
            == Some(LedgerOf(chain, extracted + {h}, if hasPrevouts then filled + {h} else filled))
  {
    hide StoredBy, WellFormed, WriteParsed, AllTxKeys, AllIoKeys, AllSpendKeys, Restricted, Kept, TxRowsAtHeight;
    hide TxRowsAgree, IoRowsAgree, SpendRowsAgree, Covered;
    var s := StoredBy(chain, extracted, filled);
    var s' := StoredBy(chain, extracted + {h}, if hasPrevouts then filled + {h} else filled);
    WellFormedBlock(chain, h);
    var p := Staged(chain[h], h, hasPrevouts).value;
    RowKeysAtHeight(chain, h, hasPrevouts);
    StoredGrows(chain, extracted, filled, h);
    if p.features != FNone {
      StoredIsCovered(chain, extracted, filled);
      StagedAgrees(chain, h, hasPrevouts);
      IoKeysConcat(p.outRows, p.inRows);
      WriteMeets(FullTables(chain), s, p, hasPrevouts);
      assert s'.io == s.io + AllIoKeys(p.outRows + p.inRows);
    } else {
      assert s' == s;
    }
  }

  lemma StagedAgrees(chain: seq<Block>, h: int, hasPrevouts: bool)
    requires WellFormed(chain) && 0 <= h < |chain| && chain[h].time.Some?
    ensures var p := Staged(chain[h], h, hasPrevouts).value;
            && (Kept(chain[h]) <==> p.features != FNone)
            && (Kept(chain[h]) ==> TxRowsAgree(p.txRows, FullTxs(chain), hasPrevouts))
            && IoRowsAgree(p.outRows + p.inRows, FullIo(chain)) && SpendRowsAgree(p.spendRows, FullSpends(chain))
  {
    RowsShowPreviousTxid(chain[h], h);
    IoAgrees(chain, h);
    SpendsAgree(chain, h);
    if Kept(chain[h]) {
      TxsAgree(chain, h, hasPrevouts);
    }
  }

  lemma StoredGrows(chain: seq<Block>, extracted: set<int>, filled: set<int>, h: int)
    requires 0 <= h < |chain| && chain[h].time.Some?
    ensures var s := StoredBy(chain, extracted, filled);
            var txs, spends := AllTxKeys(TxRowsAtHeight(chain, h)), AllSpendKeys(SpendRowsAtHeight(chain, h));
            var outs, ins := AllIoKeys(OutRowsAtHeight(chain, h)), AllIoKeys(InRowsAtHeight(chain, h));
            && StoredBy(chain, extracted + {h}, filled)
               == Stored(s.txs + txs, s.totals, s.io + outs, s.spends + spends)
            && StoredBy(chain, extracted + {h}, filled + {h})
               == Stored(s.txs + txs, s.totals + txs, s.io + outs + ins, s.spends + spends)
            && StoredBy(chain, extracted, filled + {h})
               == Stored(s.txs, s.totals + txs, s.io + ins, s.spends)
  {
    hide TxRowsAtHeight, OutRowsAtHeight, InRowsAtHeight, SpendRowsAtHeight;
    hide TxKeys, SpendKeys, OutKeys, InKeys, AllTxKeys, AllIoKeys, AllSpendKeys;
    TxKeysGrow(chain, extracted, h);
    TxKeysGrow(chain, filled, h);
    SpendKeysGrow(chain, extracted, h);
    OutKeysGrow(chain, extracted, h);
    InKeysGrow(chain, filled, h);
  }

  lemma RowKeysAtHeight(chain: seq<Block>, h: int, hasPrevouts: bool)
    requires 0 <= h < |chain| && chain[h].time.Some?
    ensures var p := Staged(chain[h], h, hasPrevouts).value;
            && (p.features == FNone ==>
                  && AllTxKeys(TxRowsAtHeight(chain, h)) == {} && AllIoKeys(OutRowsAtHeight(chain, h)) == {}
                  && AllIoKeys(InRowsAtHeight(chain, h)) == {} && AllSpendKeys(SpendRowsAtHeight(chain, h)) == {})
            && (p.features != FNone ==> AllTxKeys(TxRowsAtHeight(chain, h)) == AllTxKeys(p.txRows))
            && OutRowsAtHeight(chain, h) == p.outRows && SpendRowsAtHeight(chain, h) == p.spendRows
            && AllIoKeys(p.inRows) == if hasPrevouts then AllIoKeys(InRowsAtHeight(chain, h)) else {}
  {
    var b := chain[h];
    RowsShowPreviousTxid(b, h);
    TxKeysIgnorePrevouts(b, |b.txs|, hasPrevouts);
  }

  // ----- what a lookup finds -----

  ghost function PrevKey(v: Vin): IoKey
    requires Spends(v)
  {
    IoKey(v.txid.value, Out, v.vout.value)
  }

  ghost function CoinEntry(c: Coin): IoEntry {
    IoEntry(c.owner.address, c.owner.kind, c.sats)
  }

  /** The stored out row an input names carries what its inline prevout says, and exists just when that has worth. */
  lemma PrevRowIsPrevout(chain: seq<Block>, h: int, i: int, j: int)
    requires WellFormed(chain) && InputAt(chain, h, i, j)
    ensures var v := chain[h].txs[i].vins[j];
            && (PrevKey(v) in FullIo(chain) <==> InCoin(v).Some?)
            && (InCoin(v).Some? ==> FullIo(chain)[PrevKey(v)] == CoinEntry(InCoin(v).value))
  {
    var v := chain[h].txs[i].vins[j];
    var h', i', j' :| Origin(chain, h, i, j, h', i', j');
    assert Origin(chain, h, i, j, h', i', j');
    var o := chain[h'].txs[i'].vouts[j'];
    assert InCoin(v) == OutCoin(o);
    if PrevKey(v) in FullIo(chain) {
      var h1, r :| IoRowOf(chain, h1, r) && IoKeyOf(r) == PrevKey(v);
      var i1, j1 := IoRowPosition(chain, h1, r);
      assert chain[h1].txs[i1].txid == chain[h'].txs[i'].txid;
      assert OutCoin(o).Some?;
    }
    if OutCoin(o).Some? {
      var r := OutRow(chain[h'].txs[i'], j');
      assert OutAt(chain[h'], i', j');
      BlockOutRowsAre(chain[h'], |chain[h'].txs|, r);
      assert IoRowOf(chain, h', r);
      FullIoHas(chain, h', r);
    }
  }

  lemma ContributionIs(chain: seq<Block>, io: IoTable, h: int, i: int, j: int, hasPrevouts: bool)
    requires WellFormed(chain) && InputAt(chain, h, i, j) && Within(io, FullIo(chain))
    ensures var v := chain[h].txs[i].vins[j];
            var c := Contribution(io, v, hasPrevouts);
            && (c.Some? <==> InCoin(v).Some? && (hasPrevouts || PrevKey(v) in io))
            && (c.Some? ==> c.value == CoinEntry(InCoin(v).value))
  {
    PrevRowIsPrevout(chain, h, i, j);
  }

  /** The stored rows a backfill of height `h` looks for, as far as the chain has them. */
  ghost predicate Resolvable(chain: seq<Block>, io: set<IoKey>, h: int)
    requires 0 <= h < |chain|
  {
    forall i, j | InAt(chain[h], i, j) :: PrevKey(chain[h].txs[i].vins[j]) in io
  }

  lemma FilledRowsAgree(chain: seq<Block>, io: IoTable, h: int, hasPrevouts: bool)
    requires WellFormed(chain) && 0 <= h < |chain| && Within(io, FullIo(chain))
    ensures forall r | r in FilledRows(io, chain[h], hasPrevouts) :: r in InRowsAtHeight(chain, h)
    ensures forall r | r in InRowsAtHeight(chain, h) && (hasPrevouts || Resolvable(chain, io.Keys, h)) ::
              r in FilledRows(io, chain[h], hasPrevouts)
  {
    var b := chain[h];
    forall r | r in FilledRows(io, b, hasPrevouts)
      ensures r in InRowsAtHeight(chain, h)
    {
      FilledRowsAre(io, b, hasPrevouts, r);
      var i, j :| Fills(io, b, hasPrevouts, i, j, r);
      assert Fills(io, b, hasPrevouts, i, j, r) && InputAt(chain, h, i, j);
      ContributionIs(chain, io, h, i, j, hasPrevouts);
      assert InAt(b, i, j) && r == InRow(b.txs[i], j);
      BlockInRowsAre(b, |b.txs|, r);
    }
    forall r | r in InRowsAtHeight(chain, h) && (hasPrevouts || Resolvable(chain, io.Keys, h))
      ensures r in FilledRows(io, b, hasPrevouts)
    {
      var i, j := InRowPosition(chain, h, r);
      ContributionIs(chain, io, h, i, j, hasPrevouts);
      assert Fills(io, b, hasPrevouts, i, j, r);
      FilledRowsAre(io, b, hasPrevouts, r);
    }
  }

  /** Lookups never find more than the input total, and all of it when nothing is missing. */
  lemma {:induction false} ContributionTotalIs(chain: seq<Block>, io: IoTable, h: int, i: int, n: nat,
                                               hasPrevouts: bool)
    requires WellFormed(chain) && TxAt(chain, h, i) && n <= |chain[h].txs[i].vins| && Within(io, FullIo(chain))
    ensures 0 <= ContributionTotal(io, chain[h].txs[i], n, hasPrevouts) <= InTotal(chain[h].txs[i], n)
    ensures hasPrevouts || Resolvable(chain, io.Keys, h) ==>
              ContributionTotal(io, chain[h].txs[i], n, hasPrevouts) == InTotal(chain[h].txs[i], n)
  {
    if n > 0 {
      ContributionTotalIs(chain, io, h, i, n - 1, hasPrevouts);
      var v := chain[h].txs[i].vins[n - 1];
      if Spends(v) {
        ContributionIs(chain, io, h, i, n - 1, hasPrevouts);
        assert InCoin(v).Some? ==> InAt(chain[h], i, n - 1);
      }
    }
  }

  // ----- backfilling one block -----

  /** A total for a stored transaction is a total for one of the block's own. */
  lemma TotalIsOwn(chain: seq<Block>, io: IoTable, extracted: set<int>, h: int, hasPrevouts: bool, k: TxId)
    requires WellFormed(chain) && 0 <= h < |chain|
    requires k in FilledTotals(io, chain[h], hasPrevouts) && k in TxKeys(chain, extracted)
    ensures chain[h].time.Some? && k in AllTxKeys(TxRowsAtHeight(chain, h))
  {
    hide FilledTotals;
    var b, rows := chain[h], TxRowsAtHeight(chain, h);
    TxRowKeysAre(rows, |rows|);
    FilledTotalsKeys(io, b, hasPrevouts, k);
    var i :| 0 <= i < |b.txs| && KnownTx(b.txs[i]) && b.txs[i].txid.value == k;
    var h', r :|
        h' in extracted && 0 <= h' < |chain| && chain[h'].time.Some? && r in TxRowsAtHeight(chain, h') && r.txid == k;
    var i' := TxRowPosition(chain, h', r);
    assert TxAt(chain, h, i) && chain[h].txs[i].txid == chain[h'].txs[i'].txid;
    var m :| 0 <= m < |rows| && rows[m] == r;
  }

  lemma OwnTotal(chain: seq<Block>, io: IoTable, h: int, hasPrevouts: bool, r: TxRow)
    requires WellFormed(chain) && 0 <= h < |chain| && chain[h].time.Some? && Within(io, FullIo(chain))
    requires r in TxRowsAtHeight(chain, h)
    ensures var totals := FilledTotals(io, chain[h], hasPrevouts);
            && r.txid in totals && r.txid in FullTxs(chain)
            && 0 <= totals[r.txid] <= FullTxs(chain)[r.txid].totalIn
            && (hasPrevouts || Resolvable(chain, io.Keys, h) ==> totals[r.txid] == FullTxs(chain)[r.txid].totalIn)
  {
    hide FilledTotals, FullIo, FullTxs, Within, Resolvable, ContributionTotal, InTotal;
    var b := chain[h];
    WellFormedBlock(chain, h);
    var i := TxRowPosition(chain, h, r);
    FullTxsHas(chain, h, r);
    FilledTotalsAre(io, b, hasPrevouts, i);
    ContributionTotalIs(chain, io, h, i, |b.txs[i].vins|, hasPrevouts);
  }

  /** Totals for `own` transactions never exceed the full ones, and are those if everything was found. */
  ghost predicate TotalsWithin(totals: map<TxId, int>, own: set<TxId>, full: TxTable, whole: bool) {
    forall k | k in own ::
      k in totals && k in full && 0 <= totals[k] <= full[k].totalIn && (whole ==> totals[k] == full[k].totalIn)
  }

  lemma TotalsOfBlock(chain: seq<Block>, extracted: set<int>, filled: set<int>, h: int, hasPrevouts: bool)
    requires WellFormed(chain) && 0 <= h < |chain| && chain[h].time.Some? && filled <= extracted && h in extracted
    ensures var io := LedgerOf(chain, extracted, filled).io;
            var totals := FilledTotals(io, chain[h], hasPrevouts);
            var own := AllTxKeys(TxRowsAtHeight(chain, h));
            && totals.Keys * TxKeys(chain, extracted) == own
            && TotalsWithin(totals, own, FullTxs(chain), hasPrevouts || Resolvable(chain, io.Keys, h))
  {
    hide WellFormed, LedgerOf, FilledTotals, FullIo, FullTxs, Resolvable, TxRowsAtHeight, Within;
    var io := LedgerOf(chain, extracted, filled).io;
    var totals, rows := FilledTotals(io, chain[h], hasPrevouts), TxRowsAtHeight(chain, h);
    LedgerIoWithin(chain, extracted, filled);
    TxRowKeysAre(rows, |rows|);
    forall k | k in totals && k in TxKeys(chain, extracted)
      ensures k in AllTxKeys(rows)
    {
      TotalIsOwn(chain, io, extracted, h, hasPrevouts, k);
    }
    forall k | k in AllTxKeys(rows)
      ensures k in totals && k in TxKeys(chain, extracted) && k in FullTxs(chain)
      ensures 0 <= totals[k] <= FullTxs(chain)[k].totalIn
      ensures hasPrevouts || Resolvable(chain, io.Keys, h) ==> totals[k] == FullTxs(chain)[k].totalIn
    {
      var m :| 0 <= m < |rows| && rows[m].txid == k;
      assert rows[m] in rows;
      OwnTotal(chain, io, h, hasPrevouts, rows[m]);
    }
  }

  lemma LedgerIoWithin(chain: seq<Block>, extracted: set<int>, filled: set<int>)
    requires WellFormed(chain) && filled <= extracted
    ensures Within(LedgerOf(chain, extracted, filled).io, FullIo(chain))
    ensures LedgerOf(chain, extracted, filled).io.Keys == OutKeys(chain, extracted) + InKeys(chain, filled)
  {
    StoredIsCovered(chain, extracted, filled);
    RestrictedIs(LedgerOf(chain, extracted, filled), FullTables(chain), StoredBy(chain, extracted, filled));
  }

  ghost function InputKeysFound(chain: seq<Block>, io: IoTable, h: int, hasPrevouts: bool): set<IoKey>
    requires 0 <= h < |chain|
  {
    AllIoKeys(FilledRows(io, chain[h], hasPrevouts))
  }

  lemma FoundKeysAre(chain: seq<Block>, io: IoTable, h: int, hasPrevouts: bool)
    requires WellFormed(chain) && 0 <= h < |chain| && Within(io, FullIo(chain))
    ensures IoRowsAgree(FilledRows(io, chain[h], hasPrevouts), FullIo(chain))
    ensures InputKeysFound(chain, io, h, hasPrevouts) <= AllIoKeys(InRowsAtHeight(chain, h))
    ensures hasPrevouts || Resolvable(chain, io.Keys, h) ==>
              InputKeysFound(chain, io, h, hasPrevouts) == AllIoKeys(InRowsAtHeight(chain, h))
  {
    var found, all := FilledRows(io, chain[h], hasPrevouts), InRowsAtHeight(chain, h);
    FilledRowsAgree(chain, io, h, hasPrevouts);
    IoAgrees(chain, h);
    IoKeysMonotone(found, all);
    if hasPrevouts || Resolvable(chain, io.Keys, h) {
      IoKeysMonotone(all, found);
    }
  }

  lemma IoKeysMonotone(a: seq<IoRow>, b: seq<IoRow>)
    requires forall r | r in a :: r in b
    ensures AllIoKeys(a) <= AllIoKeys(b)
  {
    IoRowKeysAre(a, |a|);
    IoRowKeysAre(b, |b|);
    forall k | k in AllIoKeys(a)
      ensures k in AllIoKeys(b)
    {
      var m :| 0 <= m < |a| && IoKeyOf(a[m]) == k;
      assert a[m] in a;
      var m' :| 0 <= m' < |b| && b[m'] == a[m];
    }
  }

  /**
   A backfill that finds every output it needs, or is not the first for its height, leaves the
   tables as if the block had come with inline prevouts.
   */
  lemma BackfillMeets(chain: seq<Block>, extracted: set<int>, filled: set<int>, h: int, hasPrevouts: bool)
    requires WellFormed(chain) && 0 <= h < |chain| && filled <= extracted && h in extracted
    requires hasPrevouts || h in filled || Resolvable(chain, OutKeys(chain, extracted), h)
    ensures BackfillBlock(LedgerOf(chain, extracted, filled), chain[h], h, hasPrevouts)
            == Some(LedgerOf(chain, extracted, filled + {h}))
  {
    hide StoredBy, FilledTotals, FilledRows, Resolvable, TxRowsAtHeight, OutKeys, InKeys, SpendKeys, TxKeys, Covered,
         FullTxs, FullIo, FullSpends, AllIoKeys, AllSpendKeys, AllTxKeys, IoRowsAgree, SpendRowsAgree, Restricted,
         InRowsAtHeight, OutRowsAtHeight;
    var b, db, s := chain[h], LedgerOf(chain, extracted, filled), StoredBy(chain, extracted, filled);
    var full, own := FullTables(chain), AllTxKeys(TxRowsAtHeight(chain, h));
    var totals, rows := FilledTotals(db.io, b, hasPrevouts), FilledRows(db.io, b, hasPrevouts);
    WellFormedBlock(chain, h);
    var spendRows := SpendRowsAtHeight(chain, h);
    hide WellFormed;
    StoredIsCovered(chain, extracted, filled);
    LedgerIoWithin(chain, extracted, filled);
    ResolvableMonotone(chain, extracted, db.io.Keys, h);
    FoundKeysAre(chain, db.io, h, hasPrevouts);
    TotalsOfBlock(chain, extracted, filled, h, hasPrevouts);
    SpendsAgree(chain, h);
    HeightIsStored(chain, extracted, filled, h);
    FillTotalsAgree(chain, extracted, filled, h, hasPrevouts);
    FillMeets(full, s, totals, rows, spendRows);
    StoredGrows(chain, extracted, filled, h);
    StoredTxs(chain, extracted, filled);
    var s' := Stored(s.txs, s.totals + (totals.Keys * s.txs), s.io + AllIoKeys(rows),
                     s.spends + AllSpendKeys(spendRows));
    assert s' == StoredBy(chain, extracted, filled + {h});
  }

  lemma StoredTxs(chain: seq<Block>, extracted: set<int>, filled: set<int>)
    ensures StoredBy(chain, extracted, filled).txs == TxKeys(chain, extracted)
  {
  }

  lemma ResolvableMonotone(chain: seq<Block>, extracted: set<int>, io: set<IoKey>, h: int)
    requires 0 <= h < |chain| && OutKeys(chain, extracted) <= io
    ensures Resolvable(chain, OutKeys(chain, extracted), h) ==> Resolvable(chain, io, h)
  {
  }

  lemma HeightIsStored(chain: seq<Block>, extracted: set<int>, filled: set<int>, h: int)
    requires 0 <= h < |chain| && chain[h].time.Some? && h in extracted
    ensures var s := StoredBy(chain, extracted, filled);
            && AllSpendKeys(SpendRowsAtHeight(chain, h)) <= s.spends
            && AllTxKeys(TxRowsAtHeight(chain, h)) <= s.txs
            && (h in filled ==>
                AllIoKeys(InRowsAtHeight(chain, h)) <= s.io && AllTxKeys(TxRowsAtHeight(chain, h)) <= s.totals)
  {
    hide StoredBy, TxRowsAtHeight, InRowsAtHeight, SpendRowsAtHeight, AllIoKeys, AllTxKeys, AllSpendKeys;
    StoredGrows(chain, extracted, filled, h);
    assert extracted + {h} == extracted;
    if h in filled {
      assert filled + {h} == filled;
    }
  }

  lemma FillTotalsAgree(chain: seq<Block>, extracted: set<int>, filled: set<int>, h: int, hasPrevouts: bool)
    requires WellFormed(chain) && 0 <= h < |chain| && filled <= extracted && h in extracted
    requires hasPrevouts || h in filled || Resolvable(chain, OutKeys(chain, extracted), h)
    ensures TotalsAgree(FilledTotals(LedgerOf(chain, extracted, filled).io, chain[h], hasPrevouts),
                        FullTxs(chain), StoredBy(chain, extracted, filled))
  {
    hide StoredBy, FilledTotals, TxRowsAtHeight, OutKeys, InKeys, TxKeys, FullTxs, AllTxKeys;
    var io, s := LedgerOf(chain, extracted, filled).io, StoredBy(chain, extracted, filled);
    LedgerIoWithin(chain, extracted, filled);
    ResolvableMonotone(chain, extracted, io.Keys, h);
    TotalsOfBlock(chain, extracted, filled, h, hasPrevouts);
    HeightIsStored(chain, extracted, filled, h);
    StoredTxs(chain, extracted, filled);
  }

  // ----- what a lookup can find -----

  /** Without inline prevouts an input row is filled in only if the spent output's row is stored. */
  lemma FoundInputIsStored(chain: seq<Block>, io: IoTable, h: int, i: int, j: int)
    requires WellFormed(chain) && 0 <= h < |chain| && Within(io, FullIo(chain)) && InAt(chain[h], i, j)
    requires IoKeyOf(InRow(chain[h].txs[i], j)) in InputKeysFound(chain, io, h, false)
    ensures PrevKey(chain[h].txs[i].vins[j]) in io
  {
    var b, r, found := chain[h], InRow(chain[h].txs[i], j), FilledRows(io, chain[h], false);
    IoRowKeysAre(found, |found|);
    var m :| 0 <= m < |found| && IoKeyOf(found[m]) == IoKeyOf(r);
    assert found[m] in found;
    FilledRowsAre(io, b, false, found[m]);
    var i', j' :| Fills(io, b, false, i', j', found[m]);
    assert Fills(io, b, false, i', j', found[m]) && TxAt(chain, h, i) && TxAt(chain, h, i');
    assert chain[h].txs[i].txid == chain[h].txs[i'].txid;
  }

  lemma InputHasKey(chain: seq<Block>, h: int, i: int, j: int)
    requires 0 <= h < |chain| && InAt(chain[h], i, j)
    ensures IoKeyOf(InRow(chain[h].txs[i], j)) in AllIoKeys(InRowsAtHeight(chain, h))
    ensures IoKeyOf(InRow(chain[h].txs[i], j)).io == In
  {
    var b, r, all := chain[h], InRow(chain[h].txs[i], j), InRowsAtHeight(chain, h);
    BlockInRowsAre(b, |b.txs|, r);
    IoRowKeysAre(all, |all|);
    var n :| 0 <= n < |all| && all[n] == r;
  }

  lemma KeyKinds(chain: seq<Block>, hs: set<int>)
    ensures forall k | k in OutKeys(chain, hs) :: k.io == Out
    ensures forall k | k in InKeys(chain, hs) :: k.io == In
  {
    forall k | k in OutKeys(chain, hs)
      ensures k.io == Out
    {
      var h, r :| h in hs && 0 <= h < |chain| && r in OutRowsAtHeight(chain, h) && IoKeyOf(r) == k;
      var i, j := OutRowPosition(chain, h, r);
    }
    forall k | k in InKeys(chain, hs)
      ensures k.io == In
    {
      var h, r :| h in hs && 0 <= h < |chain| && r in InRowsAtHeight(chain, h) && IoKeyOf(r) == k;
      var i, j := InRowPosition(chain, h, r);
    }
  }

  lemma FilledKeys(t: IoTable, rows: seq<IoRow>, u: IoTable)
    requires Within(t, u) && IoRowsAgree(rows, u)
    ensures InsertIoRows(t, rows).Keys == t.Keys + AllIoKeys(rows)
  {
    InsertIoWithin(t, rows, |rows|, u);
  }
}
