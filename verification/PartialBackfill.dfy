/**
 What a backfill does that runs before all the outputs it looks for are stored.  The queue lets it
 run: it asks only that the block itself is extracted.
 */
module PartialBackfill {
  import opened Common
  import opened Chain
  import opened Rows
  import opened Extract
  import opened Ledger
  import opened Backfill
  import opened Confluence
  import opened History
  import opened TwoPass
  import opened FullLedger

  /** An input whose spent output has a stored row, or one of worth that has none yet. */
  ghost predicate Found(chain: seq<Block>, io: set<IoKey>, h: int, i: int, j: int)
    requires 0 <= h < |chain|
  {
    InAt(chain[h], i, j) && PrevKey(chain[h].txs[i].vins[j]) in io
  }

  ghost predicate Missed(chain: seq<Block>, io: set<IoKey>, h: int, i: int, j: int)
    requires 0 <= h < |chain|
  {
    InAt(chain[h], i, j) && PrevKey(chain[h].txs[i].vins[j]) !in io
  }

  ghost predicate AnyFound(chain: seq<Block>, io: set<IoKey>, h: int, i: int, n: int)
    requires 0 <= h < |chain|
  {
    exists j :: j < n && Found(chain, io, h, i, j)
  }

  ghost predicate AnyMissed(chain: seq<Block>, io: set<IoKey>, h: int, i: int, n: int)
    requires 0 <= h < |chain|
  {
    exists j :: j < n && Missed(chain, io, h, i, j)
  }

  /** The looked-up sum is 0 just when nothing was found, and whole just when nothing was missed. */
  lemma {:induction false} PartialSum(chain: seq<Block>, io: IoTable, h: int, i: int, n: nat)
    requires WellFormed(chain) && TxAt(chain, h, i) && n <= |chain[h].txs[i].vins| && Within(io, FullIo(chain))
    ensures var tx := chain[h].txs[i]; var sum := ContributionTotal(io, tx, n, false);
            && 0 <= sum <= InTotal(tx, n)
            && (sum == 0 <==> !AnyFound(chain, io.Keys, h, i, n))
            && (sum == InTotal(tx, n) <==> !AnyMissed(chain, io.Keys, h, i, n))
  {
    hide WellFormed, FullIo;
    if n > 0 {
      PartialSum(chain, io, h, i, n - 1);
      var v := chain[h].txs[i].vins[n - 1];
      if Spends(v) && InCoin(v).Some? {
        ContributionIs(chain, io, h, i, n - 1, false);
        assert InAt(chain[h], i, n - 1);
        assert PrevKey(v) in io ==> Found(chain, io.Keys, h, i, n - 1);
        assert PrevKey(v) !in io ==> Missed(chain, io.Keys, h, i, n - 1);
      } else if Spends(v) {
        ContributionIs(chain, io, h, i, n - 1, false);
      }
    }
  }

  /** Which transactions and totals a height has in the tables. */
  lemma TxOfHeight(chain: seq<Block>, hs: set<int>, h: int, i: int)
    requires WellFormed(chain) && TxAt(chain, h, i) && Kept(chain[h])
    ensures chain[h].txs[i].txid.value in TxKeys(chain, hs) <==> h in hs
  {
    var t, r := chain[h].txs[i].txid.value, TxRowOf(chain[h].txs[i], chain[h], true);
    BlockTxRowsAre(chain[h], |chain[h].txs|, true, r);
    if t in TxKeys(chain, hs) {
      var h', r' :|
          h' in hs && 0 <= h' < |chain| && chain[h'].time.Some? && r' in TxRowsAtHeight(chain, h') && r'.txid == t;
      var i' := TxRowPosition(chain, h', r');
      assert chain[h].txs[i].txid == chain[h'].txs[i'].txid;
    }
  }

  /** Only out rows are looked up, so only the extracted heights matter. */
  lemma LookupsSeeOutRows(chain: seq<Block>, extracted: set<int>, filled: set<int>, h: int, i: int, n: int)
    requires 0 <= h < |chain|
    ensures var stored := OutKeys(chain, extracted) + InKeys(chain, filled);
            && (AnyFound(chain, stored, h, i, n) <==> AnyFound(chain, OutKeys(chain, extracted), h, i, n))
            && (AnyMissed(chain, stored, h, i, n) <==> AnyMissed(chain, OutKeys(chain, extracted), h, i, n))
  {
    hide OutKeys, InKeys;
    var stored := OutKeys(chain, extracted) + InKeys(chain, filled);
    KeyKinds(chain, filled);
    forall j
      ensures Found(chain, stored, h, i, j) <==> Found(chain, OutKeys(chain, extracted), h, i, j)
      ensures Missed(chain, stored, h, i, j) <==> Missed(chain, OutKeys(chain, extracted), h, i, j)
    {
    }
  }

  lemma SpendsGoIn(chain: seq<Block>, extracted: set<int>, filled: set<int>, h: int)
    requires WellFormed(chain) && 0 <= h < |chain| && filled <= extracted
    ensures chain[h].time.Some?
    ensures InsertSpendRows(LedgerOf(chain, extracted, filled).spends,
                            BlockSpendRows(chain[h], |chain[h].txs|, h)).Some?
  {
    hide FullTxs, FullIo, FullSpends, StoredBy;
    var db := LedgerOf(chain, extracted, filled);
    WellFormedBlock(chain, h);
    StoredIsCovered(chain, extracted, filled);
    RestrictedIs(db, FullTables(chain), StoredBy(chain, extracted, filled));
    SpendsAgree(chain, h);
    InsertSpendsWithin(db.spends, SpendRowsAtHeight(chain, h), |SpendRowsAtHeight(chain, h)|, FullSpends(chain));
  }

  lemma UnfilledTotal(chain: seq<Block>, extracted: set<int>, filled: set<int>, h: int, i: int)
    requires WellFormed(chain) && TxAt(chain, h, i) && Kept(chain[h])
    requires h in extracted && h !in filled
    ensures var db, t := LedgerOf(chain, extracted, filled), chain[h].txs[i].txid.value;
            && t in FullTxs(chain) && FullTxs(chain)[t].totalIn == InTotal(chain[h].txs[i], |chain[h].txs[i].vins|)
            && t in db.txs && db.txs[t].totalIn == 0
  {
    hide FullIo, FullSpends, FullTxs;
    TxOfHeight(chain, extracted, h, i);
    TxOfHeight(chain, filled, h, i);
    TxStored(chain, h, i);
  }

  /** After its first backfill, total_in is the sum over the inputs whose outputs were stored by then. */
  lemma FirstBackfillTotal(chain: seq<Block>, extracted: set<int>, filled: set<int>, h: int, i: int)
    requires WellFormed(chain) && TxAt(chain, h, i) && Kept(chain[h])
    requires filled <= extracted && h in extracted && h !in filled
    ensures var after, t :=
              BackfillBlock(LedgerOf(chain, extracted, filled), chain[h], h, false), chain[h].txs[i].txid.value;
            var stored, full, n := OutKeys(chain, extracted), FullTxs(chain), |chain[h].txs[i].vins|;
            && after.Some? && t in after.value.txs && t in full
            && 0 <= after.value.txs[t].totalIn <= full[t].totalIn
            && (after.value.txs[t].totalIn == 0 <==> !AnyFound(chain, stored, h, i, n))
            && (after.value.txs[t].totalIn == full[t].totalIn <==> !AnyMissed(chain, stored, h, i, n))
  {
    hide FullIo, FullSpends, FullTxs, LedgerOf, AnyFound, AnyMissed, OutKeys, InKeys, FilledTotals, ContributionTotal;
    var db, tx := LedgerOf(chain, extracted, filled), chain[h].txs[i];
    WellFormedBlock(chain, h);
    SpendsGoIn(chain, extracted, filled, h);
    LedgerIoWithin(chain, extracted, filled);
    PartialSum(chain, db.io, h, i, |tx.vins|);
    LookupsSeeOutRows(chain, extracted, filled, h, i, |tx.vins|);
    UnfilledTotal(chain, extracted, filled, h, i);
    FilledTotalsAre(db.io, chain[h], false, i);
  }

  /**
   A transaction whose inputs were found in part keeps a total_in that is too low through every
   later backfill and every later extraction without inline prevouts.
   */
  lemma PartialTotalStays(chain: seq<Block>, extracted: set<int>, filled: set<int>, h: int, i: int, ws: seq<Write>)
    requires WellFormed(chain) && TxAt(chain, h, i) && Kept(chain[h])
    requires filled <= extracted && h in extracted && h !in filled && NoInlineExtraction(ws)
    requires AnyFound(chain, OutKeys(chain, extracted), h, i, |chain[h].txs[i].vins|)
    requires AnyMissed(chain, OutKeys(chain, extracted), h, i, |chain[h].txs[i].vins|)
    ensures var db, t :=
              Perform(chain, LedgerOf(chain, extracted, filled), BackfillW(h, false)), chain[h].txs[i].txid.value;
            var later := Run(chain, db, ws, |ws|);
            && t in later.txs && t in FullTxs(chain) && 0 < later.txs[t].totalIn < FullTxs(chain)[t].totalIn
  {
    hide FullTxs, LedgerOf, AnyFound, AnyMissed, OutKeys, BackfillBlock, WellFormed;
    FirstBackfillTotal(chain, extracted, filled, h, i);
    var db := Perform(chain, LedgerOf(chain, extracted, filled), BackfillW(h, false));
    TotalSticks(chain, db, ws, |ws|, chain[h].txs[i].txid.value);
  }

  // ----- the smallest case -----

  function Hex(c: char): string {
    seq(64, _ => c)
  }

  function Pay(btc: real): Vout {
    Vout(Btc(btc), Script("", Some(Owner("X", "p2pkh"))))
  }

  function Mint(c: char, btc: real): Tx {
    Tx(Some(Hex(c)), [Vin(true, None, None, None)], [Pay(btc)])
  }

  function Spend(c: char, btc: real): Vin {
    Vin(false, Some(Hex(c)), Some(0), Some(Pay(btc)))
  }

  /** Two coins in two blocks, both spent in the third. */
  function ThreeBlocks(): seq<Block> {
    [Block("0", Some(0), [Mint('a', 5.0)]),
     Block("1", Some(1), [Mint('b', 3.0)]),
     Block("2", Some(2), [Tx(Some(Hex('c')), [Spend('a', 5.0), Spend('b', 3.0)], [Pay(8.0)])])]
  }

  lemma HexDiffer(c: char, d: char)
    ensures Hex(c) == Hex(d) <==> c == d
    ensures IsHexDigit(c) ==> ValidTxid(Hex(c))
  {
    assert Hex(c)[0] == c && Hex(d)[0] == d;
  }

  lemma ThreeBlocksWellFormed()
    ensures WellFormed(ThreeBlocks())
  {
    var chain := ThreeBlocks();
    HexDiffer('a', 'b');
    HexDiffer('a', 'c');
    HexDiffer('b', 'c');
    assert forall h, i, j :: InputAt(chain, h, i, j) ==> h == 2 && i == 0 && (j == 0 || j == 1);
    assert OutputAt(chain, 0, 0, 0) && OutputAt(chain, 1, 0, 0);
    assert Origin(chain, 2, 0, 0, 0, 0, 0);
    assert Origin(chain, 2, 0, 1, 1, 0, 0);
  }

  lemma OnlyFirstCoinStored()
    ensures var chain := ThreeBlocks(); var stored := OutKeys(chain, {0, 2});
            AnyFound(chain, stored, 2, 0, 2) && AnyMissed(chain, stored, 2, 0, 2) && IoKey(Hex('b'), Out, 0) !in stored
  {
    var chain := ThreeBlocks();
    var stored, a, b := OutKeys(chain, {0, 2}), IoKey(Hex('a'), Out, 0), IoKey(Hex('b'), Out, 0);
    HexDiffer('a', 'b');
    HexDiffer('a', 'c');
    HexDiffer('b', 'c');
    assert OutAt(chain[0], 0, 0);
    BlockOutRowsAre(chain[0], 1, OutRow(chain[0].txs[0], 0));
    assert OutRow(chain[0].txs[0], 0) in OutRowsAtHeight(chain, 0);
    assert 0 in {0, 2} && IoKeyOf(OutRow(chain[0].txs[0], 0)) == a;
    assert a in stored;
    forall h, r | h in {0, 2} && 0 <= h < |chain| && r in OutRowsAtHeight(chain, h)
      ensures IoKeyOf(r) != b
    {
      var i, j := OutRowPosition(chain, h, r);
    }
    assert b !in stored;
    assert InAt(chain[2], 0, 0) && InAt(chain[2], 0, 1);
    assert Found(chain, stored, 2, 0, 0) && Missed(chain, stored, 2, 0, 1);
  }

  /**
   Block 2 extracted and backfilled before block 1 is extracted: the coin from block 1 stays out of
   total_in although every block is extracted in the end and block 2 is backfilled again.
   */
  lemma EarlyBackfillLosesACoin()
    ensures var chain := ThreeBlocks();
            var ws := [ExtractW(0, false), ExtractW(2, false), BackfillW(2, false), ExtractW(1, false),
                       BackfillW(2, false)];
            var later := Run(chain, EMPTY, ws, 5);
            && WellFormed(chain) && Hex('c') in later.txs && Hex('c') in FullTxs(chain)
            && later.txs[Hex('c')].totalIn < FullTxs(chain)[Hex('c')].totalIn
  {
    hide Perform, FullTxs, AnyFound, AnyMissed, OutKeys, WellFormed;
    var chain := ThreeBlocks();
    var first, rest := [ExtractW(0, false), ExtractW(2, false)], [ExtractW(1, false), BackfillW(2, false)];
    ThreeBlocksWellFormed();
    HexDiffer('c', 'c');
    assert TxAt(chain, 2, 0);
    RunIs(chain, first, 2);
    assert Extracted(first, 2) == {0, 2} && Filled(first, 2) == {};
    OnlyFirstCoinStored();
    PartialTotalStays(chain, {0, 2}, {}, 2, 0, rest);
  }
}
