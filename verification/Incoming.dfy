/**
 Incoming edges of the trace are not weighted.  When the label "direct" makes such an edge exact, and
 by how much it is off otherwise.
 */
module Incoming {
  import opened Common
  import opened Sums
  import opened Chain
  import opened Rows
  import opened Extract
  import opened Ledger
  import opened Confluence
  import opened Watch
  import opened FullLedger
  import opened Conservation
  import opened PartialBackfill
  import opened Haircut

  /** The transactions behind the edge from `f` into `a`: they pay `a` and have an input row of `f`. */
  ghost function Behind(db: Tables, a: Address, f: Address): set<TxId> {
    set k | k in IncomingRows(db, a) && k in db.io && db.io[k].address == f :: k.txid
  }

  /** all_single_input of the incoming query: a transaction without edges counts as one input. */
  ghost predicate DirectIn(db: Tables, a: Address, f: Address) {
    forall t | t in Behind(db, a, f) :: |InputsOf(db, t)| <= 1
  }

  /** What those transactions paid to `a`. */
  ghost function PaidBehind(db: Tables, a: Address, f: Address): int {
    Total(map t | t in Behind(db, a, f) :: VOut(db, t, a))
  }

  /** What of their inputs did not reach `a`: change, other recipients, and the fee. */
  ghost function Elsewhere(db: Tables, a: Address, f: Address): map<TxId, int> {
    map t | t in Behind(db, a, f) && t in db.txs :: db.txs[t].totalIn - VOut(db, t, a)
  }

  /** None of the transactions pays out more than it takes in. */
  ghost predicate Affords(db: Tables, ts: set<TxId>) {
    forall t | t in ts && t in db.txs :: Total(OutsOfTx(db, t)) <= db.txs[t].totalIn
  }

  /** Each of them is stored and pays all it takes in to `a`: no change, no other recipient, no fee. */
  ghost predicate PaysOnly(db: Tables, ts: set<TxId>, a: Address) {
    forall t | t in ts :: t in db.txs && VOut(db, t, a) == db.txs[t].totalIn
  }

  /** With one spend edge a transaction has one stored input. */
  lemma SingleInput(chain: seq<Block>, t: TxId, k: IoKey, k': IoKey)
    requires WellFormed(chain) && |InputsOf(FullTables(chain), t)| <= 1
    requires k in InsOfTx(FullTables(chain), t) && k' in InsOfTx(FullTables(chain), t)
    ensures k == k'
  {
    hide WellFormed, FullIo, FullTxs, FullSpends, Consumes;
    var db := FullTables(chain);
    InputMatches(chain, t, k);
    InputMatches(chain, t, k');
    var o, o' := ConsumedBy(chain, k), ConsumedBy(chain, k');
    assert Prev(o) in InputsOf(db, t) && Prev(o') in InputsOf(db, t);
    assert |InputsOf(db, t)| == 1;
    OnlyOne(InputsOf(db, t), Prev(o), Prev(o'));
    ConsumesOneToOne(chain, k, k', o, o');
  }

  lemma BehindIsStored(chain: seq<Block>, a: Address, f: Address, t: TxId)
    requires WellFormed(chain) && t in Behind(FullTables(chain), a, f)
    ensures t in FullTxs(chain)
  {
    hide WellFormed, FullIo, FullTxs, FullSpends;
    RowsHaveTxs(chain);
  }

  lemma RowsBehind(db: Tables, a: Address, f: Address)
    ensures var rows := Slice(IncomingRows(db, a), Owners(db), f);
            forall k | k in rows :: k.txid in Behind(db, a, f)
  {
  }

  /** A direct transaction's rows of `f` are all its inputs. */
  lemma DirectRows(chain: seq<Block>, a: Address, f: Address, t: TxId)
    requires WellFormed(chain) && t in Behind(FullTables(chain), a, f) && |InputsOf(FullTables(chain), t)| <= 1
    ensures var db := FullTables(chain);
            var rows := Slice(IncomingRows(db, a), Owners(db), f);
            Slice(rows, TxidOf(rows.Keys), t) == InsOfTx(db, t)
  {
    hide WellFormed, FullIo, FullTxs, FullSpends, InputsOf, Paying;
    var db := FullTables(chain);
    var k0 :| k0 in IncomingRows(db, a) && k0 in db.io && db.io[k0].address == f && k0.txid == t;
    assert k0 in InsOfTx(db, t);
    forall k | k in InsOfTx(db, t)
      ensures k == k0
    {
      SingleInput(chain, t, k, k0);
    }
  }

  /** A direct incoming edge carries the whole inputs of the transactions behind it. */
  lemma DirectCarriesInputs(chain: seq<Block>, a: Address, f: Address)
    requires WellFormed(chain) && DirectIn(FullTables(chain), a, f)
    ensures var db := FullTables(chain);
            && (forall t | t in Behind(db, a, f) :: t in db.txs)
            && ValueIn(db, a, f) == Total(map t | t in Behind(db, a, f) :: db.txs[t].totalIn)
  {
    hide WellFormed, FullTables, Total, InputsOf, InsOfTx, Behind;
    var db := FullTables(chain);
    var rows, txs := Slice(IncomingRows(db, a), Owners(db), f), Behind(db, a, f);
    RowsBehind(db, a, f);
    TotalByKeys(rows, TxidOf(rows.Keys), txs);
    forall t | t in txs
      ensures t in db.txs && Total(Slice(rows, TxidOf(rows.Keys), t)) == db.txs[t].totalIn
    {
      BehindIsStored(chain, a, f, t);
      assert t in db.txs by { TablesOf(chain); }
      DirectRows(chain, a, f, t);
      TotalsAreRowSums(chain, t);
    }
    assert GroupTotals(rows, TxidOf(rows.Keys), txs) == map t | t in txs :: db.txs[t].totalIn;
  }

  lemma TablesOf(chain: seq<Block>)
    ensures FullTables(chain).txs == FullTxs(chain)
  {
  }

  lemma {:induction false} TotalMinus<K(!new)>(m: map<K, int>, n: map<K, int>, d: map<K, int>)
    requires m.Keys == n.Keys == d.Keys && forall k | k in m :: d[k] == m[k] - n[k]
    ensures Total(d) == Total(m) - Total(n)
    decreases |m|
  {
    if m != map[] {
      var k :| k in m;
      TotalRemove(m, k);
      TotalRemove(n, k);
      TotalRemove(d, k);
      assert (m - {k}).Keys == m.Keys - {k};
      TotalMinus(m - {k}, n - {k}, d - {k});
    }
  }

  lemma {:induction false} TotalZeroIff<K(!new)>(m: map<K, int>)
    requires forall k | k in m :: m[k] >= 0
    ensures Total(m) >= 0 && (Total(m) == 0 <==> forall k | k in m :: m[k] == 0)
    decreases |m|
  {
    if m != map[] {
      var k :| k in m;
      TotalRemove(m, k);
      assert (m - {k}).Keys == m.Keys - {k};
      TotalZeroIff(m - {k});
      assert forall x | x in m && x != k :: x in m - {k};
    }
  }

  /** What a transaction paid to `a` is part of its outputs. */
  lemma PaidIsPart(chain: seq<Block>, t: TxId, a: Address)
    requires WellFormed(chain)
    ensures 0 <= VOut(FullTables(chain), t, a) <= Total(OutsOfTx(FullTables(chain), t))
  {
    hide WellFormed, FullIo, FullTxs, FullSpends, Total;
    var db := FullTables(chain);
    AmountsArePositive(chain);
    TotalSplit(OutsOfTx(db, t), Owners(db), a);
    TotalNonNegative(Slice(OutsOfTx(db, t), Owners(db), a));
    TotalNonNegative(Without(OutsOfTx(db, t), Owners(db), a));
  }

  /**
   A direct incoming edge exceeds what the transactions behind it paid to `a` by exactly what they
   paid elsewhere.  So, as none pays out more than it takes in, it is right if and only if each of
   them pays its whole total_in to `a`.
   */
  lemma {:induction false} DirectIncomingIff(chain: seq<Block>, a: Address, f: Address)
    requires WellFormed(chain) && DirectIn(Complete(chain), a, f)
             && Affords(Complete(chain), Behind(Complete(chain), a, f))
    ensures var db := Complete(chain);
            && ValueIn(db, a, f) == PaidBehind(db, a, f) + Total(Elsewhere(db, a, f))
            && ValueIn(db, a, f) >= PaidBehind(db, a, f)
            && (ValueIn(db, a, f) == PaidBehind(db, a, f) <==> PaysOnly(db, Behind(db, a, f), a))
  {
    hide WellFormed, FullTables, Total, InputsOf, OutsOfTx, Behind, VOut, Complete, ValueIn;
    CompleteIsFull(chain);
    var db := FullTables(chain);
    DirectCarriesInputs(chain, a, f);
    var ins := map t | t in Behind(db, a, f) :: db.txs[t].totalIn;
    var outs := map t | t in Behind(db, a, f) :: VOut(db, t, a);
    TotalMinus(ins, outs, Elsewhere(db, a, f));
    forall t | t in Behind(db, a, f)
      ensures Elsewhere(db, a, f)[t] >= 0
    {
      PaidIsPart(chain, t, a);
    }
    TotalZeroIff(Elsewhere(db, a, f));
  }

  // ----- the smallest case -----

  function PayTo(a: Address, btc: real): Vout {
    Vout(Btc(btc), Script("", Some(Owner(a, "p2pkh"))))
  }

  /** X mints 5, pays 3 of it to Y and takes 2 back as change. */
  function ChangeChain(): seq<Block> {
    [Block("0", Some(0), [Tx(Some(Hex('a')), [Vin(true, None, None, None)], [PayTo("X", 5.0)])]),
     Block("1", Some(1),
           [Tx(Some(Hex('b')), [Vin(false, Some(Hex('a')), Some(0), Some(PayTo("X", 5.0)))],
               [PayTo("Y", 3.0), PayTo("X", 2.0)])])]
  }

  lemma ChangeChainWellFormed()
    ensures WellFormed(ChangeChain())
  {
    var chain := ChangeChain();
    HexDiffer('a', 'b');
    assert forall h, i, j :: InputAt(chain, h, i, j) ==> h == 1 && i == 0 && j == 0;
    assert OutputAt(chain, 0, 0, 0);
    assert Origin(chain, 1, 0, 0, 0, 0, 0);
  }

  lemma ChangeCoins()
    ensures var b := ChangeChain()[1]; var tx, t := b.txs[0], Hex('b');
            && KnownTx(tx) && OutAt(b, 0, 0) && OutAt(b, 0, 1) && InAt(b, 0, 0)
            && OutRow(tx, 0) == IoRow(t, "Y", "p2pkh", 300000000, Out, 0)
            && OutRow(tx, 1) == IoRow(t, "X", "p2pkh", 200000000, Out, 1)
            && InRow(tx, 0) == IoRow(t, "X", "p2pkh", 500000000, In, 0)
  {
    HexDiffer('a', 'b');
    HexDiffer('b', 'b');
    assert InAt(ChangeChain()[1], 0, 0);
  }

  /** The stored outputs of a transaction with two addressed outputs. */
  lemma TwoOuts(chain: seq<Block>, h: int)
    requires WellFormed(chain) && TxAt(chain, h, 0) && |chain[h].txs[0].vouts| == 2
    requires OutAt(chain[h], 0, 0) && OutAt(chain[h], 0, 1)
    ensures var db, tx := FullTables(chain), chain[h].txs[0]; var t := tx.txid.value;
            OutsOfTx(db, t) == map[IoKey(t, Out, 0) := OutRow(tx, 0).amount, IoKey(t, Out, 1) := OutRow(tx, 1).amount]
  {
    hide WellFormed, FullTables, OutCoin, ValidTxid, OutsOfTx, OutMap;
    var tx := chain[h].txs[0];
    OutRowsOfTx(chain, h, 0);
    OutMapStep(tx, 0);
    OutMapStep(tx, 1);
    assert OutMap(tx, 0) == map[] by { NoMap(tx); }
  }

  lemma OneIn(chain: seq<Block>, h: int)
    requires WellFormed(chain) && TxAt(chain, h, 0) && |chain[h].txs[0].vins| == 1 && InAt(chain[h], 0, 0)
    ensures var db, tx := FullTables(chain), chain[h].txs[0]; var t := tx.txid.value;
            InsOfTx(db, t) == map[IoKey(t, In, 0) := InRow(tx, 0).amount]
  {
    hide WellFormed, FullTables, InCoin, ValidTxid, InsOfTx, InMap;
    var tx := chain[h].txs[0];
    InRowsOfTx(chain, h, 0);
    InMapStep(tx, 0);
    assert InMap(tx, 0) == map[] by { NoMap(tx); }
  }

  lemma NoMap(tx: Tx)
    requires KnownTx(tx)
    ensures OutMap(tx, 0) == map[] && InMap(tx, 0) == map[]
  {
  }

  /** The chain's only input is the first of the first transaction at `h`. */
  ghost predicate OnlyInput(chain: seq<Block>, h: int) {
    && TxAt(chain, h, 0)
    && forall h', i, j :: InputAt(chain, h', i, j) ==> h' == h && i == 0 && j == 0
  }

  /** Then only that transaction is behind any edge, and it has one input. */
  lemma OnlyOneBehind(chain: seq<Block>, h: int, a: Address, f: Address)
    requires WellFormed(chain) && OnlyInput(chain, h)
    ensures var db := FullTables(chain); DirectIn(db, a, f) && Behind(db, a, f) <= {chain[h].txs[0].txid.value}
  {
    hide WellFormed, FullIo, FullTxs, FullSpends, ValidTxid;
    var db := FullTables(chain);
    forall t | t in Behind(db, a, f)
      ensures t == chain[h].txs[0].txid.value && |InputsOf(db, t)| <= 1
    {
      var k :| k in IncomingRows(db, a) && k.txid == t;
      var h', i := StoredInPosition(chain, k);
      assert InputAt(chain, h', i, k.idx);
      OneEdge(chain, h, t);
    }
  }

  lemma OneEdge(chain: seq<Block>, h: int, t: TxId)
    requires WellFormed(chain) && OnlyInput(chain, h)
    ensures |InputsOf(FullTables(chain), t)| <= 1
  {
    hide WellFormed, FullIo, FullTxs, FullSpends, ValidTxid;
    var db := FullTables(chain);
    forall s, s' | s in InputsOf(db, t) && s' in InputsOf(db, t)
      ensures s == s'
    {
      var h1, i1, j1 := StoredSpendPosition(chain, s);
      var h2, i2, j2 := StoredSpendPosition(chain, s');
      assert InputAt(chain, h1, i1, j1) && InputAt(chain, h2, i2, j2);
    }
    AtMostOne(InputsOf(db, t));
  }

  lemma IsBehind(chain: seq<Block>, h: int, a: Address, f: Address)
    requires WellFormed(chain) && 0 <= h < |chain| && OutAt(chain[h], 0, 0) && InAt(chain[h], 0, 0)
    requires OutRow(chain[h].txs[0], 0).address == a && InRow(chain[h].txs[0], 0).address == f
    ensures chain[h].txs[0].txid.value in Behind(FullTables(chain), a, f)
  {
    hide WellFormed, FullIo, FullTxs, FullSpends, ValidTxid, OutCoin, InCoin;
    OutStored(chain, h, 0, 0);
    InStored(chain, h, 0, 0);
    var t := chain[h].txs[0].txid.value;
    assert IoKey(t, Out, 0) in Outs(FullTables(chain), a);
    assert IoKey(t, In, 0) in IncomingRows(FullTables(chain), a);
  }

  lemma ChangeHasOneInput()
    ensures OnlyInput(ChangeChain(), 1) && ChangeChain()[1].txs[0].txid == Some(Hex('b'))
  {
    HexDiffer('b', 'b');
    assert forall h, i, j :: InputAt(ChangeChain(), h, i, j) ==> h == 1 && i == 0 && j == 0;
    assert TxAt(ChangeChain(), 1, 0);
  }

  /** Only the second transaction is behind the edge from X to Y, and it has one input. */
  lemma ChangeIsBehind()
    ensures var db := FullTables(ChangeChain());
            Behind(db, "Y", "X") == {Hex('b')} && DirectIn(db, "Y", "X")
  {
    var chain := ChangeChain();
    ChangeChainWellFormed();
    ChangeCoins();
    ChangeHasOneInput();
    hide WellFormed, FullTables, ChangeChain, Hex, OutRow, InRow, Behind, DirectIn;
    OnlyOneBehind(chain, 1, "Y", "X");
    IsBehind(chain, 1, "Y", "X");
  }

  lemma PaidToFirst(chain: seq<Block>, h: int)
    requires WellFormed(chain) && TxAt(chain, h, 0) && |chain[h].txs[0].vouts| == 2
    requires OutAt(chain[h], 0, 0) && OutAt(chain[h], 0, 1)
    requires OutRow(chain[h].txs[0], 0).address != OutRow(chain[h].txs[0], 1).address
    ensures VOut(FullTables(chain), chain[h].txs[0].txid.value, OutRow(chain[h].txs[0], 0).address)
            == OutRow(chain[h].txs[0], 0).amount
  {
    hide WellFormed, FullIo, FullTxs, FullSpends, ValidTxid, OutCoin, OutsOfTx, Total;
    var db, tx := FullTables(chain), chain[h].txs[0];
    var t, a := tx.txid.value, OutRow(tx, 0).address;
    TwoOuts(chain, h);
    OutStored(chain, h, 0, 0);
    OutStored(chain, h, 0, 1);
    var m := Slice(OutsOfTx(db, t), Owners(db), a);
    assert m.Keys == {IoKey(t, Out, 0)};
    SingleTotal(m, IoKey(t, Out, 0));
  }

  lemma InputOfFirst(chain: seq<Block>, h: int)
    requires WellFormed(chain) && TxAt(chain, h, 0) && |chain[h].txs[0].vins| == 1 && InAt(chain[h], 0, 0)
    ensures var t := chain[h].txs[0].txid.value;
            t in FullTables(chain).txs ==> FullTables(chain).txs[t].totalIn == InRow(chain[h].txs[0], 0).amount
  {
    hide WellFormed, FullIo, FullTxs, FullSpends, ValidTxid, InCoin, InsOfTx, Total;
    var db, t := FullTables(chain), chain[h].txs[0].txid.value;
    if t in FullTxs(chain) {
      TotalsAreRowSums(chain, t);
      OneIn(chain, h);
      SingleTotal(InsOfTx(db, t), IoKey(t, In, 0));
    }
  }

  lemma AtMostOne<T>(s: set<T>)
    requires forall x, y | x in s && y in s :: x == y
    ensures |s| <= 1
  {
    if s != {} {
      var x :| x in s;
      assert s == {x};
    }
  }

  /** The edge from the owner of the input to that of the first output. */
  lemma OneBehind(chain: seq<Block>, h: int, a: Address, f: Address)
    requires WellFormed(chain) && TxAt(chain, h, 0) && |chain[h].txs[0].vouts| == 2 && |chain[h].txs[0].vins| == 1
    requires OutAt(chain[h], 0, 0) && OutAt(chain[h], 0, 1) && InAt(chain[h], 0, 0)
    requires OutRow(chain[h].txs[0], 1).address != OutRow(chain[h].txs[0], 0).address == a
    requires DirectIn(FullTables(chain), a, f) && Behind(FullTables(chain), a, f) == {chain[h].txs[0].txid.value}
    ensures ValueIn(FullTables(chain), a, f) == InRow(chain[h].txs[0], 0).amount
    ensures PaidBehind(FullTables(chain), a, f) == OutRow(chain[h].txs[0], 0).amount
  {
    hide WellFormed, FullTables, Total, Behind, ValueIn, DirectIn, VOut, OutRow, InRow, OutAt, InAt;
    var db, t := FullTables(chain), chain[h].txs[0].txid.value;
    PaidToFirst(chain, h);
    InputOfFirst(chain, h);
    DirectCarriesInputs(chain, a, f);
    SingleTotal(map x | x in Behind(db, a, f) :: db.txs[x].totalIn, t);
    SingleTotal(map x | x in Behind(db, a, f) :: VOut(db, x, a), t);
  }

  /** Y got 3 from X; the edge is labelled direct and says 5. */
  lemma {:induction false} ChangeIsCounted()
    ensures var chain := ChangeChain(); var db := Complete(chain);
            && WellFormed(chain) && DirectIn(db, "Y", "X")
            && ValueIn(db, "Y", "X") == 500000000 && PaidBehind(db, "Y", "X") == 300000000
  {
    var chain := ChangeChain();
    ChangeChainWellFormed();
    ChangeCoins();
    ChangeIsBehind();
    assert chain[1].txs[0].txid == Some(Hex('b')) && TxAt(chain, 1, 0) && |chain[1].txs[0].vouts| == 2
           && |chain[1].txs[0].vins| == 1;
    hide WellFormed, FullTables, Behind, ValueIn, Complete, DirectIn, PaidBehind, ChangeChain, Hex, OutRow, InRow,
         OutAt, InAt;
    CompleteIsFull(chain);
    OneBehind(chain, 1, "Y", "X");
  }

  lemma SingleTotal<K(!new)>(m: map<K, int>, k: K)
    requires m.Keys == {k}
    ensures Total(m) == m[k]
  {
    TotalRemove(m, k);
    assert m - {k} == map[];
  }
}
