/**
 What the tables hold after any history of extract and backfill writes: a function of which
 heights were extracted and which had their inputs filled in.
 */
module Confluence {
  import opened Common
  import opened Chain
  import opened Rows
  import opened Extract
  import opened Ledger
  import opened Backfill

  // ----- the rows of a chain -----

  ghost function OutRowsAtHeight(chain: seq<Block>, h: int): seq<IoRow>
    requires 0 <= h < |chain|
  {
    BlockOutRows(chain[h], |chain[h].txs|)
  }

  ghost function InRowsAtHeight(chain: seq<Block>, h: int): seq<IoRow>
    requires 0 <= h < |chain|
  {
    BlockInRows(chain[h], |chain[h].txs|)
  }

  ghost function SpendRowsAtHeight(chain: seq<Block>, h: int): seq<SpendRow>
    requires 0 <= h < |chain| && chain[h].time.Some?
  {
    BlockSpendRows(chain[h], |chain[h].txs|, h)
  }

  /** The block is not skipped. */
  ghost predicate Kept(b: Block) {
    ClassifyBlockFeatures(BlockOutRows(b, |b.txs|) != [], false, b) != FNone
  }

  ghost function TxRowsAtHeight(chain: seq<Block>, h: int): seq<TxRow>
    requires 0 <= h < |chain| && chain[h].time.Some?
  {
    if Kept(chain[h]) then BlockTxRows(chain[h], |chain[h].txs|, true) else []
  }

  ghost function OutKeys(chain: seq<Block>, hs: set<int>): set<IoKey> {
    set h, r | h in hs && 0 <= h < |chain| && r in OutRowsAtHeight(chain, h) :: IoKeyOf(r)
  }

  ghost function InKeys(chain: seq<Block>, hs: set<int>): set<IoKey> {
    set h, r | h in hs && 0 <= h < |chain| && r in InRowsAtHeight(chain, h) :: IoKeyOf(r)
  }

  ghost function SpendKeys(chain: seq<Block>, hs: set<int>): set<Outpoint> {
    set h, r | h in hs && 0 <= h < |chain| && chain[h].time.Some? && r in SpendRowsAtHeight(chain, h) :: OutpointOf(r)
  }

  ghost function TxKeys(chain: seq<Block>, hs: set<int>): set<TxId> {
    set h, r | h in hs && 0 <= h < |chain| && chain[h].time.Some? && r in TxRowsAtHeight(chain, h) :: r.txid
  }

  ghost predicate IoRowOf(chain: seq<Block>, h: int, r: IoRow) {
    0 <= h < |chain| && (r in OutRowsAtHeight(chain, h) || r in InRowsAtHeight(chain, h))
  }

  ghost predicate SpendRowOf(chain: seq<Block>, h: int, r: SpendRow) {
    0 <= h < |chain| && chain[h].time.Some? && r in SpendRowsAtHeight(chain, h)
  }

  ghost predicate TxRowOfHeight(chain: seq<Block>, h: int, r: TxRow) {
    0 <= h < |chain| && chain[h].time.Some? && r in TxRowsAtHeight(chain, h)
  }

  // ----- the complete tables of a chain -----

  ghost function IoEntryFor(chain: seq<Block>, k: IoKey): (e: IoEntry)
    requires k in OutKeys(chain, Below(|chain|)) + InKeys(chain, Below(|chain|))
    ensures exists h, r :: IoRowOf(chain, h, r) && IoKeyOf(r) == k && IoEntryOf(r) == e
  {
    if k in OutKeys(chain, Below(|chain|)) then
      var h, r :| 0 <= h < |chain| && r in OutRowsAtHeight(chain, h) && IoKeyOf(r) == k;
      assert IoRowOf(chain, h, r);
      IoEntryOf(r)
    else
      var h, r :| 0 <= h < |chain| && r in InRowsAtHeight(chain, h) && IoKeyOf(r) == k;
      assert IoRowOf(chain, h, r);
      IoEntryOf(r)
  }

  ghost function SpendEntryFor(chain: seq<Block>, k: Outpoint): (e: SpendEntry)
    requires k in SpendKeys(chain, Below(|chain|))
    ensures exists h, r :: SpendRowOf(chain, h, r) && OutpointOf(r) == k && SpendEntryOf(r) == e
  {
    var h, r :| 0 <= h < |chain| && chain[h].time.Some? && r in SpendRowsAtHeight(chain, h) && OutpointOf(r) == k;
    assert SpendRowOf(chain, h, r);
    SpendEntryOf(r)
  }

  ghost function TxEntryFor(chain: seq<Block>, k: TxId): (e: TxEntry)
    requires k in TxKeys(chain, Below(|chain|))
    ensures exists h, r :: TxRowOfHeight(chain, h, r) && r.txid == k && TxEntryOf(r) == e
  {
    var h, r :| 0 <= h < |chain| && chain[h].time.Some? && r in TxRowsAtHeight(chain, h) && r.txid == k;
    assert TxRowOfHeight(chain, h, r);
    TxEntryOf(r)
  }

  ghost function FullIo(chain: seq<Block>): IoTable {
    map k | k in OutKeys(chain, Below(|chain|)) + InKeys(chain, Below(|chain|)) :: IoEntryFor(chain, k)
  }

  ghost function FullSpends(chain: seq<Block>): SpendTable {
    map k | k in SpendKeys(chain, Below(|chain|)) :: SpendEntryFor(chain, k)
  }

  ghost function FullTxs(chain: seq<Block>): TxTable {
    map k | k in TxKeys(chain, Below(|chain|)) :: TxEntryFor(chain, k)
  }

  ghost function FullTables(chain: seq<Block>): Tables {
    Tables(FullTxs(chain), FullIo(chain), FullSpends(chain))
  }

  /** Which rows are stored, and for which transactions the total of inputs is known. */
  datatype Stored = Stored(txs: set<TxId>, totals: set<TxId>, io: set<IoKey>, spends: set<Outpoint>)

  ghost function Restricted(full: Tables, s: Stored): Tables {
    Tables(
      map k | k in full.txs && k in s.txs :: if k in s.totals then full.txs[k] else full.txs[k].(totalIn := 0),
      map k | k in full.io && k in s.io :: full.io[k],
      map k | k in full.spends && k in s.spends :: full.spends[k])
  }

  ghost function StoredBy(chain: seq<Block>, extracted: set<int>, filled: set<int>): Stored {
    Stored(TxKeys(chain, extracted), TxKeys(chain, filled),
           OutKeys(chain, extracted) + InKeys(chain, filled), SpendKeys(chain, extracted))
  }

  /** The tables once `extracted` heights are extracted and `filled` heights have their inputs. */
  ghost function LedgerOf(chain: seq<Block>, extracted: set<int>, filled: set<int>): Tables {
    Restricted(FullTables(chain), StoredBy(chain, extracted, filled))
  }

  // ----- a key determines its row -----

  lemma OutRowPosition(chain: seq<Block>, h: int, r: IoRow) returns (i: int, j: int)
    requires 0 <= h < |chain| && r in OutRowsAtHeight(chain, h)
    ensures OutAt(chain[h], i, j) && r == OutRow(chain[h].txs[i], j) && TxAt(chain, h, i)
    ensures ValidIoRow(r) && r.io == Out
  {
    BlockOutRowsAre(chain[h], |chain[h].txs|, r);
    i, j :| i < |chain[h].txs| && OutAt(chain[h], i, j) && r == OutRow(chain[h].txs[i], j);
    assert OutAt(chain[h], i, j);
  }

  lemma InRowPosition(chain: seq<Block>, h: int, r: IoRow) returns (i: int, j: int)
    requires 0 <= h < |chain| && r in InRowsAtHeight(chain, h)
    ensures InAt(chain[h], i, j) && r == InRow(chain[h].txs[i], j) && InputAt(chain, h, i, j)
    ensures ValidIoRow(r) && r.io == In
  {
    BlockInRowsAre(chain[h], |chain[h].txs|, r);
    i, j :| i < |chain[h].txs| && InAt(chain[h], i, j) && r == InRow(chain[h].txs[i], j);
    assert InAt(chain[h], i, j) && SpendAt(chain[h], i, j);
  }

  lemma SpendRowPosition(chain: seq<Block>, h: int, r: SpendRow) returns (i: int, j: int)
    requires SpendRowOf(chain, h, r)
    ensures SpendAt(chain[h], i, j) && r == SpendOf(chain[h].txs[i], j, h, chain[h]) && InputAt(chain, h, i, j)
  {
    BlockSpendRowsAre(chain[h], |chain[h].txs|, h, r);
    i, j :| i < |chain[h].txs| && SpendAt(chain[h], i, j) && r == SpendOf(chain[h].txs[i], j, h, chain[h]);
    assert SpendAt(chain[h], i, j);
  }

  lemma TxRowPosition(chain: seq<Block>, h: int, r: TxRow) returns (i: int)
    requires TxRowOfHeight(chain, h, r)
    ensures TxAt(chain, h, i) && r == TxRowOf(chain[h].txs[i], chain[h], true) && Kept(chain[h])
  {
    BlockTxRowsAre(chain[h], |chain[h].txs|, true, r);
    i :| 0 <= i < |chain[h].txs| && KnownTx(chain[h].txs[i]) && r == TxRowOf(chain[h].txs[i], chain[h], true);
  }

  lemma IoRowPosition(chain: seq<Block>, h: int, r: IoRow) returns (i: int, j: int)
    requires IoRowOf(chain, h, r)
    ensures TxAt(chain, h, i) && r.txid == chain[h].txs[i].txid.value && r.idx == j && ValidIoRow(r)
    ensures r.io == Out ==> OutAt(chain[h], i, j) && r == OutRow(chain[h].txs[i], j)
    ensures r.io == In ==> InAt(chain[h], i, j) && r == InRow(chain[h].txs[i], j)
  {
    if r in OutRowsAtHeight(chain, h) {
      i, j := OutRowPosition(chain, h, r);
    } else {
      i, j := InRowPosition(chain, h, r);
    }
  }

  lemma IoKeyDetermines(chain: seq<Block>, h: int, r: IoRow, h': int, r': IoRow)
    requires DistinctTxids(chain)
    requires IoRowOf(chain, h, r) && IoRowOf(chain, h', r') && IoKeyOf(r) == IoKeyOf(r')
    ensures r == r' && h == h'
  {
    var i, j := IoRowPosition(chain, h, r);
    var i', j' := IoRowPosition(chain, h', r');
    assert chain[h].txs[i].txid == chain[h'].txs[i'].txid;
  }

  lemma OutpointDetermines(chain: seq<Block>, h: int, r: SpendRow, h': int, r': SpendRow)
    requires DistinctOutpoints(chain)
    requires SpendRowOf(chain, h, r) && SpendRowOf(chain, h', r') && OutpointOf(r) == OutpointOf(r')
    ensures r == r' && h == h'
  {
    var i, j := SpendRowPosition(chain, h, r);
    var i', j' := SpendRowPosition(chain, h', r');
    assert chain[h].txs[i].vins[j].txid == chain[h'].txs[i'].vins[j'].txid;
    assert chain[h].txs[i].vins[j].vout == chain[h'].txs[i'].vins[j'].vout;
  }

  lemma SpenderDetermines(chain: seq<Block>, h: int, r: SpendRow, h': int, r': SpendRow)
    requires DistinctTxids(chain)
    requires SpendRowOf(chain, h, r) && SpendRowOf(chain, h', r')
    requires r.spendingTxid == r'.spendingTxid && r.spendingVin == r'.spendingVin
    ensures r == r' && h == h'
  {
    var i, j := SpendRowPosition(chain, h, r);
    var i', j' := SpendRowPosition(chain, h', r');
    assert chain[h].txs[i].txid == chain[h'].txs[i'].txid;
  }

  lemma TxidDetermines(chain: seq<Block>, h: int, r: TxRow, h': int, r': TxRow)
    requires DistinctTxids(chain)
    requires TxRowOfHeight(chain, h, r) && TxRowOfHeight(chain, h', r') && r.txid == r'.txid
    ensures r == r' && h == h'
  {
    var i := TxRowPosition(chain, h, r);
    var i' := TxRowPosition(chain, h', r');
    assert chain[h].txs[i].txid == chain[h'].txs[i'].txid;
  }

  lemma FullIoHas(chain: seq<Block>, h: int, r: IoRow)
    requires DistinctTxids(chain) && IoRowOf(chain, h, r)
    ensures IoKeyOf(r) in FullIo(chain) && FullIo(chain)[IoKeyOf(r)] == IoEntryOf(r)
  {
    var k := IoKeyOf(r);
    assert k in OutKeys(chain, Below(|chain|)) + InKeys(chain, Below(|chain|));
    var h', r' :| IoRowOf(chain, h', r') && IoKeyOf(r') == k && FullIo(chain)[k] == IoEntryOf(r');
    IoKeyDetermines(chain, h, r, h', r');
  }

  lemma FullSpendsHas(chain: seq<Block>, h: int, r: SpendRow)
    requires DistinctOutpoints(chain) && SpendRowOf(chain, h, r)
    ensures OutpointOf(r) in FullSpends(chain) && FullSpends(chain)[OutpointOf(r)] == SpendEntryOf(r)
  {
    var k := OutpointOf(r);
    assert k in SpendKeys(chain, Below(|chain|));
    var h', r' :| SpendRowOf(chain, h', r') && OutpointOf(r') == k && FullSpends(chain)[k] == SpendEntryOf(r');
    OutpointDetermines(chain, h, r, h', r');
  }

  lemma FullTxsHas(chain: seq<Block>, h: int, r: TxRow)
    requires DistinctTxids(chain) && TxRowOfHeight(chain, h, r)
    ensures r.txid in FullTxs(chain) && FullTxs(chain)[r.txid] == TxEntryOf(r)
  {
    var k := r.txid;
    assert k in TxKeys(chain, Below(|chain|));
    var h', r' :| TxRowOfHeight(chain, h', r') && r'.txid == k && FullTxs(chain)[k] == TxEntryOf(r');
    TxidDetermines(chain, h, r, h', r');
  }

  // ----- inserting rows that agree with a complete table -----

  ghost predicate Within<K, V>(t: map<K, V>, u: map<K, V>) {
    forall k | k in t :: k in u && t[k] == u[k]
  }

  ghost function IoRowKeys(rows: seq<IoRow>, n: nat): (ks: set<IoKey>)
    requires n <= |rows|
  {
    if n == 0 then {} else IoRowKeys(rows, n - 1) + {IoKeyOf(rows[n - 1])}
  }

  lemma {:induction false} IoRowKeysAre(rows: seq<IoRow>, n: nat)
    requires n <= |rows|
    ensures forall k :: k in IoRowKeys(rows, n) <==> exists m :: 0 <= m < n && IoKeyOf(rows[m]) == k
  {
    if n > 0 {
      IoRowKeysAre(rows, n - 1);
    }
  }

  lemma InsertOneWithin<K, V>(t: map<K, V>, k: K, v: V, u: map<K, V>)
    requires Within(t, u) && k in u && u[k] == v
    ensures Within(t[k := v], u)
  {
  }

  lemma {:induction false} InsertIoKeys(t: IoTable, rows: seq<IoRow>, n: nat)
    requires n <= |rows| && forall r | r in rows :: ValidIoRow(r)
    ensures InsertIo(t, rows, n).Keys == t.Keys + IoRowKeys(rows, n)
  {
    hide ValidIoRow, IoKeyOf, IoEntryOf;
    if n > 0 {
      InsertIoKeys(t, rows, n - 1);
      assert rows[n - 1] in rows;
      assert IoRowKeys(rows, n) == IoRowKeys(rows, n - 1) + {IoKeyOf(rows[n - 1])};
    }
  }

  lemma {:induction false} InsertIoWithin(t: IoTable, rows: seq<IoRow>, n: nat, u: IoTable)
    requires n <= |rows| && Within(t, u)
    requires forall r | r in rows :: ValidIoRow(r) && IoKeyOf(r) in u && u[IoKeyOf(r)] == IoEntryOf(r)
    ensures Within(InsertIo(t, rows, n), u)
    ensures InsertIo(t, rows, n).Keys == t.Keys + IoRowKeys(rows, n)
  {
    InsertIoKeys(t, rows, n);
    hide IoRowKeys;
    if n > 0 {
      InsertIoWithin(t, rows, n - 1, u);
      assert rows[n - 1] in rows;
      hide ValidIoRow, IoKeyOf, IoEntryOf, Within;
      InsertOneWithin(InsertIo(t, rows, n - 1), IoKeyOf(rows[n - 1]), IoEntryOf(rows[n - 1]), u);
    }
  }

  ghost function SpendRowKeys(rows: seq<SpendRow>, n: nat): (ks: set<Outpoint>)
    requires n <= |rows|
  {
    if n == 0 then {} else SpendRowKeys(rows, n - 1) + {OutpointOf(rows[n - 1])}
  }

  lemma {:induction false} SpendRowKeysAre(rows: seq<SpendRow>, n: nat)
    requires n <= |rows|
    ensures forall k :: k in SpendRowKeys(rows, n) <==> exists m :: 0 <= m < n && OutpointOf(rows[m]) == k
  {
    if n > 0 {
      SpendRowKeysAre(rows, n - 1);
    }
  }

  /** No two outpoints of `u` are spent by the same input. */
  ghost predicate SpendersDiffer(u: SpendTable) {
    forall k, k' | k in u && k' in u ::
      u[k].spendingTxid == u[k'].spendingTxid && u[k].spendingVin == u[k'].spendingVin ==> k == k'
  }

  /** An edge of the complete table never clashes with stored ones. */
  lemma InsertSpendWithin(t: SpendTable, r: SpendRow, u: SpendTable)
    requires Within(t, u) && SpendersDiffer(u) && OutpointOf(r) in u && u[OutpointOf(r)] == SpendEntryOf(r)
    ensures OutpointOf(r) !in t ==> !SpenderTaken(t, r)
    ensures Within(t[OutpointOf(r) := SpendEntryOf(r)], u)
  {
  }

  lemma {:induction false} InsertSpendsWithin(t: SpendTable, rows: seq<SpendRow>, n: nat, u: SpendTable)
    requires n <= |rows| && Within(t, u) && SpendersDiffer(u)
    requires forall r | r in rows :: OutpointOf(r) in u && u[OutpointOf(r)] == SpendEntryOf(r)
    ensures InsertSpends(t, rows, n).Some?
    ensures Within(InsertSpends(t, rows, n).value, u)
    ensures InsertSpends(t, rows, n).value.Keys == t.Keys + SpendRowKeys(rows, n)
  {
    if n > 0 {
      InsertSpendsWithin(t, rows, n - 1, u);
      var t', r := InsertSpends(t, rows, n - 1).value, rows[n - 1];
      assert r in rows && u[OutpointOf(r)] == SpendEntryOf(r);
      hide Within, SpenderTaken, SpendersDiffer, OutpointOf, SpendEntryOf;
      InsertSpendWithin(t', r, u);
    }
  }

  lemma FullSpendersDiffer(chain: seq<Block>)
    requires DistinctTxids(chain) && DistinctOutpoints(chain)
    ensures SpendersDiffer(FullSpends(chain))
  {
    var u := FullSpends(chain);
    forall k, k' | k in u && k' in u && u[k].spendingTxid == u[k'].spendingTxid && u[k].spendingVin == u[k'].spendingVin
      ensures k == k'
    {
      var h, r :| SpendRowOf(chain, h, r) && OutpointOf(r) == k && SpendEntryOf(r) == u[k];
      var h', r' :| SpendRowOf(chain, h', r') && OutpointOf(r') == k' && SpendEntryOf(r') == u[k'];
      assert SpendEntryOf(r).spendingTxid == r.spendingTxid && SpendEntryOf(r').spendingTxid == r'.spendingTxid;
      SpenderDetermines(chain, h, r, h', r');
    }
  }

  ghost function TxRowKeys(rows: seq<TxRow>, n: nat): (ks: set<TxId>)
    requires n <= |rows|
  {
    if n == 0 then {} else TxRowKeys(rows, n - 1) + {rows[n - 1].txid}
  }

  lemma {:induction false} TxRowKeysAre(rows: seq<TxRow>, n: nat)
    requires n <= |rows|
    ensures forall k :: k in TxRowKeys(rows, n) <==> exists m :: 0 <= m < n && rows[m].txid == k
  {
    if n > 0 {
      TxRowKeysAre(rows, n - 1);
    }
  }

  /** `t` agrees with `u`, except that total_in is still 0 outside `filled`. */
  ghost predicate PartlyFilled(t: TxTable, u: TxTable, filled: set<TxId>) {
    forall k | k in t :: k in u && t[k] == if k in filled then u[k] else u[k].(totalIn := 0)
  }

  ghost predicate RefreshesTo(r: TxRow, u: TxTable, hasPrevouts: bool) {
    && r.txid in u && u[r.txid].totalIn >= 0
    && r.blockHash == u[r.txid].blockHash && r.time == u[r.txid].time && r.totalOut == u[r.txid].totalOut
    && r.totalIn == if hasPrevouts then u[r.txid].totalIn else 0
  }

  lemma UpsertTxFills(t: TxTable, r: TxRow, u: TxTable, filled: set<TxId>, hasPrevouts: bool)
    requires filled <= t.Keys && PartlyFilled(t, u, filled) && RefreshesTo(r, u, hasPrevouts)
    ensures UpsertTx(t, r).Keys == t.Keys + {r.txid}
    ensures PartlyFilled(UpsertTx(t, r), u, if hasPrevouts then filled + {r.txid} else filled)
  {
    var t' := UpsertTx(t, r);
    forall k | k in t'
      ensures k in u && t'[k] == if k in filled || (hasPrevouts && k == r.txid) then u[k] else u[k].(totalIn := 0)
    {
      if k == r.txid && k !in t {
        assert t'[k] == TxEntryOf(r);
      }
    }
  }

  lemma {:induction false} UpsertTxsKeys(t: TxTable, rows: seq<TxRow>, n: nat)
    requires n <= |rows|
    ensures UpsertTxs(t, rows, n).Keys == t.Keys + TxRowKeys(rows, n)
  {
    if n > 0 {
      UpsertTxsKeys(t, rows, n - 1);
      assert TxRowKeys(rows, n) == TxRowKeys(rows, n - 1) + {rows[n - 1].txid};
      assert UpsertTx(UpsertTxs(t, rows, n - 1), rows[n - 1]).Keys
             == UpsertTxs(t, rows, n - 1).Keys + {rows[n - 1].txid};
    }
  }

  lemma {:induction false} UpsertTxsFills(t: TxTable, rows: seq<TxRow>, n: nat, u: TxTable, filled: set<TxId>,
                                          hasPrevouts: bool)
    requires n <= |rows| && filled <= t.Keys && PartlyFilled(t, u, filled)
    requires forall r | r in rows :: RefreshesTo(r, u, hasPrevouts)
    ensures UpsertTxs(t, rows, n).Keys == t.Keys + TxRowKeys(rows, n)
    ensures PartlyFilled(UpsertTxs(t, rows, n), u, if hasPrevouts then filled + TxRowKeys(rows, n) else filled)
  {
    UpsertTxsKeys(t, rows, n);
    if n > 0 {
      hide UpsertTx, PartlyFilled, RefreshesTo;
      UpsertTxsFills(t, rows, n - 1, u, filled, hasPrevouts);
      var filled' := if hasPrevouts then filled + TxRowKeys(rows, n - 1) else filled;
      assert rows[n - 1] in rows;
      UpsertTxFills(UpsertTxs(t, rows, n - 1), rows[n - 1], u, filled', hasPrevouts);
      if hasPrevouts {
        assert filled' + {rows[n - 1].txid} == filled + TxRowKeys(rows, n);
      }
    } else {
      assert filled + TxRowKeys(rows, 0) == filled;
    }
  }

  // ----- tables as restrictions of the complete tables -----

  ghost predicate Covered(full: Tables, s: Stored) {
    && s.txs <= full.txs.Keys && s.totals <= s.txs && s.io <= full.io.Keys && s.spends <= full.spends.Keys
    && SpendersDiffer(full.spends)
  }

  lemma RestrictedIs(db: Tables, full: Tables, s: Stored)
    requires Covered(full, s)
    ensures db == Restricted(full, s) <==>
            && db.txs.Keys == s.txs && PartlyFilled(db.txs, full.txs, s.totals)
            && db.io.Keys == s.io && Within(db.io, full.io)
            && db.spends.Keys == s.spends && Within(db.spends, full.spends)
  {
    var l := Restricted(full, s);
    assert l.txs.Keys == s.txs && l.io.Keys == s.io && l.spends.Keys == s.spends;
    if db.txs.Keys == s.txs && PartlyFilled(db.txs, full.txs, s.totals) {
      assert db.txs == l.txs;
    }
    if db.io.Keys == s.io && Within(db.io, full.io) {
      assert db.io == l.io;
    }
    if db.spends.Keys == s.spends && Within(db.spends, full.spends) {
      assert db.spends == l.spends;
    }
  }

  ghost predicate IoRowsAgree(rows: seq<IoRow>, u: IoTable) {
    forall r | r in rows :: ValidIoRow(r) && IoKeyOf(r) in u && u[IoKeyOf(r)] == IoEntryOf(r)
  }

  ghost predicate SpendRowsAgree(rows: seq<SpendRow>, u: SpendTable) {
    forall r | r in rows :: OutpointOf(r) in u && u[OutpointOf(r)] == SpendEntryOf(r)
  }

  ghost predicate RepeatsTxid(rows: seq<TxRow>) {
    exists i, j | 0 <= i < j < |rows| :: rows[i].txid == rows[j].txid
  }

  /** Rows with different keys never come back to one another, whatever is stored. */
  lemma {:induction false} DifferentRowsGoIn(t: TxTable, rows: seq<TxRow>, n: nat)
    requires n <= |rows| && !RepeatsTxid(rows)
    ensures !ComesBack(t, rows, n)
    ensures forall k | k in Written(t, rows, n) :: exists i :: 0 <= i < n && rows[i].txid == k
  {
    if n > 0 {
      DifferentRowsGoIn(t, rows, n - 1);
    }
  }

  ghost predicate TxRowsAgree(rows: seq<TxRow>, u: TxTable, hasPrevouts: bool) {
    !RepeatsTxid(rows) && forall r | r in rows :: RefreshesTo(r, u, hasPrevouts)
  }

  ghost function AllIoKeys(rows: seq<IoRow>): set<IoKey> {
    IoRowKeys(rows, |rows|)
  }

  ghost function AllSpendKeys(rows: seq<SpendRow>): set<Outpoint> {
    SpendRowKeys(rows, |rows|)
  }

  ghost function AllTxKeys(rows: seq<TxRow>): set<TxId> {
    TxRowKeys(rows, |rows|)
  }

  lemma {:induction false} IoKeysWithin(rows: seq<IoRow>, n: nat, u: set<IoKey>)
    requires n <= |rows| && forall r | r in rows :: IoKeyOf(r) in u
    ensures IoRowKeys(rows, n) <= u
  {
    if n > 0 {
      IoKeysWithin(rows, n - 1, u);
      assert rows[n - 1] in rows;
    }
  }

  lemma {:induction false} SpendKeysWithin(rows: seq<SpendRow>, n: nat, u: set<Outpoint>)
    requires n <= |rows| && forall r | r in rows :: OutpointOf(r) in u
    ensures SpendRowKeys(rows, n) <= u
  {
    if n > 0 {
      SpendKeysWithin(rows, n - 1, u);
      assert rows[n - 1] in rows;
    }
  }

  lemma {:induction false} TxKeysWithin(rows: seq<TxRow>, n: nat, u: set<TxId>)
    requires n <= |rows| && forall r | r in rows :: r.txid in u
    ensures TxRowKeys(rows, n) <= u
  {
    if n > 0 {
      TxKeysWithin(rows, n - 1, u);
      assert rows[n - 1] in rows;
    }
  }

  /** Writing rows that agree with the complete tables adds their keys and nothing else. */
  lemma WriteMeets(full: Tables, s: Stored, p: Parsed, hasPrevouts: bool)
    requires Covered(full, s)
    requires TxRowsAgree(p.txRows, full.txs, hasPrevouts)
    requires IoRowsAgree(p.outRows + p.inRows, full.io) && SpendRowsAgree(p.spendRows, full.spends)
    ensures var s' := Stored(s.txs + AllTxKeys(p.txRows),
                             if hasPrevouts then s.totals + AllTxKeys(p.txRows) else s.totals,
                             s.io + AllIoKeys(p.outRows + p.inRows), s.spends + AllSpendKeys(p.spendRows));
            WriteParsed(Restricted(full, s), p) == Some(Restricted(full, s')) && Covered(full, s')
  {
    var db, rows := Restricted(full, s), p.outRows + p.inRows;
    RestrictedIs(db, full, s);
    DifferentRowsGoIn(db.txs, p.txRows, |p.txRows|);
    UpsertTxsFills(db.txs, p.txRows, |p.txRows|, full.txs, s.totals, hasPrevouts);
    InsertIoWithin(db.io, rows, |rows|, full.io);
    InsertSpendsWithin(db.spends, p.spendRows, |p.spendRows|, full.spends);
    var s' := Stored(s.txs + AllTxKeys(p.txRows),
                     if hasPrevouts then s.totals + AllTxKeys(p.txRows) else s.totals,
                     s.io + AllIoKeys(rows), s.spends + AllSpendKeys(p.spendRows));
    var db' := WriteParsed(db, p).value;
    TxKeysWithin(p.txRows, |p.txRows|, full.txs.Keys);
    IoKeysWithin(rows, |rows|, full.io.Keys);
    SpendKeysWithin(p.spendRows, |p.spendRows|, full.spends.Keys);
    RestrictedIs(db', full, s');
  }

  /** Totals that are right where a total is still missing, and 0 where a known total is 0. */
  ghost predicate TotalsAgree(totals: map<TxId, int>, full: TxTable, s: Stored) {
    forall k | k in totals && k in s.txs && k in full ::
      totals[k] == full[k].totalIn || (k in s.totals && full[k].totalIn != 0)
  }

  lemma FillMeets(full: Tables, s: Stored, totals: map<TxId, int>, inRows: seq<IoRow>, spendRows: seq<SpendRow>)
    requires Covered(full, s) && TotalsAgree(totals, full.txs, s)
    requires IoRowsAgree(inRows, full.io) && SpendRowsAgree(spendRows, full.spends)
    ensures var db := Restricted(full, s);
            var spends := InsertSpendRows(db.spends, spendRows);
            && spends.Some?
            && Tables(UpdateTotalIn(db.txs, totals), InsertIoRows(db.io, inRows), spends.value)
               == Restricted(full, Stored(s.txs, s.totals + (totals.Keys * s.txs), s.io + AllIoKeys(inRows),
                                          s.spends + AllSpendKeys(spendRows)))
  {
    var db := Restricted(full, s);
    RestrictedIs(db, full, s);
    InsertIoWithin(db.io, inRows, |inRows|, full.io);
    InsertSpendsWithin(db.spends, spendRows, |spendRows|, full.spends);
    var s' := Stored(s.txs, s.totals + (totals.Keys * s.txs), s.io + AllIoKeys(inRows),
                     s.spends + AllSpendKeys(spendRows));
    var db' := Tables(UpdateTotalIn(db.txs, totals), InsertIoRows(db.io, inRows),
                      InsertSpendRows(db.spends, spendRows).value);
    IoKeysWithin(inRows, |inRows|, full.io.Keys);
    SpendKeysWithin(spendRows, |spendRows|, full.spends.Keys);
    RestrictedIs(db', full, s');
  }
}
