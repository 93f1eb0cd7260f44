/**
 Balances of watched addresses: the per-block delta statement of scan-addresses, and the statements
 that compute the same figures from scratch.
 */
module Watch {
  import opened Common
  import opened Sums
  import opened Chain
  import opened Rows
  import opened Ledger

  datatype WatchRow = WatchRow(balance: int, utxos: int, txCount: int, firstSeen: Option<int>, lastSeen: Option<int>,
                               scannedHeight: Option<int>, scannedTime: Option<int>)

  /** A row as it is added to the list. */
  const UNSEEN := WatchRow(0, 0, 0, None, None, None, None)

  type WatchTable = map<Address, WatchRow>

  // ----- joins and aggregates -----

  function Prev(k: IoKey): Outpoint {
    Outpoint(k.txid, k.idx)
  }

  /** The out rows of an address. */
  function Outs(db: Tables, a: Address): set<IoKey> {
    set k | k in db.io && k.io == Out && db.io[k].address == a
  }

  /** Out rows of transactions of the block with this hash. */
  function Credits(db: Tables, hash: string, a: Address): set<IoKey> {
    set k | k in Outs(db, a) && k.txid in db.txs && db.txs[k.txid].blockHash == hash
  }

  /** Out rows spent at this height: a spend row joins at most one out row, so that row is its key. */
  function Debits(db: Tables, height: int, a: Address): set<IoKey> {
    set k | k in Outs(db, a) && Prev(k) in db.spends && db.spends[Prev(k)].height == height
  }

  function Amounts(db: Tables, ks: set<IoKey>): map<IoKey, int> {
    map k | k in ks && k in db.io :: db.io[k].amount
  }

  function CreditTxids(ks: set<IoKey>): set<TxId> {
    set k | k in ks :: k.txid
  }

  function DebitTxids(db: Tables, ks: set<IoKey>): set<TxId> {
    set k | k in ks && Prev(k) in db.spends :: db.spends[Prev(k)].spendingTxid
  }

  predicate Touched(db: Tables, hash: string, height: int, a: Address) {
    Credits(db, hash, a) != {} || Debits(db, height, a) != {}
  }

  function TouchedTxids(db: Tables, hash: string, height: int, a: Address): set<TxId> {
    CreditTxids(Credits(db, hash, a)) + DebitTxids(db, Debits(db, height, a))
  }

  ghost function DeltaSats(db: Tables, hash: string, height: int, a: Address): int {
    Total(Amounts(db, Credits(db, hash, a))) - Total(Amounts(db, Debits(db, height, a)))
  }

  ghost function DeltaUtxos(db: Tables, hash: string, height: int, a: Address): int {
    |Credits(db, hash, a)| - |Debits(db, height, a)|
  }

  function Earlier(a: Option<int>, b: int): Option<int> {
    if a.None? then Some(b) else Some(Min(a.value, b))
  }

  function Later(a: Option<int>, b: int): Option<int> {
    if a.None? then Some(b) else Some(Max(a.value, b))
  }

  // ----- the delta of one height -----

  function Shifted(w: WatchRow, sats: int, utxos: int, txs: int, height: int, time: int): WatchRow {
    WatchRow(Max(0, w.balance + sats), Max(0, w.utxos + utxos), Max(0, w.txCount + txs),
             Earlier(w.firstSeen, time), Later(w.lastSeen, time),
             Some(Max(if w.scannedHeight.None? then 0 else w.scannedHeight.value, height)),
             Later(w.scannedTime, time))
  }

  ghost function ScanRow(db: Tables, hash: string, height: int, time: int, a: Address, w: WatchRow): WatchRow {
    if !Touched(db, hash, height, a) then w
    else Shifted(w, DeltaSats(db, hash, height, a), DeltaUtxos(db, hash, height, a),
                 |TouchedTxids(db, hash, height, a)|, height, time)
  }

  ghost function ScanHeight(db: Tables, hash: string, height: int, time: int, watch: WatchTable): WatchTable {
    map a | a in watch :: ScanRow(db, hash, height, time, a, watch[a])
  }

  method SumAmounts(db: Tables, ks: set<IoKey>) returns (sum: int)
    requires forall k | k in ks :: k in db.io
    ensures sum == Total(Amounts(db, ks))
  {
    sum := 0;
    var todo := ks;
    while todo != {}
      invariant todo <= ks
      invariant sum + Total(Amounts(db, todo)) == Total(Amounts(db, ks))
      decreases |todo|
    {
      var k :| k in todo;
      TotalRemove(Amounts(db, todo), k);
      assert Amounts(db, todo) - {k} == Amounts(db, todo - {k});
      sum := sum + db.io[k].amount;
      todo := todo - {k};
    }
    assert Amounts(db, {}) == map[];
  }

  lemma CreditsAreRows(db: Tables, hash: string, height: int, a: Address)
    ensures forall k | k in Credits(db, hash, a) || k in Debits(db, height, a) :: k in db.io
  {
  }

  /** The credits, debits and per_addr subqueries for one address, and the row they lead to. */
  method DeltaFor(db: Tables, hash: string, height: int, time: int, a: Address, w: WatchRow)
    returns (w': WatchRow, touched: bool)
    ensures touched == Touched(db, hash, height, a)
    ensures w' == ScanRow(db, hash, height, time, a, w)
  {
    hide Credits, Debits, Amounts, CreditTxids, DebitTxids, Shifted, Total;
    CreditsAreRows(db, hash, height, a);
    var credits, debits := Credits(db, hash, a), Debits(db, height, a);
    touched := credits != {} || debits != {};
    if !touched {
      return w, false;
    }
    var creditSats := SumAmounts(db, credits);
    var debitSats := SumAmounts(db, debits);
    var txids := CreditTxids(credits) + DebitTxids(db, debits);
    w' := Shifted(w, creditSats - debitSats, |credits| - |debits|, |txids|, height, time);
  }

  function TouchedAmong(db: Tables, hash: string, height: int, addresses: set<Address>): set<Address> {
    set a | a in addresses && Touched(db, hash, height, a)
  }

  lemma NoneTouched(db: Tables, hash: string, height: int)
    ensures TouchedAmong(db, hash, height, {}) == {}
  {
  }

  lemma OneTouched(db: Tables, hash: string, height: int, done: set<Address>, a: Address)
    requires a !in done
    ensures |TouchedAmong(db, hash, height, done + {a})|
            == |TouchedAmong(db, hash, height, done)| + if Touched(db, hash, height, a) then 1 else 0
  {
    hide Touched;
    var before := TouchedAmong(db, hash, height, done);
    assert TouchedAmong(db, hash, height, done + {a}) == if Touched(db, hash, height, a) then before + {a} else before;
  }

  lemma ScanHeightIs(db: Tables, hash: string, height: int, time: int, watch: WatchTable, scanned: WatchTable)
    requires scanned.Keys == watch.Keys && forall a | a in watch ::
               scanned[a] == ScanRow(db, hash, height, time, a, watch[a])
    ensures scanned == ScanHeight(db, hash, height, time, watch)
  {
    hide ScanRow;
  }

  class WatchList {
    var rows: WatchTable

    constructor (addresses: set<Address>)
      ensures rows == map a | a in addresses :: UNSEEN
    {
      rows := map a | a in addresses :: UNSEEN;
    }

    /** The statement of scan-addresses for one height; returns the number of rows updated. */
    method ApplyDelta(db: Tables, hash: string, height: int, time: int) returns (updated: nat)
      modifies this
      ensures rows == ScanHeight(db, hash, height, time, old(rows))
      ensures updated == |TouchedAmong(db, hash, height, old(rows).Keys)|
    {
      hide Touched, ScanRow, ScanHeight, TouchedAmong;
      var todo, done: set<Address> := rows.Keys, {};
      updated := 0;
      NoneTouched(db, hash, height);
      while todo != {}
        invariant todo !! done && todo + done == old(rows).Keys == rows.Keys
        invariant forall a | a in todo :: rows[a] == old(rows)[a]
        invariant forall a | a in done :: rows[a] == ScanRow(db, hash, height, time, a, old(rows)[a])
        invariant updated == |TouchedAmong(db, hash, height, done)|
        decreases |todo|
      {
        var a :| a in todo;
        var w, touched := DeltaFor(db, hash, height, time, a, rows[a]);
        OneTouched(db, hash, height, done, a);
        todo, done, rows := todo - {a}, done + {a}, rows[a := w];
        if touched {
          updated := updated + 1;
        }
      }
      assert done == old(rows).Keys;
      ScanHeightIs(db, hash, height, time, old(rows), rows);
    }
  }

  // ----- the same figures from scratch -----

  function SpentOuts(db: Tables, a: Address): set<IoKey> {
    set k | k in Outs(db, a) && Prev(k) in db.spends
  }

  function UnspentOuts(db: Tables, a: Address): set<IoKey> {
    set k | k in Outs(db, a) && Prev(k) !in db.spends
  }

  function AllTouched(db: Tables, a: Address): set<TxId> {
    CreditTxids(Outs(db, a)) + DebitTxids(db, SpentOuts(db, a))
  }

  /** Times of the touching transactions that are in the transactions table. */
  function TouchTimes(db: Tables, a: Address): set<int> {
    set t | t in AllTouched(db, a) && t in db.txs :: db.txs[t].time
  }

  function Coalesce(a: Option<int>, b: Option<int>): Option<int> {
    if a.Some? then a else b
  }

  /** recompute-balances on one row; an address without out rows is left alone. */
  ghost function RecomputeRow(db: Tables, a: Address, w: WatchRow): WatchRow {
    if Outs(db, a) == {} then w
    else w.(balance := Total(Amounts(db, UnspentOuts(db, a))),
            utxos := |UnspentOuts(db, a)|,
            txCount := |AllTouched(db, a)|,
            firstSeen := Coalesce(Least(TouchTimes(db, a)), w.firstSeen),
            lastSeen := Coalesce(Greatest(TouchTimes(db, a)), w.lastSeen))
  }

  ghost function Recompute(db: Tables, watch: WatchTable): WatchTable {
    map a | a in watch :: RecomputeRow(db, a, watch[a])
  }

  /** A row of address_balances. */
  datatype Balance = Balance(balance: int, utxos: int, received: int, spent: int)

  ghost function BalanceOf(db: Tables, a: Address): Balance {
    Balance(Total(Amounts(db, UnspentOuts(db, a))), |UnspentOuts(db, a)|,
            Total(Amounts(db, Outs(db, a))), Total(Amounts(db, SpentOuts(db, a))))
  }

  function OutAddresses(db: Tables): set<Address> {
    set k | k in db.io && k.io == Out :: db.io[k].address
  }

  /** build-balances: one row for every address with an out row. */
  ghost function BuildBalances(db: Tables): map<Address, Balance> {
    map a | a in OutAddresses(db) :: BalanceOf(db, a)
  }
}
