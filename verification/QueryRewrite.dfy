/**
 The rewritten delta statement: it lists the touching transactions as a bag of events, joins them to
 the credit and debit sums and groups the joined rows, where the original unions two arrays of
 distinct txids per address.
 */
module QueryRewrite {
  import opened Common
  import opened Sums
  import opened Chain
  import opened Rows
  import opened Ledger
  import opened Watch

  // ----- the joined rows -----

  /** The columns of GROUP BY; the aggregates are null where the address has no such rows. */
  datatype GroupKey = GroupKey(address: Address, creditSats: Option<int>, debitSats: Option<int>,
                               creditUtxos: Option<int>, debitUtxos: Option<int>)

  /** A row of the join of sums and events; the txid is null where no event matches. */
  datatype Joined = Joined(key: GroupKey, txid: Option<TxId>)

  /** One entry for each of the rows `ks`, duplicates kept. */
  ghost function Bag<T>(ks: set<IoKey>, f: map<IoKey, T>): multiset<T>
    requires ks <= f.Keys
    decreases |ks|
  {
    if ks == {} then multiset{}
    else
      var k := Pick(ks);
      multiset{f[k]} + Bag(ks - {k}, f)
  }

  ghost function SumOf(db: Tables, ks: set<IoKey>): Option<int> {
    if ks == {} then None else Some(Total(Amounts(db, ks)))
  }

  ghost function CountOf(ks: set<IoKey>): Option<int> {
    if ks == {} then None else Some(|ks|)
  }

  ghost function KeyFor(db: Tables, hash: string, height: int, a: Address): GroupKey {
    var cs, ds := Credits(db, hash, a), Debits(db, height, a);
    GroupKey(a, SumOf(db, cs), SumOf(db, ds), CountOf(cs), CountOf(ds))
  }

  ghost function CreditEvents(g: GroupKey, ks: set<IoKey>): map<IoKey, Joined> {
    map k | k in ks :: Joined(g, Some(k.txid))
  }

  ghost function DebitEvents(db: Tables, g: GroupKey, ks: set<IoKey>): map<IoKey, Joined> {
    map k | k in ks && Prev(k) in db.spends :: Joined(g, Some(db.spends[Prev(k)].spendingTxid))
  }

  /** addr_events of one address, joined to its sums: out rows of the block UNION ALL out rows spent at the height. */
  ghost function Matched(db: Tables, hash: string, height: int, a: Address): multiset<Joined> {
    var cs, ds, g := Credits(db, hash, a), Debits(db, height, a), KeyFor(db, hash, height, a);
    Bag(cs, CreditEvents(g, cs)) + Bag(ds, DebitEvents(db, g, ds))
  }

  /** The left join of one address with credits or debits. */
  ghost function RowsOf(db: Tables, hash: string, height: int, a: Address): multiset<Joined> {
    if !Touched(db, hash, height, a) then multiset{}
    else if Matched(db, hash, height, a) == multiset{} then multiset{Joined(KeyFor(db, hash, height, a), None)}
    else Matched(db, hash, height, a)
  }

  ghost function JoinedRows(db: Tables, hash: string, height: int, addresses: set<Address>): multiset<Joined>
    decreases |addresses|
  {
    if addresses == {} then multiset{}
    else
      var a := Pick(addresses);
      RowsOf(db, hash, height, a) + JoinedRows(db, hash, height, addresses - {a})
  }

  // ----- GROUP BY and the update -----

  /** One row of per_addr. */
  datatype PerAddr = PerAddr(key: GroupKey, deltaTxs: nat)

  /** COUNT(DISTINCT txid) of a group skips nulls. */
  ghost function TxidsOf(rows: multiset<Joined>, g: GroupKey): set<TxId> {
    set r | r in rows && r.key == g && r.txid.Some? :: r.txid.value
  }

  ghost function Grouped(rows: multiset<Joined>): set<PerAddr> {
    set r | r in rows :: PerAddr(r.key, |TxidsOf(rows, r.key)|)
  }

  ghost function OrZero(x: Option<int>): int {
    if x.None? then 0 else x.value
  }

  /** The SET clause: the transaction count is added without a clamp. */
  ghost function Updated(w: WatchRow, p: PerAddr, height: int, time: int): WatchRow {
    WatchRow(Max(0, w.balance + (OrZero(p.key.creditSats) - OrZero(p.key.debitSats))),
             Max(0, w.utxos + (OrZero(p.key.creditUtxos) - OrZero(p.key.debitUtxos))),
             w.txCount + p.deltaTxs,
             Earlier(w.firstSeen, time), Later(w.lastSeen, time),
             Some(Max(OrZero(w.scannedHeight), height)),
             Later(w.scannedTime, time))
  }

  ghost predicate RowFor(rows: set<PerAddr>, a: Address, p: PerAddr) {
    p in rows && p.key.address == a
  }

  /** UPDATE ... FROM per_addr: of several rows for one address some one is used. */
  ghost function RewrittenUpdate(db: Tables, hash: string, height: int, time: int, watch: WatchTable): WatchTable {
    var per := Grouped(JoinedRows(db, hash, height, watch.Keys));
    map a | a in watch ::
      if exists p :: RowFor(per, a, p) then
        var p :| RowFor(per, a, p);
        Updated(watch[a], p, height, time)
      else watch[a]
  }

  // ----- grouping gives back one row an address -----

  lemma {:induction false} BagHas<T>(ks: set<IoKey>, f: map<IoKey, T>, x: T)
    requires ks <= f.Keys
    ensures x in Bag(ks, f) <==> exists k :: k in ks && f[k] == x
    decreases |ks|
  {
    if ks != {} {
      var k := Pick(ks);
      BagHas(ks - {k}, f, x);
    }
  }

  lemma CreditRow(g: GroupKey, ks: set<IoKey>, r: Joined)
    ensures r in Bag(ks, CreditEvents(g, ks)) <==> r.key == g && r.txid.Some? && r.txid.value in CreditTxids(ks)
  {
    BagHas(ks, CreditEvents(g, ks), r);
  }

  lemma DebitRow(db: Tables, g: GroupKey, ks: set<IoKey>, r: Joined)
    requires forall k | k in ks :: Prev(k) in db.spends
    ensures r in Bag(ks, DebitEvents(db, g, ks)) <==> r.key == g && r.txid.Some? && r.txid.value in DebitTxids(db, ks)
  {
    BagHas(ks, DebitEvents(db, g, ks), r);
  }

  lemma MatchedAre(db: Tables, hash: string, height: int, a: Address, r: Joined)
    ensures r in Matched(db, hash, height, a) <==>
            r.key == KeyFor(db, hash, height, a) && r.txid.Some? && r.txid.value in TouchedTxids(db, hash, height, a)
  {
    hide Credits, Debits, KeyFor, Bag, CreditEvents, DebitEvents, CreditTxids, DebitTxids;
    var g := KeyFor(db, hash, height, a);
    DebitsSpend(db, height, a);
    CreditRow(g, Credits(db, hash, a), r);
    DebitRow(db, g, Debits(db, height, a), r);
  }

  /** Repeated events of a touched address all carry its one group key, and name the touching transactions. */
  lemma RowsOfAre(db: Tables, hash: string, height: int, a: Address, r: Joined)
    ensures r in RowsOf(db, hash, height, a) <==>
            && r.key == KeyFor(db, hash, height, a) && r.txid.Some?
            && r.txid.value in TouchedTxids(db, hash, height, a)
  {
    hide KeyFor, Matched, Touched, TouchedTxids;
    MatchedAre(db, hash, height, a, r);
    TouchedIff(db, hash, height, a);
    if Touched(db, hash, height, a) {
      var x :| x in TouchedTxids(db, hash, height, a);
      MatchedAre(db, hash, height, a, Joined(KeyFor(db, hash, height, a), Some(x)));
    }
  }

  lemma DebitsSpend(db: Tables, height: int, a: Address)
    ensures forall k | k in Debits(db, height, a) :: Prev(k) in db.spends
  {
  }

  lemma {:induction false} JoinedRowsAre(db: Tables, hash: string, height: int, addresses: set<Address>, r: Joined)
    ensures r in JoinedRows(db, hash, height, addresses) <==>
            r.key.address in addresses && r in RowsOf(db, hash, height, r.key.address)
    decreases |addresses|
  {
    hide RowsOf, TouchedTxids;
    if addresses != {} {
      var a := Pick(addresses);
      JoinedRowsAre(db, hash, height, addresses - {a}, r);
      RowsOfAre(db, hash, height, a, r);
    }
  }

  /** Counting distinct events and uniting the two txid arrays give the same transactions. */
  lemma EventsAreTouched(db: Tables, hash: string, height: int, addresses: set<Address>, a: Address)
    requires a in addresses
    ensures TxidsOf(JoinedRows(db, hash, height, addresses), KeyFor(db, hash, height, a))
            == TouchedTxids(db, hash, height, a)
  {
    hide RowsOf, TouchedTxids, JoinedRows, SumOf, CountOf;
    var rows, g := JoinedRows(db, hash, height, addresses), KeyFor(db, hash, height, a);
    forall x
      ensures x in TxidsOf(rows, g) <==> x in TouchedTxids(db, hash, height, a)
    {
      JoinedRowsAre(db, hash, height, addresses, Joined(g, Some(x)));
      RowsOfAre(db, hash, height, a, Joined(g, Some(x)));
    }
  }

  /** After grouping a touched address has exactly one row and any other address has none. */
  lemma OneGroupEach(db: Tables, hash: string, height: int, addresses: set<Address>, p: PerAddr)
    ensures p in Grouped(JoinedRows(db, hash, height, addresses)) <==>
            var a := p.key.address;
            && a in addresses && Touched(db, hash, height, a)
            && p == PerAddr(KeyFor(db, hash, height, a), |TouchedTxids(db, hash, height, a)|)
  {
    hide RowsOf, TouchedTxids, JoinedRows, Touched, TxidsOf, SumOf, CountOf;
    var rows, a := JoinedRows(db, hash, height, addresses), p.key.address;
    if p in Grouped(rows) {
      var r :| r in rows && p == PerAddr(r.key, |TxidsOf(rows, r.key)|);
      JoinedRowsAre(db, hash, height, addresses, r);
      RowsOfAre(db, hash, height, a, r);
      EventsAreTouched(db, hash, height, addresses, a);
      TouchedIff(db, hash, height, a);
    }
    if a in addresses && Touched(db, hash, height, a)
       && p == PerAddr(KeyFor(db, hash, height, a), |TouchedTxids(db, hash, height, a)|) {
      TouchedIff(db, hash, height, a);
      var x :| x in TouchedTxids(db, hash, height, a);
      var r := Joined(p.key, Some(x));
      RowsOfAre(db, hash, height, a, r);
      JoinedRowsAre(db, hash, height, addresses, r);
      EventsAreTouched(db, hash, height, addresses, a);
    }
  }

  lemma TouchedIff(db: Tables, hash: string, height: int, a: Address)
    ensures Touched(db, hash, height, a) <==> TouchedTxids(db, hash, height, a) != {}
  {
    var cs, ds := Credits(db, hash, a), Debits(db, height, a);
    if k :| k in cs {
      assert k.txid in CreditTxids(cs);
    }
    if k :| k in ds {
      assert db.spends[Prev(k)].spendingTxid in DebitTxids(db, ds);
    }
  }

  /** The rewritten update of one address. */
  lemma RewrittenRowIs(db: Tables, hash: string, height: int, time: int, watch: WatchTable, a: Address)
    requires a in watch
    ensures var row := RewrittenUpdate(db, hash, height, time, watch)[a];
            && (!Touched(db, hash, height, a) ==> row == watch[a])
            && (Touched(db, hash, height, a) ==>
                  row == Updated(watch[a], PerAddr(KeyFor(db, hash, height, a), |TouchedTxids(db, hash, height, a)|),
                                 height, time))
  {
    hide KeyFor, TouchedTxids, JoinedRows, Touched, Grouped, Updated;
    var per := Grouped(JoinedRows(db, hash, height, watch.Keys));
    forall p
      ensures RowFor(per, a, p) ==>
                Touched(db, hash, height, a)
                && p == PerAddr(KeyFor(db, hash, height, a), |TouchedTxids(db, hash, height, a)|)
    {
      OneGroupEach(db, hash, height, watch.Keys, p);
    }
    if Touched(db, hash, height, a) {
      var p := PerAddr(KeyFor(db, hash, height, a), |TouchedTxids(db, hash, height, a)|);
      OneGroupEach(db, hash, height, watch.Keys, p) by {
        KeyHasAddress(db, hash, height, a);
      }
      assert RowFor(per, a, p) by {
        KeyHasAddress(db, hash, height, a);
      }
    }
  }

  lemma KeyHasAddress(db: Tables, hash: string, height: int, a: Address)
    ensures KeyFor(db, hash, height, a).address == a
  {
  }

  /** Null sums count as 0, so the figures are those of the original. */
  lemma SameShift(db: Tables, hash: string, height: int, time: int, a: Address, w: WatchRow)
    requires Touched(db, hash, height, a)
    ensures var n := |TouchedTxids(db, hash, height, a)|;
            var u := Updated(w, PerAddr(KeyFor(db, hash, height, a), n), height, time);
            && u.(txCount := 0) == ScanRow(db, hash, height, time, a, w).(txCount := 0)
            && (u == ScanRow(db, hash, height, time, a, w) <==> w.txCount + n >= 0)
  {
    hide Credits, Debits, TouchedTxids, Touched;
    NoneIsZero(db);
  }

  lemma NoneIsZero(db: Tables)
    ensures Total(Amounts(db, {})) == 0
  {
    assert Amounts(db, {}) == map[];
  }

  /**
   For all table contents and watch lists the two statements make the same update, if and only if no
   touched row's transaction count ends negative; the table's CHECK rules that out.
   */
  lemma {:induction false} RewriteAgrees(db: Tables, hash: string, height: int, time: int, watch: WatchTable)
    ensures RewrittenUpdate(db, hash, height, time, watch) == ScanHeight(db, hash, height, time, watch) <==>
            forall a | a in watch && Touched(db, hash, height, a) ::
              watch[a].txCount + |TouchedTxids(db, hash, height, a)| >= 0
  {
    hide Touched, TouchedTxids, ScanRow, Updated, KeyFor, RewrittenUpdate;
    var rewritten, scanned := RewrittenUpdate(db, hash, height, time, watch), ScanHeight(db, hash, height, time, watch);
    assert rewritten.Keys == watch.Keys by {
      SameAddresses(db, hash, height, time, watch);
    }
    forall a | a in watch
      ensures rewritten[a] == scanned[a] <==>
              Touched(db, hash, height, a) ==> watch[a].txCount + |TouchedTxids(db, hash, height, a)| >= 0
    {
      RewrittenRowIs(db, hash, height, time, watch, a);
      if Touched(db, hash, height, a) {
        SameShift(db, hash, height, time, a, watch[a]);
      } else {
        UntouchedRow(db, hash, height, time, a, watch[a]);
      }
    }
  }

  lemma SameAddresses(db: Tables, hash: string, height: int, time: int, watch: WatchTable)
    ensures RewrittenUpdate(db, hash, height, time, watch).Keys == watch.Keys
  {
  }

  lemma UntouchedRow(db: Tables, hash: string, height: int, time: int, a: Address, w: WatchRow)
    requires !Touched(db, hash, height, a)
    ensures ScanRow(db, hash, height, time, a, w) == w
  {
  }
}
