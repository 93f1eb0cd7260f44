/**
 The haircut model of the trace: a sender's money in a transaction reaches each recipient in
 proportion to what the sender put in.
 */
module Haircut {
  import opened Common
  import opened Sums
  import opened RealSums
  import opened Chain
  import opened Rows
  import opened Ledger
  import opened Confluence
  import opened Watch
  import opened FullLedger
  import opened Conservation

  // ----- the subqueries of the outgoing edge query, for all senders at once -----

  ghost function Owners(db: Tables): map<IoKey, Address> {
    map k | k in db.io :: db.io[k].address
  }

  ghost function Spenders(db: Tables): map<IoKey, TxId> {
    map k | k in SpentAmounts(db) :: db.spends[Prev(k)].spendingTxid
  }

  ghost function SpendingTxs(db: Tables): set<TxId> {
    set k | k in Spenders(db) :: Spenders(db)[k]
  }

  /** The addressed outputs a transaction spends. */
  ghost function SpentIn(db: Tables, t: TxId): map<IoKey, int> {
    Slice(SpentAmounts(db), Spenders(db), t)
  }

  /** u_in: what one sender put into the transaction. */
  ghost function UIn(db: Tables, a: Address, t: TxId): int {
    Total(Slice(SpentIn(db, t), Owners(db), a))
  }

  /** v_out: what one recipient got from it. */
  ghost function VOut(db: Tables, t: TxId, r: Address): int {
    Total(Slice(OutsOfTx(db, t), Owners(db), r))
  }

  ghost function Senders(db: Tables, t: TxId): set<Address> {
    set k | k in SpentIn(db, t) && k in db.io :: db.io[k].address
  }

  ghost function Recipients(db: Tables, t: TxId): set<Address> {
    set k | k in OutsOfTx(db, t) && k in db.io :: db.io[k].address
  }

  ghost function InputsOf(db: Tables, t: TxId): set<Outpoint> {
    set s | s in db.spends && db.spends[s].spendingTxid == t
  }

  datatype Flow = Flow(from: Address, via: TxId, to: Address)

  ghost function Flows(db: Tables): set<Flow> {
    set t, a, r | t in SpendingTxs(db) && t in db.txs && a in Senders(db, t) && r in Recipients(db, t) :: Flow(a, t, r)
  }

  /** v_out * (u_in / total_in); SUM skips the null that NULLIF makes of a zero total_in. */
  ghost function Share(db: Tables, x: Flow): real
    requires x.via in db.txs
  {
    var totalIn := db.txs[x.via].totalIn;
    if totalIn == 0 then 0.0
    else VOut(db, x.via, x.to) as real * (UIn(db, x.from, x.via) as real / totalIn as real)
  }

  ghost function Shares(db: Tables): map<Flow, real> {
    map x | x in Flows(db) :: Share(db, x)
  }

  ghost function From(db: Tables): map<Flow, Address> {
    map x | x in Flows(db) :: x.from
  }

  ghost function Via(db: Tables): map<Flow, TxId> {
    map x | x in Flows(db) :: x.via
  }

  ghost function To(db: Tables): map<Flow, Address> {
    map x | x in Flows(db) :: x.to
  }

  /** est_value of the edge from `a` to `r`. */
  ghost function Estimate(db: Tables, a: Address, r: Address): real {
    Sum(Part(Part(Shares(db), From(db), a), To(db), r))
  }

  /** all_single_input: the edge is labelled direct. */
  ghost predicate Direct(db: Tables, a: Address, r: Address) {
    forall x | x in Flows(db) && x.from == a && x.to == r :: |InputsOf(db, x.via)| == 1
  }

  ghost function AllSenders(db: Tables): set<Address> {
    set x | x in Flows(db) :: x.from
  }

  ghost function AllRecipients(db: Tables): set<Address> {
    set x | x in Flows(db) :: x.to
  }

  /** What transactions with addressed inputs paid to `r`. */
  ghost function PaidTo(db: Tables, r: Address): map<IoKey, int> {
    map k | k in OutAmounts(db) && db.io[k].address == r && k.txid in SpendingTxs(db) :: db.io[k].amount
  }

  /** What transactions that spend money of `a` paid to `r`. */
  ghost function PaidFrom(db: Tables, a: Address, r: Address): map<IoKey, int> {
    map k | k in OutAmounts(db) && db.io[k].address == r && k.txid in SpendingTxs(db) && a in Senders(db, k.txid) ::
      db.io[k].amount
  }

  /** Every spending transaction's total_in is what it spends, and is positive. */
  ghost predicate Funded(db: Tables) {
    && (forall t | t in SpendingTxs(db) ::
        t in db.txs && db.txs[t].totalIn == Total(SpentIn(db, t)) && db.txs[t].totalIn > 0)
    && (forall k | k in db.io :: db.io[k].amount >= 0)
  }

  // ----- one transaction -----

  lemma ShareIsScaled(v: int, u: int, d: int)
    requires d != 0
    ensures v as real * (u as real / d as real) == Scale(v as real / d as real, u) == Scale(u as real / d as real, v)
  {
    Commute(v as real, u as real, d as real);
  }

  lemma Commute(v: real, u: real, d: real)
    requires d != 0.0
    ensures v * (u / d) == (v / d) * u == (u / d) * v
  {
    var q, p := u / d, v / d;
    assert q * d == u && p * d == v;
    assert v * q == p * d * q == p * u;
  }

  /** The flows of one transaction to one recipient, over all senders. */
  ghost function TxTo(db: Tables, t: TxId, r: Address): map<Flow, real> {
    Part(Part(Shares(db), To(db), r), Via(db), t)
  }

  /** The flows of one transaction from one sender, over all recipients. */
  ghost function TxFrom(db: Tables, t: TxId, a: Address): map<Flow, real> {
    Part(Part(Shares(db), From(db), a), Via(db), t)
  }

  lemma TxToKeys(db: Tables, t: TxId, r: Address)
    requires t in SpendingTxs(db) && t in db.txs && r in Recipients(db, t)
    ensures forall x :: x in TxTo(db, t, r) <==> x.via == t && x.to == r && x.from in Senders(db, t)
  {
    hide Senders, Recipients, SpendingTxs, Share;
  }

  lemma TxFromKeys(db: Tables, t: TxId, a: Address)
    requires t in SpendingTxs(db) && t in db.txs && a in Senders(db, t)
    ensures forall x :: x in TxFrom(db, t, a) <==> x.via == t && x.from == a && x.to in Recipients(db, t)
  {
    hide Senders, Recipients, SpendingTxs, Share;
  }

  /** All senders' shares of what a transaction paid to `r` are exactly that. */
  lemma TxSharesTo(db: Tables, t: TxId, r: Address)
    requires Funded(db) && t in SpendingTxs(db)
    ensures Sum(TxTo(db, t, r)) == VOut(db, t, r) as real
  {
    hide Senders, Recipients, SpendingTxs, SpentIn, OutsOfTx, UIn, VOut, Sum, Total, Scale, Share, Flows;
    var m, senders, totalIn := TxTo(db, t, r), Senders(db, t), db.txs[t].totalIn;
    if r in Recipients(db, t) {
      TxToKeys(db, t, r);
      var each := map a | a in senders :: Share(db, Flow(a, t, r));
      ByOneEnd(db, m, From(db), senders, each, a => Flow(a, t, r));
      InsBySender(db, t);
      var parts, rate := map a | a in senders :: UIn(db, a, t), VOut(db, t, r) as real / totalIn as real;
      forall a | a in senders
        ensures each[a] == Scale(rate, parts[a])
      {
        ShareIs(db, Flow(a, t, r));
      }
      SumScaled(each, parts, rate);
      ScaleBack(VOut(db, t, r), totalIn);
    } else {
      NoFlowsTo(db, t, r);
    }
  }

  lemma ShareIs(db: Tables, x: Flow)
    requires x.via in db.txs && db.txs[x.via].totalIn != 0
    ensures var d, v, u := db.txs[x.via].totalIn, VOut(db, x.via, x.to), UIn(db, x.from, x.via);
            Share(db, x) == Scale(v as real / d as real, u) == Scale(u as real / d as real, v)
  {
    hide VOut, UIn, Scale;
    ShareIsScaled(VOut(db, x.via, x.to), UIn(db, x.from, x.via), db.txs[x.via].totalIn);
  }

  lemma ScaleBack(v: int, d: int)
    requires d != 0
    ensures Scale(v as real / d as real, d) == v as real
  {
  }

  /** One flow for each of `ends`. */
  lemma ByOneEnd(db: Tables, m: map<Flow, real>, key: map<Flow, Address>, ends: set<Address>, each: map<Address, real>,
                 flow: Address -> Flow)
    requires each.Keys == ends
    requires forall a | a in ends :: flow(a) in m && flow(a) in key && key[flow(a)] == a && each[a] == m[flow(a)]
    requires forall x | x in m :: x in key && key[x] in ends && x == flow(key[x])
    ensures Sum(m) == Sum(each)
  {
    hide Sum;
    SumByKeys(m, key, ends);
    forall a | a in ends
      ensures Sum(Part(m, key, a)) == each[a]
    {
      assert Part(m, key, a).Keys == {flow(a)};
      SumOfSingle(Part(m, key, a), flow(a));
    }
    assert GroupSums(m, key, ends) == each;
  }

  /** The inputs of a transaction, by sender. */
  lemma InsBySender(db: Tables, t: TxId)
    ensures Total(SpentIn(db, t)) == Total(map a | a in Senders(db, t) :: UIn(db, a, t))
  {
    hide Total;
    TotalByKeys(SpentIn(db, t), Owners(db), Senders(db, t));
    assert GroupTotals(SpentIn(db, t), Owners(db), Senders(db, t)) == map a | a in Senders(db, t) :: UIn(db, a, t);
  }

  /** The outputs of a transaction, by recipient. */
  lemma OutsByRecipient(db: Tables, t: TxId)
    ensures Total(OutsOfTx(db, t)) == Total(map r | r in Recipients(db, t) :: VOut(db, t, r))
  {
    hide Total;
    TotalByKeys(OutsOfTx(db, t), Owners(db), Recipients(db, t));
    assert GroupTotals(OutsOfTx(db, t), Owners(db), Recipients(db, t))
           == map r | r in Recipients(db, t) :: VOut(db, t, r);
  }

  lemma NoFlowsTo(db: Tables, t: TxId, r: Address)
    requires r !in Recipients(db, t)
    ensures Sum(TxTo(db, t, r)) == 0.0 && VOut(db, t, r) == 0
  {
    assert TxTo(db, t, r) == map[];
    assert Slice(OutsOfTx(db, t), Owners(db), r) == map[];
  }

  lemma NoFlowsFrom(db: Tables, t: TxId, a: Address)
    requires a !in Senders(db, t)
    ensures Sum(TxFrom(db, t, a)) == 0.0 && UIn(db, a, t) == 0
  {
    assert TxFrom(db, t, a) == map[];
    assert Slice(SpentIn(db, t), Owners(db), a) == map[];
  }

  // ----- value is conserved -----

  lemma RealTotal<K(!new)>(m: map<K, real>, n: map<K, int>)
    requires m.Keys == n.Keys && forall k | k in m :: m[k] == n[k] as real
    ensures Sum(m) == Total(n) as real
  {
    SumScaled(m, n, 1.0);
  }

  ghost function PaidByTx(db: Tables, r: Address): map<TxId, int> {
    map t | t in SpendingTxs(db) :: VOut(db, t, r)
  }

  lemma PaidToByTx(db: Tables, r: Address)
    ensures Total(PaidTo(db, r)) == Total(PaidByTx(db, r))
  {
    hide Total, SpendingTxs;
    var m := PaidTo(db, r);
    TotalByKeys(m, TxidOf(m.Keys), SpendingTxs(db));
    forall t | t in SpendingTxs(db)
      ensures Slice(m, TxidOf(m.Keys), t) == Slice(OutsOfTx(db, t), Owners(db), r)
    {
    }
    assert GroupTotals(m, TxidOf(m.Keys), SpendingTxs(db)) == PaidByTx(db, r);
  }

  /** Over all senders, the estimates to a recipient are what the transactions paid it. */
  lemma EstimatesConserve(db: Tables, r: Address)
    requires Funded(db)
    ensures Sum(map a | a in AllSenders(db) :: Estimate(db, a, r)) == Total(PaidTo(db, r)) as real
  {
    hide Funded, Sum, Total, Share, Senders, Recipients, SpendingTxs, Flows, VOut;
    var to, txs := Part(Shares(db), To(db), r), SpendingTxs(db);
    SumByKeys(to, From(db), AllSenders(db));
    forall a | a in AllSenders(db)
      ensures Part(to, From(db), a) == Part(Part(Shares(db), From(db), a), To(db), r)
    {
    }
    assert GroupSums(to, From(db), AllSenders(db)) == map a | a in AllSenders(db) :: Estimate(db, a, r);
    FlowsVia(db);
    SumByKeys(to, Via(db), txs);
    forall t | t in txs
      ensures Sum(Part(to, Via(db), t)) == VOut(db, t, r) as real
    {
      TxSharesTo(db, t, r);
    }
    RealTotal(GroupSums(to, Via(db), txs), PaidByTx(db, r));
    PaidToByTx(db, r);
  }

  lemma FlowsVia(db: Tables)
    ensures forall x | x in Flows(db) :: x.via in SpendingTxs(db)
  {
  }

  ghost function PutInByTx(db: Tables, a: Address): map<TxId, int> {
    map t | t in SpendingTxs(db) :: UIn(db, a, t)
  }

  /** The spending transaction of each spent output of `a`. */
  ghost function SpenderOf(db: Tables, a: Address): map<IoKey, TxId> {
    map k | k in Amounts(db, SpentOuts(db, a)) && Prev(k) in db.spends :: db.spends[Prev(k)].spendingTxid
  }

  lemma SpendersOf(db: Tables, a: Address)
    ensures forall k | k in Amounts(db, SpentOuts(db, a)) ::
              k in SpenderOf(db, a) && SpenderOf(db, a)[k] in SpendingTxs(db)
  {
    forall k | k in Amounts(db, SpentOuts(db, a))
      ensures k in SpenderOf(db, a) && SpenderOf(db, a)[k] in SpendingTxs(db)
    {
      assert k in SpentAmounts(db) && Spenders(db)[k] == SpenderOf(db, a)[k];
    }
  }

  lemma SpentSlice(db: Tables, a: Address, t: TxId)
    ensures Slice(Amounts(db, SpentOuts(db, a)), SpenderOf(db, a), t) == Slice(SpentIn(db, t), Owners(db), a)
  {
  }

  lemma SpentByTx(db: Tables, a: Address)
    ensures BalanceOf(db, a).spent == Total(PutInByTx(db, a))
  {
    hide Total, Slice, SpenderOf, SpendingTxs, Amounts, SpentIn, Owners, SpentOuts;
    var m, key := Amounts(db, SpentOuts(db, a)), SpenderOf(db, a);
    SpendersOf(db, a);
    TotalByKeys(m, key, SpendingTxs(db));
    forall t | t in SpendingTxs(db)
      ensures Slice(m, key, t) == Slice(SpentIn(db, t), Owners(db), a)
    {
      SpentSlice(db, a, t);
    }
    assert GroupTotals(m, key, SpendingTxs(db)) == PutInByTx(db, a);
  }

  /** One sender's shares of a transaction are at most what it put in. */
  lemma TxSharesFrom(db: Tables, t: TxId, a: Address)
    requires Funded(db) && t in SpendingTxs(db)
    requires a in Senders(db, t) ==> Total(OutsOfTx(db, t)) <= db.txs[t].totalIn
    ensures Sum(TxFrom(db, t, a)) <= UIn(db, a, t) as real
  {
    hide Senders, Recipients, SpendingTxs, SpentIn, OutsOfTx, UIn, VOut, Sum, Total, Scale, Share, Flows;
    var m, recipients, totalIn := TxFrom(db, t, a), Recipients(db, t), db.txs[t].totalIn;
    if a in Senders(db, t) {
      TxFromKeys(db, t, a);
      var each := map r | r in recipients :: Share(db, Flow(a, t, r));
      ByOneEnd(db, m, To(db), recipients, each, r => Flow(a, t, r));
      OutsByRecipient(db, t);
      var parts, rate := map r | r in recipients :: VOut(db, t, r), UIn(db, a, t) as real / totalIn as real;
      forall r | r in recipients
        ensures each[r] == Scale(rate, parts[r])
      {
        ShareIs(db, Flow(a, t, r));
      }
      SumScaled(each, parts, rate);
      PutInIsNonNegative(db, a, t);
      ScaleDown(UIn(db, a, t), Total(parts), totalIn);
    } else {
      NoFlowsFrom(db, t, a);
    }
  }

  lemma ScaleDown(u: int, v: int, d: int)
    requires u >= 0 && d > 0 && v <= d
    ensures Scale(u as real / d as real, v) <= u as real
  {
    var rate := u as real / d as real;
    assert rate * d as real == u as real;
    assert rate >= 0.0;
    assert rate * (d - v) as real >= 0.0;
  }

  lemma PutInIsNonNegative(db: Tables, a: Address, t: TxId)
    requires Funded(db)
    ensures UIn(db, a, t) >= 0
  {
    TotalNonNegative(Slice(SpentIn(db, t), Owners(db), a));
  }

  /** A sender's estimates never exceed what it spent, if no transaction pays out more than it takes in. */
  lemma SenderNeverExceeds(db: Tables, a: Address)
    requires Funded(db)
    requires forall t | t in SpendingTxs(db) && a in Senders(db, t) :: Total(OutsOfTx(db, t)) <= db.txs[t].totalIn
    ensures Sum(map r | r in AllRecipients(db) :: Estimate(db, a, r)) <= BalanceOf(db, a).spent as real
  {
    hide Funded, Sum, Total, Share, Senders, Recipients, SpendingTxs, Flows, UIn, BalanceOf;
    var from, txs := Part(Shares(db), From(db), a), SpendingTxs(db);
    SumByKeys(from, To(db), AllRecipients(db));
    assert GroupSums(from, To(db), AllRecipients(db)) == map r | r in AllRecipients(db) :: Estimate(db, a, r);
    FlowsVia(db);
    SumByKeys(from, Via(db), txs);
    forall t | t in txs
      ensures Sum(Part(from, Via(db), t)) <= UIn(db, a, t) as real
    {
      TxSharesFrom(db, t, a);
    }
    var put := map t | t in txs :: UIn(db, a, t) as real;
    SumAtMost(GroupSums(from, Via(db), txs), put);
    RealTotal(put, PutInByTx(db, a));
    SpentByTx(db, a);
  }

  // ----- direct edges -----

  /** A transaction with one input is funded by one sender. */
  lemma SingleSender(db: Tables, t: TxId, a: Address)
    requires |InputsOf(db, t)| == 1 && a in Senders(db, t)
    ensures Slice(SpentIn(db, t), Owners(db), a) == SpentIn(db, t)
  {
    var k :| k in SpentIn(db, t) && k in db.io && db.io[k].address == a;
    assert Prev(k) in InputsOf(db, t);
    forall k' | k' in SpentIn(db, t)
      ensures k' == k
    {
      assert Prev(k') in InputsOf(db, t);
      OnlyOne(InputsOf(db, t), Prev(k), Prev(k'));
    }
  }

  lemma OnlyOne<T>(s: set<T>, x: T, y: T)
    requires |s| == 1 && x in s && y in s
    ensures x == y
  {
    assert |s - {x}| == 0;
    assert y !in s - {x};
  }

  ghost function DirectByTx(db: Tables, a: Address, r: Address): map<TxId, int> {
    map t | t in SpendingTxs(db) :: if a in Senders(db, t) then VOut(db, t, r) else 0
  }

  lemma PaidFromByTx(db: Tables, a: Address, r: Address)
    ensures Total(PaidFrom(db, a, r)) == Total(DirectByTx(db, a, r))
  {
    hide Total, SpendingTxs, Senders;
    var m := PaidFrom(db, a, r);
    TotalByKeys(m, TxidOf(m.Keys), SpendingTxs(db));
    forall t | t in SpendingTxs(db)
      ensures Total(Slice(m, TxidOf(m.Keys), t)) == DirectByTx(db, a, r)[t]
    {
      if a in Senders(db, t) {
        assert Slice(m, TxidOf(m.Keys), t) == Slice(OutsOfTx(db, t), Owners(db), r);
      } else {
        assert Slice(m, TxidOf(m.Keys), t) == map[];
        EmptyTotal();
      }
    }
    assert GroupTotals(m, TxidOf(m.Keys), SpendingTxs(db)) == DirectByTx(db, a, r);
  }

  lemma EmptyTotal()
    ensures Total<IoKey>(map[]) == 0
  {
  }

  ghost function EdgeFlows(db: Tables, a: Address, r: Address): map<Flow, real> {
    Part(Part(Shares(db), From(db), a), To(db), r)
  }

  lemma DirectFlow(db: Tables, a: Address, r: Address, t: TxId)
    requires Funded(db) && Direct(db, a, r) && t in SpendingTxs(db)
    ensures Sum(Part(EdgeFlows(db, a, r), Via(db), t)) == DirectByTx(db, a, r)[t] as real
  {
    hide Sum, Total, SpendingTxs, Senders, Recipients, VOut, UIn, Share, SpentIn, OutsOfTx, Scale;
    var m, x := Part(EdgeFlows(db, a, r), Via(db), t), Flow(a, t, r);
    if a in Senders(db, t) && r in Recipients(db, t) {
      assert m.Keys == {x};
      SumOfSingle(m, x);
      SingleSender(db, t, a);
      ShareIs(db, x);
      assert UIn(db, a, t) == db.txs[t].totalIn by { WholeInput(db, t, a); }
      ScaleBack(VOut(db, t, r), db.txs[t].totalIn);
    } else {
      assert m == map[];
      if a in Senders(db, t) {
        NoFlowsTo(db, t, r);
      }
      EmptySum();
    }
  }

  lemma EmptySum()
    ensures Sum<Flow>(map[]) == 0.0
  {
  }

  lemma WholeInput(db: Tables, t: TxId, a: Address)
    requires Funded(db) && t in SpendingTxs(db) && Slice(SpentIn(db, t), Owners(db), a) == SpentIn(db, t)
    ensures UIn(db, a, t) == db.txs[t].totalIn
  {
  }

  /** The estimate on an edge labelled direct is no estimate. */
  lemma DirectIsExact(db: Tables, a: Address, r: Address)
    requires Funded(db) && Direct(db, a, r)
    ensures Estimate(db, a, r) == Total(PaidFrom(db, a, r)) as real
  {
    hide Funded, Sum, Total, Share, Senders, Recipients, SpendingTxs, Flows, VOut, Direct;
    var m, txs := EdgeFlows(db, a, r), SpendingTxs(db);
    FlowsVia(db);
    SumByKeys(m, Via(db), txs);
    forall t | t in txs
      ensures Sum(Part(m, Via(db), t)) == DirectByTx(db, a, r)[t] as real
    {
      DirectFlow(db, a, r, t);
    }
    RealTotal(GroupSums(m, Via(db), txs), DirectByTx(db, a, r));
    PaidFromByTx(db, a, r);
  }

  // ----- a completely extracted chain -----

  lemma InputMatches(chain: seq<Block>, t: TxId, k: IoKey)
    requires WellFormed(chain) && k in InsOfTx(FullTables(chain), t)
    ensures k in FullIo(chain) && k.io == In
    ensures var o, spent := ConsumedBy(chain, k), SpentIn(FullTables(chain), t);
            Consumes(chain, k, o) && o in spent && spent[o] == InsOfTx(FullTables(chain), t)[k]
  {
    hide WellFormed, FullIo, FullTxs, FullSpends, Consumes;
  }

  lemma SpentIsMatched(chain: seq<Block>, t: TxId, o: IoKey) returns (k: IoKey)
    requires WellFormed(chain) && o in SpentIn(FullTables(chain), t)
    ensures k in FullIo(chain) && k.io == In && k in InsOfTx(FullTables(chain), t) && ConsumedBy(chain, k) == o
  {
    hide WellFormed, FullIo, FullTxs, FullSpends, Consumes;
    k := SpentRowIsConsumed(chain, o);
    ConsumesOneToOne(chain, k, k, ConsumedBy(chain, k), o);
  }

  /** What a transaction spends, by the spends table, is what its stored inputs hold. */
  lemma SpentIsIns(chain: seq<Block>, t: TxId)
    requires WellFormed(chain)
    ensures Total(SpentIn(FullTables(chain), t)) == Total(InsOfTx(FullTables(chain), t))
  {
    hide WellFormed, FullTables, Consumes, ConsumesSpent, Total, SpentIn, InsOfTx, FullIo;
    var db := FullTables(chain);
    var ins, spent := InsOfTx(db, t), SpentIn(db, t);
    forall k | k in ins
      ensures k in FullIo(chain) && k.io == In
      ensures Consumes(chain, k, ConsumedBy(chain, k)) && ConsumedBy(chain, k) in spent
              && spent[ConsumedBy(chain, k)] == ins[k]
    {
      InputMatches(chain, t, k);
    }
    var f := map k | k in ins :: ConsumedBy(chain, k);
    forall k, k' | k in ins && k' in ins && f[k] == f[k']
      ensures k == k'
    {
      ConsumesOneToOne(chain, k, k', f[k], f[k']);
    }
    forall o | o in spent
      ensures exists k :: k in ins && f[k] == o
    {
      var k := SpentIsMatched(chain, t, o);
    }
    TotalBijection(ins, spent, f);
  }

  /** On a completely extracted chain the premise of the estimates always holds. */
  lemma CompleteIsFunded(chain: seq<Block>)
    requires WellFormed(chain)
    ensures Funded(Complete(chain))
  {
    hide WellFormed, FullIo, FullTxs, FullSpends, Total, Complete;
    var db := FullTables(chain);
    CompleteIsFull(chain);
    AmountsArePositive(chain);
    forall t | t in SpendingTxs(db)
      ensures t in db.txs && db.txs[t].totalIn == Total(SpentIn(db, t)) && db.txs[t].totalIn > 0
    {
      var k :| k in Spenders(db) && Spenders(db)[k] == t;
      SpendRowAligned(chain, Prev(k));
      TotalsAreRowSums(chain, t);
      SpentIsIns(chain, t);
      TotalPositive(SpentIn(db, t), k);
    }
  }

  lemma AmountsArePositive(chain: seq<Block>)
    requires WellFormed(chain)
    ensures forall k | k in FullIo(chain) :: FullIo(chain)[k].amount > 0
  {
    hide WellFormed, FullIo, FullTxs, FullSpends;
    forall k | k in FullIo(chain)
      ensures FullIo(chain)[k].amount > 0
    {
      if k.io == Out {
        var h := OutRowAligned(chain, k);
      } else {
        var o := InRowConsumes(chain, k);
        var h := OutRowAligned(chain, o);
      }
    }
  }

  lemma TotalPositive<K(!new)>(m: map<K, int>, k: K)
    requires k in m && forall x | x in m :: m[x] > 0
    ensures Total(m) > 0
  {
    TotalRemove(m, k);
    TotalNonNegative(m - {k});
  }

  // ----- incoming edges -----

  /** Transactions that pay `a`. */
  ghost function Paying(db: Tables, a: Address): set<TxId> {
    set k | k in Outs(db, a) :: k.txid
  }

  ghost function IncomingRows(db: Tables, a: Address): map<IoKey, int> {
    map k | k in InAmounts(db) && k.txid in Paying(db, a) :: db.io[k].amount
  }

  ghost function Funders(db: Tables, a: Address): set<Address> {
    set k | k in IncomingRows(db, a) && k in db.io :: db.io[k].address
  }

  /** value_in of the edge from `f` into `a`. */
  ghost function ValueIn(db: Tables, a: Address, f: Address): int {
    Total(Slice(IncomingRows(db, a), Owners(db), f))
  }

  lemma IncomingByTx(chain: seq<Block>, a: Address, t: TxId)
    requires WellFormed(chain) && t in Paying(FullTables(chain), a)
    ensures var db := FullTables(chain); var rows := IncomingRows(db, a);
            t in db.txs && Total(Slice(rows, TxidOf(rows.Keys), t)) == db.txs[t].totalIn
  {
    hide WellFormed, FullIo, FullTxs, FullSpends, Total;
    var db := FullTables(chain);
    var rows := IncomingRows(db, a);
    RowsHaveTxs(chain);
    TotalsAreRowSums(chain, t);
    assert Slice(rows, TxidOf(rows.Keys), t) == InsOfTx(db, t);
  }

  /** Incoming edges are not weighted: they carry the whole inputs of the transactions that paid `a`. */
  lemma IncomingIsWholeInputs(chain: seq<Block>, a: Address)
    requires WellFormed(chain)
    ensures var db := Complete(chain);
            && (forall t | t in Paying(db, a) :: t in db.txs)
            && Total(map f | f in Funders(db, a) :: ValueIn(db, a, f))
               == Total(map t | t in Paying(db, a) :: db.txs[t].totalIn)
  {
    hide WellFormed, FullTables, Total, Complete, Paying;
    var db := FullTables(chain);
    CompleteIsFull(chain);
    var rows := IncomingRows(db, a);
    TotalByKeys(rows, Owners(db), Funders(db, a));
    assert GroupTotals(rows, Owners(db), Funders(db, a)) == map f | f in Funders(db, a) :: ValueIn(db, a, f);
    TotalByKeys(rows, TxidOf(rows.Keys), Paying(db, a));
    forall t | t in Paying(db, a)
      ensures t in db.txs && Total(Slice(rows, TxidOf(rows.Keys), t)) == db.txs[t].totalIn
    {
      IncomingByTx(chain, a, t);
    }
    assert GroupTotals(rows, TxidOf(rows.Keys), Paying(db, a)) == map t | t in Paying(db, a) :: db.txs[t].totalIn;
  }
}
