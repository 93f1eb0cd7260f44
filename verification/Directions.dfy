/**
 The two directions of the trace on one pair of addresses: the incoming edge carries the funder's
 whole inputs, the outgoing edge the recipient's share of them.
 */
module Directions {
  import opened Common
  import opened Sums
  import opened RealSums
  import opened Chain
  import opened Rows
  import opened Ledger
  import opened Confluence
  import opened Watch
  import opened FullLedger
  import opened Conservation
  import opened Haircut
  import opened Incoming

  // ----- what a funder put into one transaction -----

  ghost function OwnIns(db: Tables, f: Address, t: TxId): map<IoKey, int> {
    Slice(InsOfTx(db, t), Owners(db), f)
  }

  /** An input row of `f` and the spent out row it consumes. */
  lemma OwnInputMatches(chain: seq<Block>, f: Address, t: TxId, k: IoKey)
    requires WellFormed(chain) && k in OwnIns(FullTables(chain), f, t)
    ensures k in FullIo(chain) && k.io == In
    ensures var db := FullTables(chain);
            var o, spent := ConsumedBy(chain, k), Slice(SpentIn(db, t), Owners(db), f);
            Consumes(chain, k, o) && o in spent && spent[o] == OwnIns(db, f, t)[k]
  {
    hide WellFormed, FullIo, FullTxs, FullSpends, Consumes;
    InputMatches(chain, t, k);
    var o := ConsumedBy(chain, k);
    assert ConsumesSpent(chain, k, o);
  }

  lemma OwnSpentIsMatched(chain: seq<Block>, f: Address, t: TxId, o: IoKey) returns (k: IoKey)
    requires WellFormed(chain) && o in Slice(SpentIn(FullTables(chain), t), Owners(FullTables(chain)), f)
    ensures k in FullIo(chain) && k.io == In && k in OwnIns(FullTables(chain), f, t) && ConsumedBy(chain, k) == o
  {
    hide WellFormed, FullIo, FullTxs, FullSpends, Consumes;
    k := SpentIsMatched(chain, t, o);
    assert ConsumesSpent(chain, k, o);
  }

  /** By the spends table or by the stored inputs: what `f` put in is the same. */
  lemma OwnInsAre(chain: seq<Block>, f: Address, t: TxId)
    requires WellFormed(chain)
    ensures Total(OwnIns(FullTables(chain), f, t)) == UIn(FullTables(chain), f, t)
  {
    hide WellFormed, FullTables, Consumes, ConsumesSpent, Total, SpentIn, OwnIns, FullIo, Owners;
    var db := FullTables(chain);
    var ins, spent := OwnIns(db, f, t), Slice(SpentIn(db, t), Owners(db), f);
    forall k | k in ins
      ensures k in FullIo(chain) && k.io == In && Consumes(chain, k, ConsumedBy(chain, k))
      ensures ConsumedBy(chain, k) in spent && spent[ConsumedBy(chain, k)] == ins[k]
    {
      OwnInputMatches(chain, f, t, k);
    }
    var g := map k | k in ins :: ConsumedBy(chain, k);
    forall k, k' | k in ins && k' in ins && g[k] == g[k']
      ensures k == k'
    {
      ConsumesOneToOne(chain, k, k', g[k], g[k']);
    }
    forall o | o in spent
      ensures exists k :: k in ins && g[k] == o
    {
      var k := OwnSpentIsMatched(chain, f, t, o);
    }
    TotalBijection(ins, spent, g);
  }

  // ----- the transactions behind an edge -----

  lemma OwnRows(db: Tables, a: Address, f: Address, t: TxId)
    requires t in Behind(db, a, f)
    ensures var rows := Slice(IncomingRows(db, a), Owners(db), f);
            Slice(rows, TxidOf(rows.Keys), t) == OwnIns(db, f, t)
  {
  }

  /** The incoming edge, transaction by transaction. */
  lemma IncomingIsPutIn(chain: seq<Block>, a: Address, f: Address)
    requires WellFormed(chain)
    ensures var db := FullTables(chain);
            ValueIn(db, a, f) == Total(map t | t in Behind(db, a, f) :: UIn(db, f, t))
  {
    hide WellFormed, FullTables, Total, Behind, UIn, OwnIns;
    var db := FullTables(chain);
    var rows, txs := Slice(IncomingRows(db, a), Owners(db), f), Behind(db, a, f);
    RowsBehind(db, a, f);
    TotalByKeys(rows, TxidOf(rows.Keys), txs);
    forall t | t in txs
      ensures Total(Slice(rows, TxidOf(rows.Keys), t)) == UIn(db, f, t)
    {
      OwnRows(db, a, f, t);
      OwnInsAre(chain, f, t);
    }
    assert GroupTotals(rows, TxidOf(rows.Keys), txs) == map t | t in txs :: UIn(db, f, t);
  }

  /** Both directions look at the same transactions. */
  lemma BehindIff(chain: seq<Block>, a: Address, f: Address, t: TxId)
    requires WellFormed(chain)
    ensures var db := FullTables(chain);
            t in Behind(db, a, f) <==>
            t in SpendingTxs(db) && t in db.txs && f in Senders(db, t) && a in Recipients(db, t)
  {
    hide WellFormed, FullIo, FullTxs, FullSpends, Consumes, ConsumesSpent;
    var db := FullTables(chain);
    if t in Behind(db, a, f) {
      BehindIsStored(chain, a, f, t);
      var k :| k in IncomingRows(db, a) && k in db.io && db.io[k].address == f && k.txid == t;
      OwnInputMatches(chain, f, t, k);
      var o := ConsumedBy(chain, k);
      assert Spenders(db)[o] == t;
      var r :| r in Outs(db, a) && r.txid == t;
      assert r in OutsOfTx(db, t);
    }
    if f in Senders(db, t) && a in Recipients(db, t) {
      var o :| o in SpentIn(db, t) && o in db.io && db.io[o].address == f;
      var k := OwnSpentIsMatched(chain, f, t, o);
      var r :| r in OutsOfTx(db, t) && r in db.io && db.io[r].address == a;
      assert r in Outs(db, a) && k in IncomingRows(db, a);
    }
  }

  ghost function SharesBehind(db: Tables, a: Address, f: Address): map<TxId, real> {
    map t | t in Behind(db, a, f) && t in db.txs :: Share(db, Flow(f, t, a))
  }

  /** The outgoing edge from `f` to `a`, transaction by transaction. */
  lemma EstimateIsShares(chain: seq<Block>, a: Address, f: Address)
    requires WellFormed(chain)
    ensures var db := FullTables(chain);
            && (forall t | t in Behind(db, a, f) :: t in db.txs)
            && Estimate(db, f, a) == Sum(SharesBehind(db, a, f))
  {
    hide WellFormed, FullTables, Sum, Share, Senders, Recipients, SpendingTxs, Behind;
    var db := FullTables(chain);
    var m, txs := EdgeFlows(db, f, a), Behind(db, a, f);
    forall t
      ensures t in txs ==> t in db.txs && Flow(f, t, a) in m
    {
      BehindIff(chain, a, f, t);
    }
    forall x | x in m
      ensures x == Flow(f, x.via, a) && x.via in txs
    {
      BehindIff(chain, a, f, x.via);
    }
    SumByKeys(m, Via(db), txs);
    forall t | t in txs
      ensures Sum(Part(m, Via(db), t)) == Share(db, Flow(f, t, a))
    {
      assert Part(m, Via(db), t).Keys == {Flow(f, t, a)};
      SumOfSingle(Part(m, Via(db), t), Flow(f, t, a));
    }
    assert GroupSums(m, Via(db), txs) == SharesBehind(db, a, f);
  }

  // ----- the difference -----

  /** What of the funder's inputs, in proportion, did not reach `a`. */
  ghost function Unreached(db: Tables, a: Address, f: Address): map<TxId, real> {
    map t | t in Behind(db, a, f) && t in db.txs && db.txs[t].totalIn != 0 ::
      UIn(db, f, t) as real * ((db.txs[t].totalIn - VOut(db, t, a)) as real / db.txs[t].totalIn as real)
  }

  lemma ShareAndRest(u: int, v: int, d: int)
    requires d > 0
    ensures u as real - v as real * (u as real / d as real) == u as real * ((d - v) as real / d as real)
    ensures u > 0 && v <= d ==> u as real * ((d - v) as real / d as real) >= 0.0
    ensures u > 0 ==> (u as real * ((d - v) as real / d as real) == 0.0 <==> v == d)
  {
    var q, r, w := u as real / d as real, (d - v) as real / d as real, d as real;
    assert q * w == u as real && r * w == w - v as real;
    assert u as real * r == q * w * r == q * (w - v as real) == u as real - v as real * q;
    if u > 0 && v <= d {
      assert r >= 0.0;
    }
    if u > 0 && v != d {
      assert r * w != 0.0;
      assert r != 0.0;
    }
  }

  /** A funder behind an edge put something in, and the totals are positive. */
  lemma PutInIsPositive(chain: seq<Block>, a: Address, f: Address, t: TxId)
    requires WellFormed(chain) && t in Behind(FullTables(chain), a, f)
    ensures var db := FullTables(chain); t in db.txs && db.txs[t].totalIn > 0 && UIn(db, f, t) > 0
  {
    hide WellFormed, FullIo, FullTxs, FullSpends, Total, Complete;
    var db := FullTables(chain);
    BehindIff(chain, a, f, t);
    CompleteIsFull(chain);
    CompleteIsFunded(chain);
    AmountsArePositive(chain);
    var o :| o in SpentIn(db, t) && o in db.io && db.io[o].address == f;
    TotalPositive(Slice(SpentIn(db, t), Owners(db), f), o);
  }

  /**
   For every pair of addresses: the incoming edge exceeds the outgoing estimate by exactly the
   funder's share of what its transactions did not pay to `a`.  As none of them pays out more than it
   takes in, the two directions agree if and only if each pays its whole total_in to `a`.
   */
  lemma {:induction false} DirectionsDifferBy(chain: seq<Block>, a: Address, f: Address)
    requires WellFormed(chain)
    ensures var db := Complete(chain);
            && ValueIn(db, a, f) as real - Estimate(db, f, a) == Sum(Unreached(db, a, f))
            && (Affords(db, Behind(db, a, f)) ==>
                  && ValueIn(db, a, f) as real >= Estimate(db, f, a)
                  && (ValueIn(db, a, f) as real == Estimate(db, f, a) <==> PaysOnly(db, Behind(db, a, f), a)))
  {
    hide WellFormed, FullTables, Sum, Total, Behind, UIn, VOut, Complete, ValueIn, Estimate, OutsOfTx;
    CompleteIsFull(chain);
    var db := FullTables(chain);
    var txs, rest := Behind(db, a, f), Unreached(db, a, f);
    var put := map t | t in txs :: UIn(db, f, t);
    var puts := map t | t in txs :: UIn(db, f, t) as real;
    IncomingIsPutIn(chain, a, f);
    EstimateIsShares(chain, a, f);
    RealTotal(puts, put);
    forall t | t in txs
      ensures t in rest && rest[t] == puts[t] - SharesBehind(db, a, f)[t]
      ensures Affords(db, txs) ==> rest[t] >= 0.0
      ensures rest[t] == 0.0 <==> VOut(db, t, a) == db.txs[t].totalIn
    {
      PutInIsPositive(chain, a, f, t);
      PaidIsPart(chain, t, a);
      ShareAndRest(UIn(db, f, t), VOut(db, t, a), db.txs[t].totalIn);
    }
    SumMinus(puts, SharesBehind(db, a, f), rest);
    if Affords(db, txs) {
      SumZeroIff(rest);
    }
  }
}
