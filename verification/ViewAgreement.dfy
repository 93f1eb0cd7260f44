/**
 The incrementally maintained view against recomputation: scanning every height once, in any order,
 leaves the recomputed figures plus exactly what the clamps cut off, and they cut nothing off when
 the heights come in increasing order.
 */
module ViewAgreement {
  import opened Common
  import opened Sums
  import opened Chain
  import opened Rows
  import opened Ledger
  import opened Watch
  import opened Clamp

  // ----- keyed events: created at one height, possibly undone at a later one -----

  /** The part of `m` whose keys are also in `sub`. */
  ghost function Within<K, V>(m: map<K, int>, sub: map<K, V>): map<K, int> {
    map k | k in m && k in sub :: m[k]
  }

  ghost predicate DeltasOf<K(!new)>(m: map<K, int>, created: map<K, int>, undone: map<K, int>, order: seq<int>,
                                    deltas: seq<int>) {
    |deltas| == |order| &&
    forall i | 0 <= i < |order| ::
      deltas[i] == Total(Slice(m, created, order[i])) - Total(Slice(Within(m, undone), undone, order[i]))
  }

  lemma {:induction false} SumSeqDifference(ds: seq<int>, ps: seq<int>, ns: seq<int>)
    requires |ds| == |ps| == |ns| && forall i | 0 <= i < |ds| :: ds[i] == ps[i] - ns[i]
    ensures SumSeq(ds) == SumSeq(ps) - SumSeq(ns)
  {
    if |ds| > 0 {
      var n := |ds| - 1;
      SumSeqDifference(ds[..n], ps[..n], ns[..n]);
    }
  }

  /** Over all heights, in whatever order, the deltas add up to what was created and not undone. */
  lemma SumOfDeltas<K(!new)>(m: map<K, int>, created: map<K, int>, undone: map<K, int>, order: seq<int>,
                             deltas: seq<int>)
    requires Distinct(order) && DeltasOf(m, created, undone, order, deltas)
    requires forall k | k in m :: k in created && created[k] in order
    requires forall k | k in m && k in undone :: undone[k] in order
    ensures SumSeq(deltas) == Total(m) - Total(Within(m, undone))
  {
    var ps := seq(|order|, i requires 0 <= i < |order| => Total(Slice(m, created, order[i])));
    var ns := seq(|order|, i requires 0 <= i < |order| => Total(Slice(Within(m, undone), undone, order[i])));
    TotalByGroups(m, created, order, ps);
    TotalByGroups(Within(m, undone), undone, order, ns);
    SumSeqDifference(deltas, ps, ns);
  }

  lemma TotalMonotone<K(!new)>(m: map<K, int>, part: map<K, int>)
    requires forall k | k in m :: m[k] >= 0
    requires forall k | k in part :: k in m && part[k] == m[k]
    ensures Total(part) <= Total(m)
  {
    var rest := m - part.Keys;
    TotalUnion(m, part, rest);
    TotalNonNegative(rest);
  }

  ghost function Ascending(n: nat): (s: seq<int>)
    ensures |s| == n && forall i | 0 <= i < n :: s[i] == i
  {
    seq(n, i => i)
  }

  /** The part of `m` whose keys have a height below `j`. */
  ghost function BelowHeight<K>(m: map<K, int>, height: map<K, int>, j: int): map<K, int> {
    map k | k in m && k in height && height[k] < j :: m[k]
  }

  /** In increasing order nothing is undone before it is created, so no prefix goes negative. */
  lemma AscendingPrefixes<K(!new)>(m: map<K, int>, created: map<K, int>, undone: map<K, int>, n: nat, deltas: seq<int>,
                                   j: nat)
    requires j <= n && DeltasOf(m, created, undone, Ascending(n), deltas)
    requires forall k | k in m :: m[k] >= 0 && k in created && 0 <= created[k] < n
    requires forall k | k in m && k in undone :: created[k] <= undone[k] < n
    ensures PrefixSum(deltas, j) >= 0
  {
    hide Total, Slice, SumSeq, PrefixSum;
    var made, gone := BelowHeight(m, created, j), BelowHeight(Within(m, undone), undone, j);
    var ps := BelowTotals(m, created, j);
    var ns := BelowTotals(Within(m, undone), undone, j);
    PrefixSumIsSumSeq(deltas, j);
    SumSeqDifference(deltas[..j], ps, ns);
    TotalMonotone(made, gone);
  }

  /** The totals of the groups 0, ..., j - 1 add up to the total below j. */
  lemma BelowTotals<K(!new)>(m: map<K, int>, height: map<K, int>, j: nat) returns (sums: seq<int>)
    requires forall k | k in m :: k in height && 0 <= height[k]
    ensures |sums| == j && forall i | 0 <= i < j :: sums[i] == Total(Slice(m, height, i))
    ensures SumSeq(sums) == Total(BelowHeight(m, height, j))
  {
    hide Total, SumSeq;
    var part, order := BelowHeight(m, height, j), Ascending(j);
    sums := seq(j, i => Total(Slice(m, height, i)));
    forall i | 0 <= i < j
      ensures sums[i] == Total(Slice(part, height, order[i]))
    {
      assert Slice(m, height, i) == Slice(part, height, i);
    }
    forall h | 0 <= h < j
      ensures h in order
    {
      assert order[h] == h;
    }
    TotalByGroups(part, height, order, sums);
  }

  // ----- stored tables that line up with a chain of block hashes and times -----

  ghost predicate HashAt(hashes: seq<string>, h: int, s: string) {
    0 <= h < |hashes| && hashes[h] == s
  }

  /** The height whose block has this hash. */
  ghost function HeightOf(hashes: seq<string>, s: string): (h: int)
    requires exists h :: HashAt(hashes, h, s)
    ensures HashAt(hashes, h, s)
  {
    var h :| HashAt(hashes, h, s);
    h
  }

  /**
   Every stored out row and every spend belongs to a stored transaction of one of the blocks, and
   an output is not spent at a height below its own.
   */
  ghost predicate Aligned(db: Tables, hashes: seq<string>, times: seq<int>) {
    && |hashes| == |times| && Distinct(hashes)
    && (forall k | k in db.io && k.io == Out :: k.txid in db.txs && db.io[k].amount >= 0)
    && (forall t | t in db.txs :: exists h :: HashAt(hashes, h, db.txs[t].blockHash) && db.txs[t].time == times[h])
    && (forall s | s in db.spends ::
          && db.spends[s].spendingTxid in db.txs
          && HashAt(hashes, db.spends[s].height, db.txs[db.spends[s].spendingTxid].blockHash))
    && (forall k | k in db.io && k.io == Out && Prev(k) in db.spends ::
          HeightOf(hashes, db.txs[k.txid].blockHash) <= db.spends[Prev(k)].height)
  }

  lemma HeightOfIs(db: Tables, hashes: seq<string>, times: seq<int>, t: TxId, h: int)
    requires Aligned(db, hashes, times) && t in db.txs
    ensures var h' := HeightOf(hashes, db.txs[t].blockHash);
            && 0 <= h' < |hashes| && db.txs[t].time == times[h']
            && (HashAt(hashes, h, db.txs[t].blockHash) <==> h == h')
  {
    var h0 :| HashAt(hashes, h0, db.txs[t].blockHash) && db.txs[t].time == times[h0];
    var h' := HeightOf(hashes, db.txs[t].blockHash);
    assert HashAt(hashes, h', db.txs[t].blockHash);
    assert hashes[h0] == hashes[h'];
    assert h0 == h';
  }

  ghost function CreatedAt(db: Tables, hashes: seq<string>, times: seq<int>, a: Address): map<IoKey, int>
    requires Aligned(db, hashes, times)
  {
    map k | k in Outs(db, a) :: HeightOf(hashes, db.txs[k.txid].blockHash)
  }

  ghost function SpentAt(db: Tables, a: Address): map<IoKey, int> {
    map k | k in SpentOuts(db, a) :: db.spends[Prev(k)].height
  }

  ghost function Ones<K>(ks: set<K>): map<K, int> {
    map k | k in ks :: 1
  }

  lemma OnesCount<K(!new)>(ks: set<K>)
    ensures Total(Ones(ks)) == |ks|
  {
    TotalOnes(Ones(ks));
    assert Ones(ks).Keys == ks;
  }

  // ----- scanning -----

  /** Rows after the first n heights of `order` are scanned. */
  ghost function ScanAll(db: Tables, hashes: seq<string>, times: seq<int>, watch: WatchTable, order: seq<int>,
                         n: nat): WatchTable
    requires n <= |order| && |hashes| == |times| && forall i | 0 <= i < |order| :: 0 <= order[i] < |hashes|
  {
    if n == 0 then watch
    else ScanHeight(db, hashes[order[n - 1]], order[n - 1], times[order[n - 1]],
                    ScanAll(db, hashes, times, watch, order, n - 1))
  }

  ghost function RowAfter(db: Tables, hashes: seq<string>, times: seq<int>, a: Address, w: WatchRow, order: seq<int>,
                          n: nat): WatchRow
    requires n <= |order| && |hashes| == |times| && forall i | 0 <= i < |order| :: 0 <= order[i] < |hashes|
  {
    if n == 0 then w
    else ScanRow(db, hashes[order[n - 1]], order[n - 1], times[order[n - 1]], a,
                 RowAfter(db, hashes, times, a, w, order, n - 1))
  }

  lemma {:induction false} ScanAllByRow(db: Tables, hashes: seq<string>, times: seq<int>, watch: WatchTable,
                                        order: seq<int>, n: nat, a: Address)
    requires n <= |order| && |hashes| == |times| && forall i | 0 <= i < |order| :: 0 <= order[i] < |hashes|
    requires a in watch
    ensures var t := ScanAll(db, hashes, times, watch, order, n);
            t.Keys == watch.Keys && t[a] == RowAfter(db, hashes, times, a, watch[a], order, n)
  {
    hide ScanRow;
    if n > 0 {
      ScanAllByRow(db, hashes, times, watch, order, n - 1, a);
    }
  }

  ghost predicate InRange(hashes: seq<string>, order: seq<int>) {
    forall i | 0 <= i < |order| :: 0 <= order[i] < |hashes|
  }

  ghost function SatDeltas(db: Tables, hashes: seq<string>, a: Address, order: seq<int>): (ds: seq<int>)
    requires InRange(hashes, order)
    ensures |ds| == |order| && forall i | 0 <= i < |order| :: ds[i] == DeltaSats(db, hashes[order[i]], order[i], a)
  {
    seq(|order|, i requires 0 <= i < |order| => DeltaSats(db, hashes[order[i]], order[i], a))
  }

  ghost function UtxoDeltas(db: Tables, hashes: seq<string>, a: Address, order: seq<int>): (ds: seq<int>)
    requires InRange(hashes, order)
    ensures |ds| == |order| && forall i | 0 <= i < |order| :: ds[i] == DeltaUtxos(db, hashes[order[i]], order[i], a)
  {
    seq(|order|, i requires 0 <= i < |order| => DeltaUtxos(db, hashes[order[i]], order[i], a))
  }

  ghost function TxCounts(db: Tables, hashes: seq<string>, a: Address, order: seq<int>): (ds: seq<int>)
    requires InRange(hashes, order)
    ensures |ds| == |order| && forall i | 0 <= i < |order| :: ds[i] == |TouchedTxids(db, hashes[order[i]], order[i], a)|
  {
    seq(|order|, i requires 0 <= i < |order| => |TouchedTxids(db, hashes[order[i]], order[i], a)|)
  }

  ghost predicate TouchedAt(db: Tables, hashes: seq<string>, a: Address, h: int) {
    0 <= h < |hashes| && Touched(db, hashes[h], h, a)
  }

  ghost function TimesTouched(db: Tables, hashes: seq<string>, times: seq<int>, a: Address, order: seq<int>,
                              n: nat): set<int>
    requires n <= |order| && |hashes| == |times|
  {
    set i | 0 <= i < n && TouchedAt(db, hashes, a, order[i]) :: times[order[i]]
  }

  lemma LeastSnoc(s: set<int>, x: int)
    ensures Least(s + {x}) == Earlier(Least(s), x)
    ensures Greatest(s + {x}) == Later(Greatest(s), x)
  {
    assert x in s + {x};
    var lo, hi := Earlier(Least(s), x).value, Later(Greatest(s), x).value;
    forall y | y in s + {x}
      ensures lo <= y <= hi
    {
      assert y in s || y == x;
    }
    assert lo in s + {x} && hi in s + {x};
  }

  lemma UntouchedIsZero(db: Tables, hash: string, height: int, a: Address)
    requires !Touched(db, hash, height, a)
    ensures DeltaSats(db, hash, height, a) == 0 && DeltaUtxos(db, hash, height, a) == 0
    ensures |TouchedTxids(db, hash, height, a)| == 0
  {
    assert Amounts(db, Credits(db, hash, a)) == map[] && Amounts(db, Debits(db, height, a)) == map[];
    assert TouchedTxids(db, hash, height, a) == {};
  }

  /** A row that starts unseen is, figure by figure, a fold over the heights. */
  lemma {:induction false} RowFigures(db: Tables, hashes: seq<string>, times: seq<int>, a: Address, order: seq<int>,
                                      n: nat)
    requires n <= |order| && |hashes| == |times| && InRange(hashes, order)
    ensures var w := RowAfter(db, hashes, times, a, UNSEEN, order, n);
            && w.balance == Clamped(0, SatDeltas(db, hashes, a, order), n)
            && w.utxos == Clamped(0, UtxoDeltas(db, hashes, a, order), n)
            && w.txCount == PrefixSum(TxCounts(db, hashes, a, order), n) && w.txCount >= 0
            && w.balance >= 0 && w.utxos >= 0
            && w.firstSeen == Least(TimesTouched(db, hashes, times, a, order, n))
            && w.lastSeen == Greatest(TimesTouched(db, hashes, times, a, order, n))
  {
    hide Touched, DeltaSats, DeltaUtxos, TouchedTxids, Least, Greatest, SatDeltas, UtxoDeltas, TxCounts;
    if n == 0 {
      assert TimesTouched(db, hashes, times, a, order, 0) == {};
      NothingSeen();
    } else {
      RowFigures(db, hashes, times, a, order, n - 1);
      var h, before := order[n - 1], TimesTouched(db, hashes, times, a, order, n - 1);
      LeastSnoc(before, times[h]);
      if TouchedAt(db, hashes, a, h) {
        assert TimesTouched(db, hashes, times, a, order, n) == before + {times[h]};
      } else {
        UntouchedIsZero(db, hashes[h], h, a);
        assert TimesTouched(db, hashes, times, a, order, n) == before;
      }
    }
  }

  /** The heights among the first n scanned that touch the address. */
  ghost function HeightsTouched(db: Tables, hashes: seq<string>, a: Address, order: seq<int>, n: nat): set<int>
    requires n <= |order|
  {
    set i | 0 <= i < n && TouchedAt(db, hashes, a, order[i]) :: order[i]
  }

  /**
   However often and in whatever order heights are scanned, the marks are those of the highest and of
   the latest that touched the address.
   */
  lemma {:induction false} ScannedMarks(db: Tables, hashes: seq<string>, times: seq<int>, a: Address, order: seq<int>,
                                        n: nat)
    requires n <= |order| && |hashes| == |times| && InRange(hashes, order)
    ensures var w := RowAfter(db, hashes, times, a, UNSEEN, order, n);
            && w.scannedHeight == Greatest(HeightsTouched(db, hashes, a, order, n))
            && w.scannedTime == Greatest(TimesTouched(db, hashes, times, a, order, n))
  {
    hide Touched, DeltaSats, DeltaUtxos, TouchedTxids, Least, Greatest;
    if n == 0 {
      assert HeightsTouched(db, hashes, a, order, 0) == {} && TimesTouched(db, hashes, times, a, order, 0) == {};
      NothingSeen();
    } else {
      ScannedMarks(db, hashes, times, a, order, n - 1);
      var h, heights := order[n - 1], HeightsTouched(db, hashes, a, order, n - 1);
      var before := TimesTouched(db, hashes, times, a, order, n - 1);
      LeastSnoc(before, times[h]);
      LeastSnoc(heights, h);
      if TouchedAt(db, hashes, a, h) {
        assert TimesTouched(db, hashes, times, a, order, n) == before + {times[h]};
        assert HeightsTouched(db, hashes, a, order, n) == heights + {h};
      } else {
        assert TimesTouched(db, hashes, times, a, order, n) == before;
        assert HeightsTouched(db, hashes, a, order, n) == heights;
      }
    }
  }

  lemma NothingSeen()
    ensures Least({}) == None && Greatest({}) == None
  {
  }

  // ----- the delta queries are the slices of the keyed events -----

  lemma CreditsAre(db: Tables, hashes: seq<string>, times: seq<int>, a: Address, h: int, k: IoKey)
    requires Aligned(db, hashes, times) && 0 <= h < |hashes| && k in Outs(db, a)
    ensures k in Credits(db, hashes[h], a) <==> CreatedAt(db, hashes, times, a)[k] == h
  {
    HeightOfIs(db, hashes, times, k.txid, h);
  }

  /** What alignment says of one out row. */
  lemma OutAligned(db: Tables, hashes: seq<string>, times: seq<int>, a: Address, k: IoKey)
    requires Aligned(db, hashes, times) && k in Outs(db, a)
    ensures var h := CreatedAt(db, hashes, times, a)[k];
            && 0 <= h < |hashes| && db.io[k].amount >= 0
            && (Prev(k) in db.spends ==> h <= db.spends[Prev(k)].height < |hashes|)
  {
    HeightOfIs(db, hashes, times, k.txid, 0);
    if Prev(k) in db.spends {
      HeightOfIs(db, hashes, times, db.spends[Prev(k)].spendingTxid, db.spends[Prev(k)].height);
    }
  }

  lemma CreditSlices(db: Tables, hashes: seq<string>, times: seq<int>, a: Address, h: int)
    requires Aligned(db, hashes, times) && 0 <= h < |hashes|
    ensures Amounts(db, Credits(db, hashes[h], a))
            == Slice(Amounts(db, Outs(db, a)), CreatedAt(db, hashes, times, a), h)
    ensures Ones(Credits(db, hashes[h], a)) == Slice(Ones(Outs(db, a)), CreatedAt(db, hashes, times, a), h)
  {
    hide Aligned, Outs, HeightOf;
    forall k | k in Outs(db, a)
      ensures k in Credits(db, hashes[h], a) <==> CreatedAt(db, hashes, times, a)[k] == h
    {
      CreditsAre(db, hashes, times, a, h, k);
    }
  }

  lemma DebitSlices(db: Tables, h: int, a: Address)
    ensures Amounts(db, Debits(db, h, a)) == Slice(Within(Amounts(db, Outs(db, a)), SpentAt(db, a)), SpentAt(db, a), h)
    ensures Ones(Debits(db, h, a)) == Slice(Within(Ones(Outs(db, a)), SpentAt(db, a)), SpentAt(db, a), h)
  {
  }

  lemma DeltasAre(db: Tables, hashes: seq<string>, times: seq<int>, a: Address, order: seq<int>)
    requires Aligned(db, hashes, times) && InRange(hashes, order)
    ensures DeltasOf(Amounts(db, Outs(db, a)), CreatedAt(db, hashes, times, a), SpentAt(db, a), order,
                     SatDeltas(db, hashes, a, order))
    ensures DeltasOf(Ones(Outs(db, a)), CreatedAt(db, hashes, times, a), SpentAt(db, a), order,
                     UtxoDeltas(db, hashes, a, order))
  {
    hide Credits, Debits, Outs, Amounts, Ones, CreatedAt, SpentAt, Slice, Aligned, SatDeltas, UtxoDeltas;
    forall i | 0 <= i < |order|
      ensures var h := order[i];
              && DeltaSats(db, hashes[h], h, a)
                 == Total(Slice(Amounts(db, Outs(db, a)), CreatedAt(db, hashes, times, a), h))
                    - Total(Slice(Within(Amounts(db, Outs(db, a)), SpentAt(db, a)), SpentAt(db, a), h))
              && DeltaUtxos(db, hashes[h], h, a)
                 == Total(Slice(Ones(Outs(db, a)), CreatedAt(db, hashes, times, a), h))
                    - Total(Slice(Within(Ones(Outs(db, a)), SpentAt(db, a)), SpentAt(db, a), h))
    {
      var h := order[i];
      CreditSlices(db, hashes, times, a, h);
      DebitSlices(db, h, a);
      OnesCount(Credits(db, hashes[h], a));
      OnesCount(Debits(db, h, a));
    }
  }

  lemma EventHeights(db: Tables, hashes: seq<string>, times: seq<int>, a: Address)
    requires Aligned(db, hashes, times)
    ensures var created, spent := CreatedAt(db, hashes, times, a), SpentAt(db, a);
            && created.Keys == Outs(db, a) && spent.Keys == SpentOuts(db, a)
            && (forall k | k in created :: 0 <= created[k] < |hashes|)
            && (forall k | k in spent :: k in created && created[k] <= spent[k] < |hashes|)
  {
    hide Aligned, Outs, HeightOf;
    forall k | k in Outs(db, a)
      ensures var h := CreatedAt(db, hashes, times, a)[k];
              0 <= h < |hashes| && (Prev(k) in db.spends ==> h <= db.spends[Prev(k)].height < |hashes|)
    {
      OutAligned(db, hashes, times, a, k);
    }
  }

  lemma UnspentTotals(db: Tables, a: Address)
    ensures var sats, ones, spent := Amounts(db, Outs(db, a)), Ones(Outs(db, a)), SpentAt(db, a);
            && sats.Keys == Outs(db, a) == ones.Keys
            && Total(sats) - Total(Within(sats, spent)) == Total(Amounts(db, UnspentOuts(db, a)))
            && Total(ones) - Total(Within(ones, spent)) == |UnspentOuts(db, a)|
  {
    var sats, ones, spent := Amounts(db, Outs(db, a)), Ones(Outs(db, a)), SpentAt(db, a);
    TotalUnion(sats, Within(sats, spent), Amounts(db, UnspentOuts(db, a)));
    TotalUnion(ones, Within(ones, spent), Ones(UnspentOuts(db, a)));
    OnesCount(UnspentOuts(db, a));
  }

  lemma SatSum(db: Tables, hashes: seq<string>, times: seq<int>, a: Address, order: seq<int>)
    requires Aligned(db, hashes, times) && Distinct(order) && InRange(hashes, order) && forall h | 0 <= h < |hashes| ::
               h in order
    ensures PrefixSum(SatDeltas(db, hashes, a, order), |order|)
            == Total(Amounts(db, Outs(db, a))) - Total(Within(Amounts(db, Outs(db, a)), SpentAt(db, a)))
  {
    hide CreatedAt, Aligned, SatDeltas, UtxoDeltas, DeltasOf, Total, PrefixSum, Outs, Distinct, Within, SpentAt,
         InRange;
    EventHeights(db, hashes, times, a);
    DeltasAre(db, hashes, times, a, order);
    PrefixOfDeltas(Amounts(db, Outs(db, a)), CreatedAt(db, hashes, times, a), SpentAt(db, a), |hashes|, order,
                   SatDeltas(db, hashes, a, order));
  }

  lemma UtxoSum(db: Tables, hashes: seq<string>, times: seq<int>, a: Address, order: seq<int>)
    requires Aligned(db, hashes, times) && Distinct(order) && InRange(hashes, order) && forall h | 0 <= h < |hashes| ::
               h in order
    ensures PrefixSum(UtxoDeltas(db, hashes, a, order), |order|)
            == Total(Ones(Outs(db, a))) - Total(Within(Ones(Outs(db, a)), SpentAt(db, a)))
  {
    hide CreatedAt, Aligned, SatDeltas, UtxoDeltas, DeltasOf, Total, PrefixSum, Outs, Distinct, Within, SpentAt,
         InRange;
    EventHeights(db, hashes, times, a);
    DeltasAre(db, hashes, times, a, order);
    PrefixOfDeltas(Ones(Outs(db, a)), CreatedAt(db, hashes, times, a), SpentAt(db, a), |hashes|, order,
                   UtxoDeltas(db, hashes, a, order));
  }

  /** All deltas together give the recomputed balance and UTXO count. */
  lemma DeltaSums(db: Tables, hashes: seq<string>, times: seq<int>, a: Address, order: seq<int>)
    requires Aligned(db, hashes, times) && Distinct(order) && Elems(order) == Below(|hashes|)
    ensures InRange(hashes, order)
    ensures PrefixSum(SatDeltas(db, hashes, a, order), |order|) == Total(Amounts(db, UnspentOuts(db, a)))
    ensures PrefixSum(UtxoDeltas(db, hashes, a, order), |order|) == |UnspentOuts(db, a)|
  {
    hide Aligned, SatDeltas, UtxoDeltas, Total, PrefixSum, Outs, UnspentOuts, Within, SpentAt, Amounts, Ones;
    CoversRange(hashes, order);
    hide Elems, Below, Distinct, InRange;
    SatSum(db, hashes, times, a, order);
    UtxoSum(db, hashes, times, a, order);
    UnspentTotals(db, a);
  }

  /** Over all heights, the deltas of rows created and undone there leave the rows never undone. */
  lemma PrefixOfDeltas<K(!new)>(m: map<K, int>, created: map<K, int>, undone: map<K, int>, heights: nat,
                                order: seq<int>, deltas: seq<int>)
    requires Distinct(order) && DeltasOf(m, created, undone, order, deltas)
    requires forall h | 0 <= h < heights :: h in order
    requires forall k | k in m :: k in created && 0 <= created[k] < heights
    requires forall k | k in m && k in undone :: 0 <= undone[k] < heights
    ensures |deltas| == |order| && PrefixSum(deltas, |order|) == Total(m) - Total(Within(m, undone))
  {
    hide DeltasOf, Distinct, Within, Total;
    assert |deltas| == |order| by { DeltasLength(m, created, undone, order, deltas); }
    SumOfDeltas(m, created, undone, order, deltas);
    PrefixSumIsSumSeq(deltas, |order|);
    assert deltas[..|order|] == deltas;
  }

  lemma DeltasLength<K(!new)>(m: map<K, int>, created: map<K, int>, undone: map<K, int>, order: seq<int>,
                              deltas: seq<int>)
    requires DeltasOf(m, created, undone, order, deltas)
    ensures |deltas| == |order|
  {
  }

  lemma CoversRange(hashes: seq<string>, order: seq<int>)
    requires Elems(order) == Below(|hashes|)
    ensures InRange(hashes, order) && forall h | 0 <= h < |hashes| :: h in order
  {
    forall i | 0 <= i < |order|
      ensures 0 <= order[i] < |hashes|
    {
      assert order[i] in Elems(order);
    }
    forall h | 0 <= h < |hashes|
      ensures h in order
    {
      assert h in Elems(order);
    }
  }

  // ----- transactions and times -----

  ghost function TxHeights(db: Tables, hashes: seq<string>, times: seq<int>, a: Address): map<TxId, int>
    requires Aligned(db, hashes, times)
  {
    map t | t in AllTouched(db, a) && t in db.txs :: HeightOf(hashes, db.txs[t].blockHash)
  }

  lemma TouchedIsStored(db: Tables, hashes: seq<string>, times: seq<int>, a: Address, t: TxId)
    requires Aligned(db, hashes, times) && t in AllTouched(db, a)
    ensures t in db.txs
  {
    if t in CreditTxids(Outs(db, a)) {
      var k :| k in Outs(db, a) && k.txid == t;
    } else {
      var k :| k in SpentOuts(db, a) && db.spends[Prev(k)].spendingTxid == t;
    }
  }

  /** A transaction touches the address at the height of its own block, and only there. */
  lemma TouchedTxidsAre(db: Tables, hashes: seq<string>, times: seq<int>, a: Address, h: int, t: TxId)
    requires Aligned(db, hashes, times) && 0 <= h < |hashes|
    ensures t in AllTouched(db, a) ==> t in db.txs
    ensures t in TouchedTxids(db, hashes[h], h, a) <==>
            t in AllTouched(db, a) && HeightOf(hashes, db.txs[t].blockHash) == h
  {
    if t in db.txs {
      HeightOfIs(db, hashes, times, t, h);
    }
    if t in CreditTxids(Outs(db, a)) {
      var k :| k in Outs(db, a) && k.txid == t;
      if HeightOf(hashes, db.txs[t].blockHash) == h {
        assert k in Credits(db, hashes[h], a);
      }
    } else if t in DebitTxids(db, SpentOuts(db, a)) {
      var k :| k in SpentOuts(db, a) && db.spends[Prev(k)].spendingTxid == t;
      HeightOfIs(db, hashes, times, t, db.spends[Prev(k)].height);
      if HeightOf(hashes, db.txs[t].blockHash) == h {
        assert k in Debits(db, h, a);
      }
    }
    if t in DebitTxids(db, Debits(db, h, a)) {
      var k :| k in Debits(db, h, a) && db.spends[Prev(k)].spendingTxid == t;
      assert k in SpentOuts(db, a);
    }
  }

  lemma TxCountsAddUp(db: Tables, hashes: seq<string>, times: seq<int>, a: Address, order: seq<int>)
    requires Aligned(db, hashes, times) && Distinct(order) && Elems(order) == Below(|hashes|)
    ensures InRange(hashes, order)
    ensures PrefixSum(TxCounts(db, hashes, a, order), |order|) == |AllTouched(db, a)|
  {
    hide Aligned, TouchedTxids, AllTouched, HeightOf, Total, PrefixSum, SumSeq, TxCounts;
    CoversRange(hashes, order);
    hide Elems, Below, Distinct;
    var all, key, cs := AllTouched(db, a), TxHeights(db, hashes, times, a), TxCounts(db, hashes, a, order);
    forall t | t in all
      ensures t in key && key[t] in order
    {
      var h := TouchHeight(db, hashes, times, a, t);
    }
    forall i | 0 <= i < |order|
      ensures cs[i] == Total(Slice(Ones(all), key, order[i]))
    {
      var h := order[i];
      forall t
        ensures t in TouchedTxids(db, hashes[h], h, a) <==> t in all && key[t] == h
      {
        TouchedTxidsAre(db, hashes, times, a, h, t);
      }
      assert Slice(Ones(all), key, h) == Ones(TouchedTxids(db, hashes[h], h, a));
      OnesCount(TouchedTxids(db, hashes[h], h, a));
    }
    TotalByGroups(Ones(all), key, order, cs);
    OnesCount(all);
    PrefixSumIsSumSeq(cs, |order|);
    assert cs[..|order|] == cs;
  }

  /** The height at which a touching transaction is counted. */
  lemma TouchHeight(db: Tables, hashes: seq<string>, times: seq<int>, a: Address, t: TxId) returns (h: int)
    requires Aligned(db, hashes, times) && t in AllTouched(db, a)
    ensures 0 <= h < |hashes| && t in db.txs && h == HeightOf(hashes, db.txs[t].blockHash)
    ensures db.txs[t].time == times[h] && t in TouchedTxids(db, hashes[h], h, a)
  {
    TouchedIsStored(db, hashes, times, a, t);
    HeightOfIs(db, hashes, times, t, 0);
    h := HeightOf(hashes, db.txs[t].blockHash);
    TouchedTxidsAre(db, hashes, times, a, h, t);
  }

  lemma TimesAgree(db: Tables, hashes: seq<string>, times: seq<int>, a: Address, order: seq<int>)
    requires Aligned(db, hashes, times) && Elems(order) == Below(|hashes|)
    ensures TimesTouched(db, hashes, times, a, order, |order|) == TouchTimes(db, a)
  {
    CoversRange(hashes, order);
    hide Aligned, AllTouched, TouchedTxids, HeightOf, Elems, Below;
    var seen, want := TimesTouched(db, hashes, times, a, order, |order|), TouchTimes(db, a);
    forall x | x in want
      ensures x in seen
    {
      var t :| t in AllTouched(db, a) && t in db.txs && db.txs[t].time == x;
      var h := TouchHeight(db, hashes, times, a, t);
      TouchedHasTxid(db, hashes[h], h, a);
      assert h in order;
      var i :| 0 <= i < |order| && order[i] == h;
      assert TouchedAt(db, hashes, a, order[i]);
    }
    forall x | x in seen
      ensures x in want
    {
      var i :| 0 <= i < |order| && TouchedAt(db, hashes, a, order[i]) && times[order[i]] == x;
      var h := order[i];
      TouchedHasTxid(db, hashes[h], h, a);
      var t := Pick(TouchedTxids(db, hashes[h], h, a));
      TouchedTxidsAre(db, hashes, times, a, h, t);
      var h' := TouchHeight(db, hashes, times, a, t);
    }
  }

  lemma TouchedHasTxid(db: Tables, hash: string, h: int, a: Address)
    ensures Touched(db, hash, h, a) <==> TouchedTxids(db, hash, h, a) != {}
  {
    var cs, ds := Credits(db, hash, a), Debits(db, h, a);
    if cs != {} {
      var k := Pick(cs);
      assert k.txid in CreditTxids(cs);
    }
    if ds != {} {
      var k := Pick(ds);
      assert db.spends[Prev(k)].spendingTxid in DebitTxids(db, ds);
    }
  }

  /**
   Every height scanned once, in any order: transaction count and times are the recomputed ones;
   balance and UTXO count are the recomputed ones minus the lowest prefix sum of their deltas.
   */
  lemma {:induction false} ScanInAnyOrder(db: Tables, hashes: seq<string>, times: seq<int>, a: Address, order: seq<int>)
    requires Aligned(db, hashes, times) && Distinct(order) && Elems(order) == Below(|hashes|)
    ensures InRange(hashes, order)
    ensures var w, r := RowAfter(db, hashes, times, a, UNSEEN, order, |order|), RecomputeRow(db, a, UNSEEN);
            && w.balance == r.balance - Lowest(SatDeltas(db, hashes, a, order), |order|)
            && w.utxos == r.utxos - Lowest(UtxoDeltas(db, hashes, a, order), |order|)
            && w.txCount == r.txCount && w.firstSeen == r.firstSeen && w.lastSeen == r.lastSeen
  {
    CoversRange(hashes, order);
    hide Aligned, Total, PrefixSum, Lowest, Clamped, Least, Greatest, AllTouched, TouchTimes, UnspentOuts, RowAfter,
         SatDeltas, UtxoDeltas, TxCounts, TimesTouched, Elems, Below;
    RowFigures(db, hashes, times, a, order, |order|);
    DeltaSums(db, hashes, times, a, order);
    TxCountsAddUp(db, hashes, times, a, order);
    TimesAgree(db, hashes, times, a, order);
    ClampedIsSumMinusLowest(SatDeltas(db, hashes, a, order), |order|);
    ClampedIsSumMinusLowest(UtxoDeltas(db, hashes, a, order), |order|);
    NoOutsNothing(db, a);
  }

  lemma NoOutsNothing(db: Tables, a: Address)
    ensures Outs(db, a) == {} ==>
              && Total(Amounts(db, UnspentOuts(db, a))) == 0 && |UnspentOuts(db, a)| == 0 && |AllTouched(db, a)| == 0
              && Least(TouchTimes(db, a)) == None && Greatest(TouchTimes(db, a)) == None
  {
    if Outs(db, a) == {} {
      assert UnspentOuts(db, a) == {} && AllTouched(db, a) == {} && TouchTimes(db, a) == {};
      assert Amounts(db, {}) == map[];
    }
  }

  /**
   Heights in increasing order: no clamp fires, and the scanned row carries the recomputed balance,
   UTXO count, transaction count, first and last time.
   */
  lemma {:induction false} ScanInOrderAgrees(db: Tables, hashes: seq<string>, times: seq<int>, a: Address)
    requires Aligned(db, hashes, times)
    ensures var order := Ascending(|hashes|);
            var w, r := RowAfter(db, hashes, times, a, UNSEEN, order, |order|), RecomputeRow(db, a, UNSEEN);
            && w.balance == r.balance && w.utxos == r.utxos && w.txCount == r.txCount
            && w.firstSeen == r.firstSeen && w.lastSeen == r.lastSeen
            && !ClampFires(SatDeltas(db, hashes, a, order), |order|)
            && !ClampFires(UtxoDeltas(db, hashes, a, order), |order|)
  {
    var order := Ascending(|hashes|);
    AscendingCovers(|hashes|);
    CoversRange(hashes, order);
    hide Aligned, Ascending, Lowest, RowAfter, RecomputeRow, Elems, Below, ClampFires;
    ScanInAnyOrder(db, hashes, times, a, order);
    NothingCutOff(db, hashes, times, a);
    ClampFiresIff(SatDeltas(db, hashes, a, order), |order|);
    ClampFiresIff(UtxoDeltas(db, hashes, a, order), |order|);
  }

  lemma AscendingCovers(n: nat)
    ensures Distinct(Ascending(n)) && Elems(Ascending(n)) == Below(n)
  {
    forall h | 0 <= h < n
      ensures h in Elems(Ascending(n))
    {
      assert Ascending(n)[h] == h;
    }
  }

  lemma NothingCutOff(db: Tables, hashes: seq<string>, times: seq<int>, a: Address)
    requires Aligned(db, hashes, times)
    ensures var order := Ascending(|hashes|);
            InRange(hashes, order) && Lowest(SatDeltas(db, hashes, a, order), |order|) == 0
            && Lowest(UtxoDeltas(db, hashes, a, order), |order|) == 0
  {
    hide Aligned, CreatedAt, SpentAt, Outs, PrefixSum;
    var order := Ascending(|hashes|);
    var created, spent := CreatedAt(db, hashes, times, a), SpentAt(db, a);
    var sats, ones := SatDeltas(db, hashes, a, order), UtxoDeltas(db, hashes, a, order);
    DeltasAre(db, hashes, times, a, order);
    EventHeights(db, hashes, times, a);
    forall k | k in Amounts(db, Outs(db, a))
      ensures Amounts(db, Outs(db, a))[k] >= 0
    {
      OutAligned(db, hashes, times, a, k);
    }
    forall j: nat | j <= |order|
      ensures PrefixSum(sats, j) >= 0 && PrefixSum(ones, j) >= 0
    {
      AscendingPrefixes(Amounts(db, Outs(db, a)), created, spent, |hashes|, sats, j);
      AscendingPrefixes(Ones(Outs(db, a)), created, spent, |hashes|, ones, j);
    }
  }
}
