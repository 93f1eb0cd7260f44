/**
 A whole run: extraction, backfill and address scans of every block, interleaved and ordered however
 workers commit them, compared with recomputing every watched address from scratch.
 */
module EndToEnd {
  import opened Common
  import opened Sums
  import opened Chain
  import opened Rows
  import opened Extract
  import opened Ledger
  import opened Backfill
  import opened Confluence
  import opened SoundTables
  import opened Watch
  import opened Clamp
  import opened Jobs
  import opened Protocol
  import opened ExactlyOnce
  import opened Exclusion
  import opened FullLedger
  import opened Scans
  import V = ViewAgreement

  /** Tables that the balance queries cannot tell apart. */
  ghost predicate SameView(db: Tables, full: Tables) {
    && db.spends == full.spends
    && db.txs.Keys == full.txs.Keys && (forall t | t in db.txs :: db.txs[t].blockHash == full.txs[t].blockHash)
    && (forall k: IoKey | k.io == Out :: k in db.io <==> k in full.io)
    && (forall k | k in db.io && k.io == Out :: db.io[k] == full.io[k])
  }

  /** Every block is extracted and has its spend edges, by the queue's own account. */
  ghost predicate AllExtracted(chain: seq<Block>, jobs: JobRows) {
    forall h | h in Below(|chain|) :: h in jobs && jobs[h].vout in {Done, Skipped} && jobs[h].vin == Done
  }

  lemma ExtractedIsStored(chain: seq<Block>, s: Sys, h: int)
    requires WellFormed(chain) && DataInv(chain, s) && AllExtracted(chain, s.jobs) && 0 <= h < |chain|
    ensures chain[h].time.Some? && OutsStored(chain, s.db, h) && SpendsStored(chain, s.db, h)
  {
    hide AllTxKeys, AllIoKeys, AllSpendKeys, Sound, Kept, WellFormed;
    assert Backed(chain, s.db, h, s.jobs[h]);
    if s.jobs[h].vout == Skipped {
      SkippedHasNoSpends(chain, h);
    }
  }

  /** Then the tables show the balance queries the complete ledger. */
  lemma ExtractedIsComplete(chain: seq<Block>, s: Sys)
    requires WellFormed(chain) && DataInv(chain, s) && AllExtracted(chain, s.jobs)
    ensures SameView(s.db, FullTables(chain))
  {
    hide DataInv, AllExtracted, WellFormed, FullTxs, FullIo, FullSpends, AllTxKeys, AllIoKeys, AllSpendKeys;
    var db, full := s.db, FullTables(chain);
    assert Sound(chain, db) by {
      DataInvSound(chain, s);
    }
    forall k | k in full.txs
      ensures k in db.txs
    {
      var h, i := StoredTxPosition(chain, k);
      ExtractedIsStored(chain, s, h);
      TxKeyAtHeight(chain, h, i);
    }
    forall k | k in full.io && k.io == Out
      ensures k in db.io
    {
      var h, i := StoredOutPosition(chain, k);
      ExtractedIsStored(chain, s, h);
      OutKeyAtHeight(chain, h, i, k.idx);
    }
    forall k | k in full.spends
      ensures k in db.spends
    {
      var h, i, j := StoredSpendPosition(chain, k);
      ExtractedIsStored(chain, s, h);
      SpendKeyAtHeight(chain, h, i, j);
    }
    assert db.spends == full.spends;
  }

  lemma DataInvSound(chain: seq<Block>, s: Sys)
    requires DataInv(chain, s)
    ensures Sound(chain, s.db)
  {
  }

  lemma SoundTimes(chain: seq<Block>, db: Tables)
    requires Sound(chain, db)
    ensures forall t | t in db.txs :: t in FullTxs(chain) && db.txs[t].time == FullTxs(chain)[t].time
  {
  }

  lemma SameRecompute(db: Tables, full: Tables, a: Address, w: WatchRow)
    requires SameView(db, full) && forall t | t in db.txs :: t in full.txs && db.txs[t].time == full.txs[t].time
    ensures RecomputeRow(db, a, w) == RecomputeRow(full, a, w)
  {
    assert Outs(db, a) == Outs(full, a);
    assert UnspentOuts(db, a) == UnspentOuts(full, a) && SpentOuts(db, a) == SpentOuts(full, a);
    assert Amounts(db, UnspentOuts(db, a)) == Amounts(full, UnspentOuts(full, a));
    assert AllTouched(db, a) == AllTouched(full, a);
    assert TouchTimes(db, a) == TouchTimes(full, a);
  }

  /**
   recompute-balances repairs whatever scans left: once every height is extracted, from any watch list,
   each address with an out row gets the figures of scanning the complete ledger in height order.
   */
  lemma {:induction false} RecomputeRepairs(chain: seq<Block>, s: Sys, watch: WatchTable)
    requires WellFormed(chain) && DataInv(chain, s) && AllExtracted(chain, s.jobs)
    ensures var order := V.Ascending(|chain|);
            var scanned := V.ScanAll(Complete(chain), Hashes(chain), Times(chain), Unseen(watch.Keys), order, |order|);
            var anew := Recompute(s.db, watch);
            && scanned.Keys == anew.Keys == watch.Keys
            && (forall a | a in watch && Outs(s.db, a) != {} :: SameFigures(scanned[a], anew[a]))
            && (forall a | a in watch && Outs(s.db, a) == {} :: anew[a] == watch[a])
  {
    hide WellFormed, DataInv, AllExtracted, FullTxs, FullIo, FullSpends, Complete, RecomputeRow, V.ScanAll, SameFigures;
    ExtractedIsComplete(chain, s);
    DataInvSound(chain, s);
    SoundTimes(chain, s.db);
    CompleteIsFull(chain);
    ScanEqualsRecompute(chain, watch);
    forall a | a in watch
      ensures RecomputeRow(s.db, a, watch[a]) == RecomputeRow(Complete(chain), a, watch[a])
      ensures Outs(s.db, a) == Outs(Complete(chain), a)
    {
      SameRecompute(s.db, FullTables(chain), a, watch[a]);
      assert Outs(s.db, a) == Outs(FullTables(chain), a);
    }
  }

  // ----- what address scans see along a run -----

  ghost predicate ScanInv(chain: seq<Block>, s: Sys) {
    && (forall x | x in s.held && x.phase == AddrPhase :: Sees(chain, s.db, x.height))
    && (forall i | 0 <= i < |s.log| :: Sees(chain, s.log[i].db, s.log[i].height))
  }

  lemma SeesStays(chain: seq<Block>, db: Tables, db': Tables, h: int)
    requires Sees(chain, db, h) && Grows(db, db') && Sound(chain, db')
    ensures Sees(chain, db', h)
  {
    hide AllTxKeys, AllIoKeys, AllSpendKeys, Sound;
  }

  lemma StepGrows(chain: seq<Block>, s: Sys, step: Step)
    requires WellFormed(chain) && DataInv(chain, s) && Enabled(chain, s, step)
    ensures Grows(s.db, Apply(chain, s, step).db)
  {
    hide Kept, WellFormed, OutsStored, SpendsStored, ExtractBlock, BackfillBlock, Contiguous, Grows, Requeued, ToppedUp,
         ScanHeight, LowestOf, Backed, Staged;
    GrowsSelf(s.db);
    match step
    case ExtractStep(w, h, p) => ExtractKeepsSound(chain, s.db, h, p);
    case BackfillStep(w, h, p) => BackfillKeepsSound(chain, s.db, h, p);
    case _ =>
  }

  /** A height whose two earlier columns are finished is stored. */
  lemma ReadyIsSeen(chain: seq<Block>, s: Sys, h: int)
    requires WellFormed(chain) && DataInv(chain, s) && h in s.jobs && Ready(s.jobs[h], AddrPhase)
    ensures Sees(chain, s.db, h)
  {
    hide AllTxKeys, AllIoKeys, AllSpendKeys, Sound, Kept, WellFormed;
    assert Backed(chain, s.db, h, s.jobs[h]);
    if s.jobs[h].vout == Skipped {
      SkippedHasNoSpends(chain, h);
    }
  }

  lemma StepKeepsScans(chain: seq<Block>, s: Sys, step: Step)
    requires WellFormed(chain) && DataInv(chain, s) && ScanInv(chain, s) && Enabled(chain, s, step)
    ensures ScanInv(chain, Apply(chain, s, step))
  {
    hide DataInv, Sees, Enabled, Apply, WellFormed, Sound, Grows, Ready;
    var s' := Apply(chain, s, step);
    StepGrows(chain, s, step);
    StepKeepsData(chain, s, step);
    DataInvSound(chain, s');
    NewAddrHolds(chain, s, step);
    forall x | x in s'.held && x.phase == AddrPhase
      ensures Sees(chain, s'.db, x.height)
    {
      if x !in s.held {
        ReadyIsSeen(chain, s, x.height);
      }
      SeesStays(chain, s.db, s'.db, x.height);
    }
  }

  /** New address holds are claims of ready heights; a new log entry is a held height's. */
  lemma NewAddrHolds(chain: seq<Block>, s: Sys, step: Step)
    requires Enabled(chain, s, step)
    ensures var s' := Apply(chain, s, step);
            && (forall x | x in s'.held && x.phase == AddrPhase && x !in s.held ::
                x.height in s.jobs && Ready(s.jobs[x.height], AddrPhase))
            && (s'.log == s.log ||
                exists x :: x in s.held && x.phase == AddrPhase && s'.log == s.log + [Commit(x.height, s.db)])
  {
    hide ExtractBlock, BackfillBlock, Skips, ScanHeight, Requeued, ToppedUp, Staged;
    if step.Claim? {
      PickedArePending(chain, s, step);
    }
    if step.ScanStep? {
      assert Hold(step.worker, AddrPhase, step.height, Working) in s.held;
    }
  }

  lemma {:induction false} ScansSee(chain: seq<Block>, watch: WatchTable, steps: seq<Step>, states: seq<Sys>, n: nat)
    requires WellFormed(chain) && IsRun(chain, watch, steps, states) && n <= |steps|
    ensures ScanInv(chain, states[n])
  {
    hide WellFormed, Apply, Enabled, DataInv, Sees;
    if n > 0 {
      ScansSee(chain, watch, steps, states, n - 1);
      StatusNeverAheadOfData(chain, watch, steps, states, n - 1);
      StepKeepsScans(chain, states[n - 1], steps[n - 1]);
    }
  }

  // ----- the log of a run -----

  ghost function OrderOf(log: seq<Commit>): (order: seq<int>)
    ensures |order| == |log| && forall i | 0 <= i < |log| :: order[i] == log[i].height
  {
    seq(|log|, i requires 0 <= i < |log| => log[i].height)
  }

  ghost predicate AllSee(chain: seq<Block>, log: seq<Commit>) {
    forall i | 0 <= i < |log| :: Sees(chain, log[i].db, log[i].height)
  }

  /** No committed scan missed a debit of `a`. */
  ghost predicate NoneMissed(chain: seq<Block>, log: seq<Commit>, a: Address) {
    forall i | 0 <= i < |log| :: MissedDebits(chain, log[i].db, log[i].height, a) == {}
  }

  ghost function MissedTotal(chain: seq<Block>, log: seq<Commit>, a: Address, n: nat): int
    requires n <= |log|
  {
    if n == 0 then 0 else MissedTotal(chain, log, a, n - 1) + MissedSats(chain, log[n - 1].db, log[n - 1].height, a)
  }

  ghost function MissedCount(chain: seq<Block>, log: seq<Commit>, a: Address, n: nat): int
    requires n <= |log|
  {
    if n == 0 then 0 else MissedCount(chain, log, a, n - 1) + |MissedDebits(chain, log[n - 1].db, log[n - 1].height, a)|
  }

  lemma AllSeeOnChain(chain: seq<Block>, log: seq<Commit>)
    requires AllSee(chain, log)
    ensures LogOnChain(chain, log) && V.InRange(Hashes(chain), OrderOf(log))
  {
    forall i | 0 <= i < |log|
      ensures 0 <= log[i].height < |chain| && chain[log[i].height].time.Some?
    {
      SeesSound(chain, log[i].db, log[i].height);
    }
  }

  /** One commit's deltas: those of the complete ledger, plus what it missed. */
  lemma CommitOffBy(chain: seq<Block>, log: seq<Commit>, a: Address, i: nat)
    requires WellFormed(chain) && AllSee(chain, log) && i < |log|
    ensures LogOnChain(chain, log) && V.InRange(Hashes(chain), OrderOf(log))
    ensures LogDeltas(chain, log, a)[i]
            == V.SatDeltas(FullTables(chain), Hashes(chain), a, OrderOf(log))[i]
               + MissedSats(chain, log[i].db, log[i].height, a)
    ensures LogUtxoDeltas(chain, log, a)[i]
            == V.UtxoDeltas(FullTables(chain), Hashes(chain), a, OrderOf(log))[i]
               + |MissedDebits(chain, log[i].db, log[i].height, a)|
  {
    AllSeeOnChain(chain, log);
    hide WellFormed, FullTables, Sees, DeltaSats, DeltaUtxos, MissedSats, MissedDebits;
    DeltaOffBy(chain, log[i].db, log[i].height, a);
  }

  lemma {:induction false} LogSumsAre(chain: seq<Block>, log: seq<Commit>, a: Address, n: nat)
    requires WellFormed(chain) && AllSee(chain, log) && n <= |log|
    ensures LogOnChain(chain, log) && V.InRange(Hashes(chain), OrderOf(log))
    ensures PrefixSum(LogDeltas(chain, log, a), n)
            == PrefixSum(V.SatDeltas(FullTables(chain), Hashes(chain), a, OrderOf(log)), n)
               + MissedTotal(chain, log, a, n)
    ensures PrefixSum(LogUtxoDeltas(chain, log, a), n)
            == PrefixSum(V.UtxoDeltas(FullTables(chain), Hashes(chain), a, OrderOf(log)), n)
               + MissedCount(chain, log, a, n)
  {
    hide WellFormed, FullTables, AllSee, MissedSats, MissedDebits, LogDeltas, LogUtxoDeltas, V.SatDeltas, V.UtxoDeltas,
         DeltaSats, DeltaUtxos, LogOnChain, V.InRange, Hashes, OrderOf;
    AllSeeOnChain(chain, log);
    if n > 0 {
      LogSumsAre(chain, log, a, n - 1);
      CommitOffBy(chain, log, a, n - 1);
    }
  }

  lemma {:induction false} MissedBounds(chain: seq<Block>, log: seq<Commit>, a: Address, n: nat)
    requires WellFormed(chain) && n <= |log|
    ensures MissedTotal(chain, log, a, n) >= MissedCount(chain, log, a, n) >= 0
    ensures MissedTotal(chain, log, a, n) == 0 <==>
            forall i | 0 <= i < n :: MissedDebits(chain, log[i].db, log[i].height, a) == {}
    ensures MissedCount(chain, log, a, n) == 0 <==>
            forall i | 0 <= i < n :: MissedDebits(chain, log[i].db, log[i].height, a) == {}
  {
    hide WellFormed, MissedSats, MissedDebits;
    if n > 0 {
      MissedBounds(chain, log, a, n - 1);
      MissedHasWorth(chain, log[n - 1].db, log[n - 1].height, a);
      if MissedDebits(chain, log[n - 1].db, log[n - 1].height, a) == {} {
        MissedNothing(chain, log[n - 1].db, log[n - 1].height, a);
      }
    }
  }

  lemma LogCovers(chain: seq<Block>, watch: WatchTable, s: Sys)
    requires OnceInv(chain, watch, s) && AllScanned(chain, s)
    ensures Distinct(OrderOf(s.log)) && Elems(OrderOf(s.log)) == Below(|chain|)
  {
    hide Folded;
    var order := OrderOf(s.log);
    forall h | h in Below(|chain|)
      ensures h in Elems(order)
    {
      assert Logged(s.log, h);
      var i :| 0 <= i < |s.log| && s.log[i].height == h;
      assert order[i] == h;
    }
    forall h | h in Elems(order)
      ensures h in Below(|chain|)
    {
      var i :| 0 <= i < |order| && order[i] == h;
      assert s.log[i].height == h;
    }
  }

  ghost predicate AllScanned(chain: seq<Block>, s: Sys) {
    forall h | h in Below(|chain|) :: h in s.jobs && s.jobs[h].addr == Done
  }

  lemma RecomputedIs(db: Tables, a: Address)
    ensures var r := RecomputeRow(db, a, UNSEEN);
            r.balance == Total(Amounts(db, UnspentOuts(db, a))) && r.utxos == |UnspentOuts(db, a)|
  {
    V.NoOutsNothing(db, a);
  }

  /** The figures of a log that covers the chain. */
  lemma LogEndsOffBy(chain: seq<Block>, watch: WatchTable, log: seq<Commit>, a: Address)
    requires WellFormed(chain) && AllSee(chain, log) && Distinct(OrderOf(log)) && Elems(OrderOf(log)) == Below(|chain|)
    requires a in watch && watch[a] == UNSEEN
    ensures LogOnChain(chain, log)
    ensures var t, r := Folded(chain, watch, log, |log|), RecomputeRow(Complete(chain), a, UNSEEN);
            && a in t
            && t[a].balance == r.balance + MissedTotal(chain, log, a, |log|) - Lowest(LogDeltas(chain, log, a), |log|)
            && t[a].utxos == r.utxos + MissedCount(chain, log, a, |log|) - Lowest(LogUtxoDeltas(chain, log, a), |log|)
  {
    AllSeeOnChain(chain, log);
    hide WellFormed, FullTables, Sees, Folded, LogDeltas, LogUtxoDeltas, V.SatDeltas, V.UtxoDeltas, MissedTotal,
         MissedCount, RecomputeRow, V.Aligned, Complete, Total, Amounts, UnspentOuts, PrefixSum, Clamped, Lowest, Elems,
         Below, Distinct;
    var n := |log|;
    FoldedBalance(chain, watch, log, n, a);
    FoldedUtxos(chain, watch, log, n, a);
    ClampedIsSumMinusLowest(LogDeltas(chain, log, a), n);
    ClampedIsSumMinusLowest(LogUtxoDeltas(chain, log, a), n);
    LogSumsAre(chain, log, a, n);
    CompleteIsFull(chain);
    CompleteIsAligned(chain);
    V.DeltaSums(Complete(chain), Hashes(chain), Times(chain), a, OrderOf(log));
    RecomputedIs(Complete(chain), a);
  }

  /**
   Any run that ends with every height scanned once, whatever was extracted when: a watched balance
   is the recomputed one, plus the debits that scans came too early to see, minus the lowest prefix
   sum of the committed deltas.  It is never less than the true one, and right if and only if no
   debit was missed and no prefix went negative.
   */
  lemma {:induction false} RunEndsOffBy(chain: seq<Block>, addresses: set<Address>, steps: seq<Step>, states: seq<Sys>,
                                        a: Address)
    requires WellFormed(chain) && IsRun(chain, Unseen(addresses), steps, states) && OnceRun(steps, states)
    requires AllScanned(chain, states[|steps|]) && a in addresses
    ensures LogOnChain(chain, states[|steps|].log)
    ensures var end := states[|steps|];
            && a in end.watch
            && var w, r, n := end.watch[a], RecomputeRow(Complete(chain), a, UNSEEN), |end.log|;
               var low, lowest := Lowest(LogDeltas(chain, end.log, a), n), Lowest(LogUtxoDeltas(chain, end.log, a), n);
            && w.balance == r.balance + MissedTotal(chain, end.log, a, n) - low && w.balance >= r.balance
            && w.utxos == r.utxos + MissedCount(chain, end.log, a, n) - lowest && w.utxos >= r.utxos
            && (w.balance == r.balance <==> NoneMissed(chain, end.log, a) && low == 0)
            && (w.utxos == r.utxos <==> NoneMissed(chain, end.log, a) && lowest == 0)
  {
    hide WellFormed, Enabled, Apply, RecomputeRow, Complete, Folded, Sees, MissedTotal, MissedCount, LogDeltas,
         LogUtxoDeltas, MissedDebits, AllScanned;
    var end := states[|steps|];
    DeltasExactlyOnce(chain, Unseen(addresses), steps, states, |steps|);
    ScansSee(chain, Unseen(addresses), steps, states, |steps|);
    LogCovers(chain, Unseen(addresses), end);
    LogEndsOffBy(chain, Unseen(addresses), end.log, a);
    MissedBounds(chain, end.log, a, |end.log|);
  }

  // ----- transaction counts and times of any run -----

  ghost function LogMissedTxs(chain: seq<Block>, log: seq<Commit>, a: Address): (ds: seq<int>)
    requires LogOnChain(chain, log)
    ensures |ds| == |log|
    ensures forall i | 0 <= i < |log| :: ds[i] == |MissedTxs(chain, log[i].db, log[i].height, a)|
  {
    seq(|log|, i requires 0 <= i < |log| => |MissedTxs(chain, log[i].db, log[i].height, a)|)
  }

  lemma {:induction false} PrefixSumMinus(ds: seq<int>, all: seq<int>, missed: seq<int>, n: nat)
    requires |ds| == |all| == |missed| && n <= |ds|
    requires forall i | 0 <= i < |ds| :: ds[i] == all[i] - missed[i] && missed[i] >= 0
    ensures PrefixSum(ds, n) == PrefixSum(all, n) - PrefixSum(missed, n) && PrefixSum(missed, n) >= 0
    ensures PrefixSum(missed, n) == 0 <==> forall i | 0 <= i < n :: missed[i] == 0
  {
    if n > 0 {
      PrefixSumMinus(ds, all, missed, n - 1);
    }
  }

  lemma TxSumsAre(chain: seq<Block>, log: seq<Commit>, a: Address)
    requires WellFormed(chain) && AllSee(chain, log)
    ensures LogOnChain(chain, log) && V.InRange(Hashes(chain), OrderOf(log))
    ensures var all, missed :=
              V.TxCounts(FullTables(chain), Hashes(chain), a, OrderOf(log)), LogMissedTxs(chain, log, a);
            && PrefixSum(LogTxCounts(chain, log, a), |log|) == PrefixSum(all, |log|) - PrefixSum(missed, |log|)
            && PrefixSum(missed, |log|) >= 0
            && (PrefixSum(missed, |log|) == 0 <==> forall i | 0 <= i < |log| :: missed[i] == 0)
  {
    AllSeeOnChain(chain, log);
    hide WellFormed, FullTables, Sees, TouchedTxids, MissedTxs, MissedDebits, LogTxCounts, V.TxCounts, LogMissedTxs;
    var counts, missed := LogTxCounts(chain, log, a), LogMissedTxs(chain, log, a);
    var all := V.TxCounts(FullTables(chain), Hashes(chain), a, OrderOf(log));
    forall i | 0 <= i < |log|
      ensures counts[i] == all[i] - missed[i] && missed[i] >= 0
    {
      SeenTxs(chain, log[i].db, log[i].height, a);
    }
    PrefixSumMinus(counts, all, missed, |log|);
  }

  /** No committed scan missed a transaction of `a`. */
  ghost predicate NoTxMissed(chain: seq<Block>, log: seq<Commit>, a: Address)
    requires LogOnChain(chain, log)
  {
    forall i | 0 <= i < |log| :: MissedTxs(chain, log[i].db, log[i].height, a) == {}
  }

  lemma NoTxMissedIff(chain: seq<Block>, log: seq<Commit>, a: Address)
    requires LogOnChain(chain, log)
    ensures NoTxMissed(chain, log, a) <==> forall i | 0 <= i < |log| :: LogMissedTxs(chain, log, a)[i] == 0
  {
    hide MissedTxs, LogMissedTxs;
    if forall i | 0 <= i < |log| :: LogMissedTxs(chain, log, a)[i] == 0 {
      forall i | 0 <= i < |log|
        ensures MissedTxs(chain, log[i].db, log[i].height, a) == {}
      {
        assert LogMissedTxs(chain, log, a)[i] == 0;
      }
    }
  }

  lemma RecomputedCount(db: Tables, a: Address)
    ensures RecomputeRow(db, a, UNSEEN).txCount == |AllTouched(db, a)|
  {
    V.NoOutsNothing(db, a);
  }

  /**
   In the same runs the transaction count is the recomputed one minus the transactions seen through
   missed debits alone, and the times are those of the blocks whose scan found the address.
   */
  lemma {:induction false} RunCountsOffBy(chain: seq<Block>, addresses: set<Address>, steps: seq<Step>,
                                          states: seq<Sys>, a: Address)
    requires WellFormed(chain) && IsRun(chain, Unseen(addresses), steps, states) && OnceRun(steps, states)
    requires AllScanned(chain, states[|steps|]) && a in addresses
    ensures LogOnChain(chain, states[|steps|].log)
    ensures var end := states[|steps|];
            && a in end.watch
            && var w, r, n := end.watch[a], RecomputeRow(Complete(chain), a, UNSEEN), |end.log|;
            && w.txCount == r.txCount - PrefixSum(LogMissedTxs(chain, end.log, a), n) && w.txCount <= r.txCount
            && (w.txCount == r.txCount <==> NoTxMissed(chain, end.log, a))
            && w.firstSeen == Least(LogTimes(chain, end.log, a, n))
            && w.lastSeen == Greatest(LogTimes(chain, end.log, a, n))
  {
    hide WellFormed, Enabled, Apply, RecomputeRow, Complete, FullTables, Folded, Sees, MissedTxs, LogTxCounts, LogTimes,
         LogMissedTxs, NoTxMissed, V.TxCounts, AllScanned, Least, Greatest, AllTouched, V.Aligned, Elems, Below,
         PrefixSum;
    var end := states[|steps|];
    DeltasExactlyOnce(chain, Unseen(addresses), steps, states, |steps|);
    ScansSee(chain, Unseen(addresses), steps, states, |steps|);
    LogCovers(chain, Unseen(addresses), end);
    FoldedCounts(chain, Unseen(addresses), end.log, |end.log|, a);
    TxSumsAre(chain, end.log, a);
    NoTxMissedIff(chain, end.log, a);
    CompleteIsFull(chain);
    CompleteIsAligned(chain);
    V.TxCountsAddUp(Complete(chain), Hashes(chain), Times(chain), a, OrderOf(end.log));
    RecomputedCount(Complete(chain), a);
  }

  // ----- runs whose scans miss nothing -----

  /** Each scan finds every output of `a` that its height spends. */
  ghost predicate ScansComplete(chain: seq<Block>, steps: seq<Step>, states: seq<Sys>, a: Address) {
    |states| == |steps| + 1 &&
    forall n | 0 <= n < |steps| && steps[n].ScanStep? :: MissedDebits(chain, states[n].db, steps[n].height, a) == {}
  }

  /** Each scan commits when, by the queue's account, its own height and all below are extracted. */
  ghost predicate ScansBehind(chain: seq<Block>, steps: seq<Step>, states: seq<Sys>) {
    |states| == |steps| + 1 &&
    forall n, h | 0 <= n < |steps| && steps[n].ScanStep? && 0 <= h <= steps[n].height ::
      h in states[n].jobs && states[n].jobs[h].vout in {Done, Skipped}
  }

  lemma {:induction false} ScansBehindMissNothing(chain: seq<Block>, watch: WatchTable, steps: seq<Step>,
                                                  states: seq<Sys>, a: Address)
    requires WellFormed(chain) && IsRun(chain, watch, steps, states) && ScansBehind(chain, steps, states)
    ensures ScansComplete(chain, steps, states, a)
  {
    hide WellFormed, DataInv, MissedDebits, OutsStored;
    forall n | 0 <= n < |steps| && steps[n].ScanStep?
      ensures MissedDebits(chain, states[n].db, steps[n].height, a) == {}
    {
      StatusNeverAheadOfData(chain, watch, steps, states, n);
      var h := steps[n].height;
      assert Enabled(chain, states[n], steps[n]);
      forall k | 0 <= k <= h
        ensures chain[k].time.Some? && OutsStored(chain, states[n].db, k)
      {
        ExtractedOuts(chain, states[n], k);
      }
      ExtractedBelowMissesNothing(chain, states[n].db, h, a);
    }
  }

  lemma ExtractedOuts(chain: seq<Block>, s: Sys, h: int)
    requires WellFormed(chain) && DataInv(chain, s) && h in s.jobs && s.jobs[h].vout in {Done, Skipped}
    ensures 0 <= h < |chain| && chain[h].time.Some? && OutsStored(chain, s.db, h)
  {
    hide AllTxKeys, AllIoKeys, AllSpendKeys, Sound, Kept, WellFormed;
    assert Backed(chain, s.db, h, s.jobs[h]);
    if s.jobs[h].vout == Skipped {
      SkippedHasNoSpends(chain, h);
    }
  }

  lemma {:induction false} LogMissesNothing(chain: seq<Block>, watch: WatchTable, steps: seq<Step>, states: seq<Sys>,
                                            a: Address, n: nat)
    requires IsRun(chain, watch, steps, states) && ScansComplete(chain, steps, states, a) && n <= |steps|
    ensures NoneMissed(chain, states[n].log, a)
  {
    hide MissedDebits, Mark, Requeued, ToppedUp, ScanHeight, Skips, ExtractBlock, BackfillBlock, LowestOf;
    if n > 0 {
      LogMissesNothing(chain, watch, steps, states, a, n - 1);
    }
  }

  lemma CommitScansTrue(chain: seq<Block>, log: seq<Commit>, a: Address, i: nat, w: WatchRow)
    requires WellFormed(chain) && AllSee(chain, log) && NoneMissed(chain, log, a) && i < |log|
    ensures var c := log[i];
            && 0 <= c.height < |chain| && chain[c.height].time.Some?
            && ScanRow(c.db, chain[c.height].hash, c.height, chain[c.height].time.value, a, w)
               == ScanRow(FullTables(chain), Hashes(chain)[c.height], c.height, Times(chain)[c.height], a, w)
  {
    hide WellFormed, FullTables, Sees, ScanRow, MissedDebits;
    NothingMissedScansTrue(chain, log[i].db, log[i].height, a);
  }

  lemma {:induction false} FoldedRow(chain: seq<Block>, watch: WatchTable, log: seq<Commit>, a: Address, n: nat)
    requires WellFormed(chain) && AllSee(chain, log) && NoneMissed(chain, log, a) && a in watch && n <= |log|
    ensures LogOnChain(chain, log) && V.InRange(Hashes(chain), OrderOf(log))
    ensures a in Folded(chain, watch, log, n)
    ensures Folded(chain, watch, log, n)[a]
            == V.RowAfter(FullTables(chain), Hashes(chain), Times(chain), a, watch[a], OrderOf(log), n)
  {
    hide FullTables, ScanRow, AllSee, NoneMissed;
    AllSeeOnChain(chain, log);
    hide WellFormed, Times, Hashes;
    if n > 0 {
      FoldedRow(chain, watch, log, a, n - 1);
      CommitScansTrue(chain, log, a, n - 1, Folded(chain, watch, log, n - 1)[a]);
    }
  }

  /**
   Any run whose scans find what they need, such as one that scans behind extraction, and that ends
   with every height scanned once: a watched address carries the recomputed transaction count and
   times, and the recomputed balance and UTXO count minus the lowest prefix sum of their deltas.
   */
  lemma {:induction false} RunEndsAtRecomputed(chain: seq<Block>, addresses: set<Address>, steps: seq<Step>,
                                               states: seq<Sys>, a: Address)
    requires WellFormed(chain) && IsRun(chain, Unseen(addresses), steps, states) && OnceRun(steps, states)
    requires ScansComplete(chain, steps, states, a) && AllScanned(chain, states[|steps|]) && a in addresses
    ensures V.InRange(Hashes(chain), OrderOf(states[|steps|].log))
    ensures var end, order := states[|steps|], OrderOf(states[|steps|].log);
            && a in end.watch
            && var w, r := end.watch[a], RecomputeRow(Complete(chain), a, UNSEEN);
            && w.txCount == r.txCount && w.firstSeen == r.firstSeen && w.lastSeen == r.lastSeen
            && w.balance == r.balance - Lowest(V.SatDeltas(Complete(chain), Hashes(chain), a, order), |order|)
            && w.utxos == r.utxos - Lowest(V.UtxoDeltas(Complete(chain), Hashes(chain), a, order), |order|)
  {
    hide WellFormed, Enabled, Apply, RecomputeRow, V.Aligned, Complete, Folded, Sees, V.RowAfter, FullTables,
         V.SatDeltas, V.UtxoDeltas, AllScanned, NoneMissed, ScansComplete;
    var end := states[|steps|];
    var order := OrderOf(end.log);
    DeltasExactlyOnce(chain, Unseen(addresses), steps, states, |steps|);
    ScansSee(chain, Unseen(addresses), steps, states, |steps|);
    LogMissesNothing(chain, Unseen(addresses), steps, states, a, |steps|);
    LogCovers(chain, Unseen(addresses), end);
    FoldedRow(chain, Unseen(addresses), end.log, a, |end.log|);
    CompleteIsFull(chain);
    CompleteIsAligned(chain);
    V.ScanInAnyOrder(Complete(chain), Hashes(chain), Times(chain), a, order);
  }
}
