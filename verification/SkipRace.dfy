/** Which blocks are skipped, and that only they let the phases get out of order. */
module SkipRace {
  import opened Common
  import opened Chain
  import opened Rows
  import opened Extract
  import opened Ledger
  import opened Confluence
  import opened SoundTables
  import opened Watch
  import opened Jobs
  import opened Protocol
  import opened Exclusion
  import opened Runs
  import opened Live

  /** No input names a txid, no output earns a row or could be spent, and some transaction is no lone coinbase. */
  ghost predicate Blank(b: Block) {
    && !HasPreviousTxid(b) && !AnySpendableOutput(b) && !CoinbaseOnly(b)
    && forall i, j | 0 <= i < |b.txs| && 0 <= j < |b.txs[i].vouts| :: !OutAt(b, i, j)
  }

  lemma SkippedIff(b: Block)
    ensures !Kept(b) <==> Blank(b)
  {
    var outs := BlockOutRows(b, |b.txs|);
    if outs != [] {
      BlockOutRowsAre(b, |b.txs|, outs[0]);
      var i, j :| OutAt(b, i, j) && outs[0] == OutRow(b.txs[i], j);
      assert OutAt(b, i, j);
    }
    if i, j :| 0 <= i < |b.txs| && 0 <= j < |b.txs[i].vouts| && OutAt(b, i, j) {
      BlockOutRowsAre(b, |b.txs|, OutRow(b.txs[i], j));
    }
  }

  /** The shape consensus demands: each transaction has one coinbase input or spends something. */
  ghost predicate BitcoinShaped(b: Block) {
    && |b.txs| > 0
    && forall i | 0 <= i < |b.txs| ::
         || (|b.txs[i].vins| == 1 && b.txs[i].vins[0].coinbase)
         || exists j :: 0 <= j < |b.txs[i].vins| && b.txs[i].vins[j].txid.Some?
  }

  /** Blocks of that shape are never skipped. */
  lemma BitcoinBlocksAreKept(b: Block)
    requires BitcoinShaped(b)
    ensures Kept(b)
  {
    SkippedIff(b);
    if !HasPreviousTxid(b) {
      forall i | 0 <= i < |b.txs|
        ensures |b.txs[i].vins| == 1 && b.txs[i].vins[0].coinbase
      {
        assert forall j | 0 <= j < |b.txs[i].vins| :: b.txs[i].vins[j].txid.None?;
      }
      assert CoinbaseOnly(b);
    }
  }

  ghost predicate AllKept(chain: seq<Block>) {
    forall h | 0 <= h < |chain| :: Kept(chain[h])
  }

  /** Without skipped blocks every run without requeues is orderly. */
  lemma KeptRunsAreOrderly(chain: seq<Block>, watch: WatchTable, steps: seq<Step>, states: seq<Sys>)
    requires WellFormed(chain) && IsRun(chain, watch, steps, states) && NoRequeues(steps) && AllKept(chain)
    ensures OrderlyRun(steps, states)
  {
    hide WellFormed, Apply, Enabled, Kept, Sound, Backed, Contiguous;
    forall n | 0 <= n < |steps|
      ensures OrderlyStep(states[n], steps[n])
    {
      StatusNeverAheadOfData(chain, watch, steps, states, n);
    }
  }

  /** Any schedule without requeues keeps the order of the phases in every state. */
  ghost predicate OrderAlwaysKept(chain: seq<Block>, watch: WatchTable) {
    forall steps: seq<Step>, states: seq<Sys> | IsRun(chain, watch, steps, states) && NoRequeues(steps) ::
      PhaseOrder(states[|steps|].jobs)
  }

  /** Up to the window: the block's first skip mark is committed, the second is not. */
  lemma ReachMidSkip(chain: seq<Block>, watch: WatchTable, h: int) returns (steps: seq<Step>, states: seq<Sys>, x: Hold)
    requires WellFormed(chain) && 0 <= h < |chain| && !Kept(chain[h])
    ensures IsRun(chain, watch, steps, states) && NoRequeues(steps) && |states| == |steps| + 1
    ensures var s := states[|steps|]; DataInv(chain, s) && OrderInv(s) && x in s.held && x.stage.SkipMarked?
  {
    hide WellFormed, Kept, ExtractBlock, ToppedUp, Enabled, Apply, DataInv, OrderInv, Sound, Contiguous, FeaturesOf;
    assert Enabled(chain, Init(watch), TopUp(|chain| - 1)) by { TopUpEnabled(chain, watch); }
    steps, states := Extend(chain, watch, [], [Init(watch)], TopUp(|chain| - 1));
    var s0 := states[|steps|];
    FreshJobs(chain, watch);
    ClaimEffect(chain, s0, 1, VoutPhase, h);
    steps, states := Extend(chain, watch, steps, states, ClaimOnly(s0, 1, VoutPhase, h));
    var s1 := states[|steps|];
    StatusNeverAheadOfData(chain, watch, steps, states, |steps|);
    DataInvIsSound(chain, s1);
    ExtractEffect(chain, s1, 1, h, true);
    steps, states := Extend(chain, watch, steps, states, ExtractStep(1, h, true));
    x := Hold(1, VoutPhase, h, SkipMarked(true));
    StatusNeverAheadOfData(chain, watch, steps, states, |steps|);
    assert |steps| == 3 && steps[0].TopUp? && steps[1].Claim? && steps[1].phase == VoutPhase && steps[2].ExtractStep?;
    PhasesInOrder(chain, watch, steps, states, |steps|);
  }

  lemma TopUpEnabled(chain: seq<Block>, watch: WatchTable)
    ensures Enabled(chain, Init(watch), TopUp(|chain| - 1))
  {
  }

  lemma FreshJobs(chain: seq<Block>, watch: WatchTable)
    ensures var step := TopUp(|chain| - 1);
            && Enabled(chain, Init(watch), step)
            && forall h | 0 <= h < |chain| ::
                 h in Apply(chain, Init(watch), step).jobs && Apply(chain, Init(watch), step).jobs[h] == FRESH
  {
  }

  /** From there the race breaks the order. */
  lemma SkippedBlockBreaksOrder(chain: seq<Block>, watch: WatchTable, h: int)
    returns (steps: seq<Step>, states: seq<Sys>)
    requires WellFormed(chain) && 0 <= h < |chain| && !Kept(chain[h])
    ensures IsRun(chain, watch, steps, states) && NoRequeues(steps) && |states| == |steps| + 1
    ensures !PhaseOrder(states[|steps|].jobs)
  {
    hide WellFormed, Kept, Enabled, Apply, DataInv, OrderInv, PhaseOrder, OrderlyStep, IsRun, NoRequeues;
    var x;
    steps, states, x := ReachMidSkip(chain, watch, h);
    var more, reached := SkipRaceBreaksOrder(chain, states[|steps|], x, 2, 3);
    for n := 0 to 4
      invariant IsRun(chain, watch, steps, states) && NoRequeues(steps) && |states| == |steps| + 1
      invariant states[|steps|] == reached[n]
    {
      steps, states := Extend(chain, watch, steps, states, more[n]);
    }
  }

  /**
   Every schedule without requeues keeps the phases in order if and only if the chain has no block
   that is skipped.
   */
  lemma {:induction false} OrderAlwaysKeptIff(chain: seq<Block>, watch: WatchTable)
    requires WellFormed(chain)
    ensures OrderAlwaysKept(chain, watch) <==> AllKept(chain)
  {
    hide WellFormed, Kept, Enabled, Apply, PhaseOrder, OrderInv, OrderlyRun, NoRequeues;
    if AllKept(chain) {
      forall steps: seq<Step>, states: seq<Sys> | IsRun(chain, watch, steps, states) && NoRequeues(steps)
        ensures PhaseOrder(states[|steps|].jobs)
      {
        KeptRunsAreOrderly(chain, watch, steps, states);
        PhasesInOrder(chain, watch, steps, states, |steps|);
      }
    } else {
      var h :| 0 <= h < |chain| && !Kept(chain[h]);
      var steps, states := SkippedBlockBreaksOrder(chain, watch, h);
    }
  }

  /** On chains of Bitcoin's shape the order needs no premise on the claims. */
  lemma {:induction false} BitcoinKeepsOrder(chain: seq<Block>, watch: WatchTable, steps: seq<Step>, states: seq<Sys>,
                                             n: nat)
    requires WellFormed(chain) && forall h | 0 <= h < |chain| :: BitcoinShaped(chain[h])
    requires IsRun(chain, watch, steps, states) && NoRequeues(steps) && n <= |steps|
    ensures OrderInv(states[n]) && PhaseOrder(states[n].jobs)
  {
    hide WellFormed, Kept, Enabled, Apply, PhaseOrder, OrderInv, OrderlyRun, BitcoinShaped;
    forall h | 0 <= h < |chain|
      ensures Kept(chain[h])
    {
      BitcoinBlocksAreKept(chain[h]);
    }
    KeptRunsAreOrderly(chain, watch, steps, states);
    PhasesInOrder(chain, watch, steps, states, n);
  }

  /** The smallest chain that reaches the window: one block without transactions. */
  lemma BlankChain(watch: WatchTable)
    ensures var chain := [Block("0", Some(0), [])]; WellFormed(chain) && !OrderAlwaysKept(chain, watch)
  {
    var chain := [Block("0", Some(0), [])];
    assert WellFormed(chain);
    SkippedIff(chain[0]);
    OrderAlwaysKeptIff(chain, watch);
  }
}
