/**
 A run in which an address scan commits before the output it should debit is extracted: the queue
 allows it, and the balance it leaves is too high for good.
 */
module EarlyScan {
  import opened Common
  import opened Chain
  import opened Rows
  import opened Extract
  import opened Ledger
  import opened Confluence
  import opened History
  import opened SoundTables
  import opened TwoPass
  import opened Watch
  import opened Jobs
  import opened FullLedger
  import opened Conservation
  import opened Protocol
  import opened Exclusion
  import opened ExactlyOnce
  import opened PartialBackfill
  import opened Scans
  import opened EndToEnd
  import opened Runs

  /** Claim a height and extract it with inline prevouts. */
  lemma ExtractMove(chain: seq<Block>, watch: WatchTable, steps: seq<Step>, states: seq<Sys>, w: int, h: int)
    returns (steps': seq<Step>, states': seq<Sys>)
    requires WellFormed(chain) && IsRun(chain, watch, steps, states) && NoRequeues(steps) && |states| == |steps| + 1
    requires var s := states[|steps|];
             && 0 <= h < |chain| && Kept(chain[h]) && Hold(w, VoutPhase, h, Working) !in s.held
             && h in s.jobs && s.jobs[h].vout == Pending
    ensures IsRun(chain, watch, steps', states') && NoRequeues(steps') && |states'| == |steps'| + 1
    ensures chain[h].time.Some?
    ensures var s, s' := states[|steps|], states'[|steps'|];
            && ExtractBlock(s.db, chain[h], h, true).Some?
            && s' == s.(db := ExtractBlock(s.db, chain[h], h, true).value,
                        jobs := s.jobs[h := s.jobs[h].(vout := Done, vin := Done, features := FeaturesOf(chain[h], h))])
  {
    hide WellFormed, IsRun, NoRequeues, Enabled, Apply, Kept, ExtractBlock, Sound, ClaimOnly, DataInv;
    var s := states[|steps|];
    ClaimEffect(chain, s, w, VoutPhase, h);
    steps', states' := Extend(chain, watch, steps, states, ClaimOnly(s, w, VoutPhase, h));
    var s1 := states'[|steps'|];
    StatusNeverAheadOfData(chain, watch, steps', states', |steps'|);
    DataInvSound(chain, s1);
    ExtractEffect(chain, s1, w, h, true);
    steps', states' := Extend(chain, watch, steps', states', ExtractStep(w, h, true));
    assert s1.held - {Hold(w, VoutPhase, h, Working)} == s.held;
  }

  /** Claim a height and scan it. */
  lemma ScanMove(chain: seq<Block>, watch: WatchTable, steps: seq<Step>, states: seq<Sys>, w: int, h: int)
    returns (steps': seq<Step>, states': seq<Sys>)
    requires IsRun(chain, watch, steps, states) && NoRequeues(steps) && |states| == |steps| + 1
    requires var s := states[|steps|];
             && 0 <= h < |chain| && chain[h].time.Some? && Hold(w, AddrPhase, h, Working) !in s.held
             && h in s.jobs && Ready(s.jobs[h], AddrPhase) && s.jobs[h].addr == Pending
    ensures IsRun(chain, watch, steps', states') && NoRequeues(steps') && |states'| == |steps'| + 1
    ensures var s, s' := states[|steps|], states'[|steps'|];
            s' == s.(watch := s'.watch, jobs := s.jobs[h := s.jobs[h].(addr := Done)], log := s.log + [Commit(h, s.db)])
  {
    hide IsRun, NoRequeues, Enabled, Apply, ScanHeight, ClaimOnly;
    var s := states[|steps|];
    ClaimEffect(chain, s, w, AddrPhase, h);
    steps', states' := Extend(chain, watch, steps, states, ClaimOnly(s, w, AddrPhase, h));
    var s1 := states'[|steps'|];
    ScanEffect(chain, s1, w, h);
    steps', states' := Extend(chain, watch, steps', states', ScanStep(w, h));
    assert s1.held - {Hold(w, AddrPhase, h, Working)} == s.held;
  }

  /** The blocks of `ThreeBlocks` are all kept. */
  lemma ThreeBlocksKept()
    ensures forall h | 0 <= h < 3 :: Kept(ThreeBlocks()[h]) && ThreeBlocks()[h].time.Some?
  {
    var chain := ThreeBlocks();
    HexDiffer('a', 'b');
    HexDiffer('c', 'c');
    forall h | 0 <= h < 3
      ensures Kept(chain[h])
    {
      assert OutAt(chain[h], 0, 0);
      BlockOutRowsAre(chain[h], 1, OutRow(chain[h].txs[0], 0));
    }
  }

  lemma FreshRun(chain: seq<Block>, watch: WatchTable, tip: int) returns (steps: seq<Step>, states: seq<Sys>)
    requires 0 <= tip < |chain|
    ensures IsRun(chain, watch, steps, states) && NoRequeues(steps) && |states| == |steps| + 1
    ensures var s := states[|steps|];
            && s.held == {} && s.log == [] && s.db == EMPTY && s.watch == watch
            && s.jobs.Keys == Below(tip + 1) && forall h | h in s.jobs :: s.jobs[h] == FRESH
  {
    steps, states := Extend(chain, watch, [], [Init(watch)], TopUp(tip));
  }

  /** The first and the last of three blocks extracted, then scanned. */
  lemma TwoScanned(chain: seq<Block>, watch: WatchTable) returns (steps: seq<Step>, states: seq<Sys>)
    requires WellFormed(chain) && |chain| == 3 && (forall h | 0 <= h < 3 :: Kept(chain[h]) && chain[h].time.Some?)
    ensures IsRun(chain, watch, steps, states) && NoRequeues(steps) && |states| == |steps| + 1
    ensures var s := states[|steps|];
            && s.held == {} && s.jobs.Keys == Below(3) && s.jobs[1] == FRESH
            && (forall h | h == 0 || h == 2 ::
                s.jobs[h].vout == Done && s.jobs[h].vin == Done && s.jobs[h].addr == Done)
            && |s.log| == 2 && s.log[1] == Commit(2, Run(chain, EMPTY, [ExtractW(0, true), ExtractW(2, true)], 2))
  {
    hide WellFormed, IsRun, NoRequeues, Kept, ExtractBlock, FeaturesOf;
    var ws := [ExtractW(0, true), ExtractW(2, true)];
    steps, states := FreshRun(chain, watch, 2);
    assert states[|steps|].db == Run(chain, EMPTY, ws, 0);
    steps, states := ExtractMove(chain, watch, steps, states, 1, 0);
    assert states[|steps|].db == Run(chain, EMPTY, ws, 1);
    steps, states := ExtractMove(chain, watch, steps, states, 1, 2);
    assert states[|steps|].db == Run(chain, EMPTY, ws, 2);
    steps, states := ScanMove(chain, watch, steps, states, 1, 0);
    steps, states := ScanMove(chain, watch, steps, states, 1, 2);
  }

  /** Blocks 0 and 2 extracted and scanned, then block 1. */
  lemma EarlyScanRun() returns (steps: seq<Step>, states: seq<Sys>)
    ensures IsRun(ThreeBlocks(), Unseen({"X"}), steps, states) && NoRequeues(steps) && |states| == |steps| + 1
    ensures var chain, s := ThreeBlocks(), states[|steps|];
            && AllExtracted(chain, s.jobs) && AllScanned(chain, s) && |s.log| == 3 && s.log[1].height == 2
            && s.log[1].db == Run(chain, EMPTY, [ExtractW(0, true), ExtractW(2, true)], 2)
  {
    var chain, watch := ThreeBlocks(), Unseen({"X"});
    ThreeBlocksWellFormed();
    ThreeBlocksKept();
    ThreeOfThem();
    hide WellFormed, IsRun, NoRequeues, Kept, ExtractBlock, ThreeBlocks, Unseen, Run, FeaturesOf;
    steps, states := TwoScanned(chain, watch);
    steps, states := ExtractMove(chain, watch, steps, states, 1, 1);
    steps, states := ScanMove(chain, watch, steps, states, 1, 1);
    assert forall h | h in Below(3) :: h == 0 || h == 1 || h == 2;
  }

  lemma ThreeOfThem()
    ensures |ThreeBlocks()| == 3
  {
  }

  lemma CoinRows()
    ensures var chain, b := ThreeBlocks(), IoKey(Hex('b'), Out, 0);
            && OutAt(chain[1], 0, 0) && SpendAt(chain[2], 0, 1)
            && IoKeyOf(OutRow(chain[1].txs[0], 0)) == b && IoEntryOf(OutRow(chain[1].txs[0], 0)).address == "X"
            && SpendRowOf(chain, 2, SpendOf(chain[2].txs[0], 1, 2, chain[2]))
            && OutpointOf(SpendOf(chain[2].txs[0], 1, 2, chain[2])) == Prev(b)
  {
    var chain := ThreeBlocks();
    HexDiffer('b', 'c');
    HexDiffer('c', 'c');
    assert SpendAt(chain[2], 0, 1);
    BlockSpendRowsAre(chain[2], 1, 2, SpendOf(chain[2].txs[0], 1, 2, chain[2]));
  }

  /** The coin of block 1 is spent in block 2. */
  lemma CoinIsSpent()
    ensures IoKey(Hex('b'), Out, 0) in Debits(FullTables(ThreeBlocks()), 2, "X")
  {
    var chain := ThreeBlocks();
    ThreeBlocksWellFormed();
    CoinRows();
    var r := SpendOf(chain[2].txs[0], 1, 2, chain[2]);
    assert SpendEntryOf(r).height == 2;
    hide FullIo, FullSpends, FullTxs, SpendOf, SpendRowOf;
    OutStored(chain, 1, 0, 0) by {
      assert |chain| == 3;
    }
    FullSpendsHas(chain, 2, r) by {
      WellFormedParts(chain);
    }
  }

  /** The rows that two extractions leave. */
  lemma TwoExtractions(chain: seq<Block>, h: int, h': int)
    requires WellFormed(chain) && 0 <= h < |chain| && 0 <= h' < |chain|
    ensures Run(chain, EMPTY, [ExtractW(h, true), ExtractW(h', true)], 2).io.Keys
            == OutKeys(chain, {h, h'}) + InKeys(chain, {h, h'})
  {
    hide WellFormed, FullIo, FullSpends, FullTxs, Perform, LedgerOf, OutKeys, InKeys;
    var ws := [ExtractW(h, true), ExtractW(h', true)];
    RunIs(chain, ws, 2);
    assert Extracted(ws, 1) == {h} && Filled(ws, 1) == {h};
    assert ws[1].height == h' && {h} + {h'} == {h, h'};
    assert Extracted(ws, 2) == {h, h'} && Filled(ws, 2) == {h, h'};
    LedgerIoWithin(chain, {h, h'}, {h, h'});
  }

  /** Nobody has stored it by the time blocks 0 and 2 are extracted. */
  lemma CoinNotStored()
    ensures var ws := [ExtractW(0, true), ExtractW(2, true)];
            IoKey(Hex('b'), Out, 0) !in Run(ThreeBlocks(), EMPTY, ws, 2).io
  {
    var chain := ThreeBlocks();
    ThreeBlocksWellFormed();
    OnlyFirstCoinStored();
    hide WellFormed, OutKeys, InKeys, Run;
    TwoExtractions(chain, 0, 2);
    OnlyInKeys(chain, {0, 2});
  }

  lemma WellFormedParts(chain: seq<Block>)
    requires WellFormed(chain)
    ensures DistinctOutpoints(chain)
  {
  }

  lemma OnlyInKeys(chain: seq<Block>, hs: set<int>)
    ensures forall k | k in InKeys(chain, hs) :: k.io == In
  {
    forall h, r | h in hs && 0 <= h < |chain| && r in InRowsAtHeight(chain, h)
      ensures IoKeyOf(r).io == In
    {
      var i, j := InRowPosition(chain, h, r);
    }
  }

  /**
   A run the queue allows, without a failure or a requeue, that extracts and scans every block once:
   the coin of block 1 stays in the balance although block 2 spends it.
   */
  lemma EarlyScanOvercounts() returns (steps: seq<Step>, states: seq<Sys>)
    ensures var chain, watch := ThreeBlocks(), Unseen({"X"});
            && WellFormed(chain) && IsRun(chain, watch, steps, states) && OnceRun(steps, states)
            && var end := states[|steps|];
            && AllExtracted(chain, end.jobs) && AllScanned(chain, end) && "X" in end.watch
            && end.watch["X"].balance > RecomputeRow(Complete(chain), "X", UNSEEN).balance
  {
    var chain := ThreeBlocks();
    ThreeBlocksWellFormed();
    steps, states := EarlyScanRun();
    PlainRuns(steps, states);
    CoinIsSpent();
    CoinNotStored();
    var end := states[|steps|];
    hide WellFormed, IsRun, OnceRun, AllScanned, AllExtracted, RecomputeRow, Complete, ThreeBlocks, Debits, FullTables,
         Unseen;
    assert IoKey(Hex('b'), Out, 0) in MissedDebits(chain, end.log[1].db, 2, "X");
    assert !NoneMissed(chain, end.log, "X");
    RunEndsOffBy(chain, {"X"}, steps, states, "X");
  }
}
