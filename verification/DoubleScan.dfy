/**
 Why requeues of the address phase must leave held heights alone: a request by features hands a held
 height out again, and both workers apply its delta.
 */
module DoubleScan {
  import opened Common
  import opened Chain
  import opened Rows
  import opened Extract
  import opened Ledger
  import opened Confluence
  import opened SoundTables
  import opened Watch
  import opened Clamp
  import opened Jobs
  import opened FullLedger
  import opened Conservation
  import opened Protocol
  import opened Exclusion
  import opened PartialBackfill
  import opened Scans
  import opened EndToEnd
  import opened Runs
  import opened EarlyScan
  import opened Haircut
  import opened Sums
  import V = ViewAgreement

  // ----- the run -----

  /** `requeue --phase address --features` with the features of the block. */
  ghost function AddrByFeatures(f: Features): Requeue {
    Requeue([AddrPhase], false, false, {f}, None, None)
  }

  lemma AddrRequeued(rows: JobRows, j: Job)
    requires rows == map[0 := j]
    ensures !Refused(AddrByFeatures(j.features))
    ensures Requeued(rows, AddrByFeatures(j.features)) == map[0 := j.(addr := Pending)]
  {
    var r := AddrByFeatures(j.features);
    assert Selected(rows, r, AddrPhase) == {0};
    assert Requeued(rows, r) == Mark(RequeueColumns(rows, r, 0), AddrPhase, Selected(rows, r, AddrPhase), Pending);
    MarkOne(rows, AddrPhase, 0, Pending);
  }

  /** The only block is extracted, and worker 1 claims its scan. */
  lemma ScanClaimed(chain: seq<Block>, watch: WatchTable) returns (steps: seq<Step>, states: seq<Sys>)
    requires WellFormed(chain) && |chain| == 1 && Kept(chain[0])
    ensures IsRun(chain, watch, steps, states) && |states| == |steps| + 1
    ensures chain[0].time.Some? && Sees(chain, states[|steps|].db, 0)
    ensures var s := states[|steps|];
            && s.watch == watch && s.log == [] && s.held == {Hold(1, AddrPhase, 0, Working)}
            && s.jobs == map[0 := Job(Done, Done, InProgress, FeaturesOf(chain[0], 0))]
  {
    hide WellFormed, IsRun, NoRequeues, Kept, ExtractBlock, FeaturesOf, Enabled, Apply, Sees, DataInv;
    steps, states := FreshRun(chain, watch, 0);
    OnlyRow(states[|steps|].jobs);
    steps, states := ExtractMove(chain, watch, steps, states, 1, 0);
    var s := states[|steps|];
    StatusNeverAheadOfData(chain, watch, steps, states, |steps|);
    ReadyIsSeen(chain, s, 0);
    ClaimEffect(chain, s, 1, AddrPhase, 0);
    steps, states := Extend(chain, watch, steps, states, ClaimOnly(s, 1, AddrPhase, 0));
  }

  lemma OnlyRow(jobs: JobRows)
    requires jobs.Keys == Below(1) && forall h | h in jobs :: jobs[h] == FRESH
    ensures jobs == map[0 := FRESH]
  {
  }

  /** It is requeued, claimed again, and scanned by both. */
  lemma ScannedTwice(chain: seq<Block>, watch: WatchTable) returns (steps: seq<Step>, states: seq<Sys>, db: Tables)
    requires WellFormed(chain) && |chain| == 1 && Kept(chain[0])
    ensures IsRun(chain, watch, steps, states) && |states| == |steps| + 1
    ensures chain[0].time.Some? && Sees(chain, db, 0)
    ensures var s, time := states[|steps|], chain[0].time.value;
            && s.log == [Commit(0, db), Commit(0, db)]
            && s.watch == ScanHeight(db, chain[0].hash, 0, time, ScanHeight(db, chain[0].hash, 0, time, watch))
  {
    hide WellFormed, IsRun, Kept, ExtractBlock, FeaturesOf, Sees, ScanHeight, Requeued;
    steps, states := ScanClaimed(chain, watch);
    var s := states[|steps|];
    db := s.db;
    var x, y := Hold(1, AddrPhase, 0, Working), Hold(2, AddrPhase, 0, Working);
    AddrRequeued(s.jobs, s.jobs[0]);
    var r := RequeueStep(AddrByFeatures(s.jobs[0].features));
    steps, states := ExtendRun(chain, watch, steps, states, r);
    s := states[|steps|];
    hide Enabled, Apply;
    ClaimEffect(chain, s, 2, AddrPhase, 0);
    steps, states := ExtendRun(chain, watch, steps, states, ClaimOnly(s, 2, AddrPhase, 0));
    s := states[|steps|];
    assert s.held == {x} + {y};
    ScanEffect(chain, s, 1, 0);
    steps, states := ExtendRun(chain, watch, steps, states, ScanStep(1, 0));
    s := states[|steps|];
    assert s.held == {y};
    ScanEffect(chain, s, 2, 0);
    steps, states := ExtendRun(chain, watch, steps, states, ScanStep(2, 0));
  }

  // ----- what it leaves -----

  /** The recomputed balance of a chain of one block is the block's delta, as any scan of it sees it. */
  lemma OneDelta(chain: seq<Block>, db: Tables, a: Address)
    requires WellFormed(chain) && |chain| == 1 && Sees(chain, db, 0)
    ensures DeltaSats(db, chain[0].hash, 0, a) == RecomputeRow(Complete(chain), a, UNSEEN).balance >= 0
  {
    hide WellFormed, FullTables, Complete, DeltaSats, DeltaUtxos, MissedDebits, MissedSats, RecomputeRow, V.Aligned,
         V.UtxoDeltas, Total, Amounts, UnspentOuts;
    var order := [0];
    CompleteIsFull(chain);
    CompleteIsAligned(chain);
    assert Elems(order) == Below(|chain|);
    V.DeltaSums(Complete(chain), Hashes(chain), Times(chain), a, order);
    var ds := V.SatDeltas(Complete(chain), Hashes(chain), a, order);
    assert PrefixSum(ds, 1) == PrefixSum(ds, 0) + ds[0];
    RecomputedIs(Complete(chain), a);
    SeesOuts(chain, db);
    ExtractedBelowMissesNothing(chain, db, 0, a);
    DeltaOffBy(chain, db, 0, a);
    MissedNothing(chain, db, 0, a);
    UnspentIsNonNegative(chain, a);
  }

  lemma SeesOuts(chain: seq<Block>, db: Tables)
    requires Sees(chain, db, 0)
    ensures 0 < |chain| && forall k | 0 <= k <= 0 :: chain[k].time.Some? && OutsStored(chain, db, k)
  {
  }

  lemma UnspentIsNonNegative(chain: seq<Block>, a: Address)
    requires WellFormed(chain)
    ensures Total(Amounts(FullTables(chain), UnspentOuts(FullTables(chain), a))) >= 0
  {
    hide WellFormed, FullIo, FullTxs, FullSpends;
    AmountsArePositive(chain);
    TotalNonNegative(Amounts(FullTables(chain), UnspentOuts(FullTables(chain), a)));
  }

  /**
   On any chain of one kept block, the requeue while a worker scans leaves every watched balance at
   twice its true value; no step of the run fails.
   */
  lemma {:induction false} DoubleScanDoubles(chain: seq<Block>, addresses: set<Address>)
    returns (steps: seq<Step>, states: seq<Sys>)
    requires WellFormed(chain) && |chain| == 1 && Kept(chain[0])
    ensures IsRun(chain, Unseen(addresses), steps, states) && |states| == |steps| + 1
    ensures var end := states[|steps|];
            && |end.log| == 2 && end.log[0] == end.log[1] && end.watch.Keys == addresses
            && forall a | a in addresses ::
                 end.watch[a].balance == 2 * RecomputeRow(Complete(chain), a, UNSEEN).balance >= 0
  {
    hide WellFormed, IsRun, Kept, Sees, RecomputeRow, Complete, ScanRow, DeltaSats;
    var db;
    steps, states, db := ScannedTwice(chain, Unseen(addresses));
    var hash, time, end := chain[0].hash, chain[0].time.value, states[|steps|];
    forall a | a in addresses
      ensures a in end.watch && end.watch[a].balance == 2 * RecomputeRow(Complete(chain), a, UNSEEN).balance >= 0
    {
      OneDelta(chain, db, a);
      var once := ScanRow(db, hash, 0, time, a, UNSEEN);
      ScannedBalance(db, hash, 0, time, a, UNSEEN);
      ScannedBalance(db, hash, 0, time, a, once);
    }
  }

  // ----- the smallest case -----

  /** One block that mints a coin for X. */
  function OneMint(): seq<Block> {
    [Block("0", Some(0), [Mint('a', 5.0)])]
  }

  lemma OneMintIs()
    ensures var chain := OneMint();
            && WellFormed(chain) && Kept(chain[0]) && OutAt(chain[0], 0, 0)
            && IoKeyOf(OutRow(chain[0].txs[0], 0)) == IoKey(Hex('a'), Out, 0)
            && OutRow(chain[0].txs[0], 0).address == "X"
            && forall h, i, j :: !InputAt(chain, h, i, j)
  {
    var chain := OneMint();
    HexDiffer('a', 'a');
    assert OutAt(chain[0], 0, 0);
    BlockOutRowsAre(chain[0], 1, OutRow(chain[0].txs[0], 0));
  }

  lemma OneMintPays()
    ensures RecomputeRow(Complete(OneMint()), "X", UNSEEN).balance > 0
  {
    var chain, k := OneMint(), IoKey(Hex('a'), Out, 0);
    OneMintIs();
    assert |chain| == 1;
    hide WellFormed, FullIo, FullTxs, FullSpends, OneMint, Hex, OutRow, Kept, Complete, Total;
    CompleteIsFull(chain);
    OutStored(chain, 0, 0, 0);
    if Prev(k) in FullSpends(chain) {
      var h, i, j := StoredSpendPosition(chain, Prev(k));
      assert false;
    }
    AmountsArePositive(chain);
    var db := FullTables(chain);
    assert k in UnspentOuts(db, "X");
    RecomputedIs(Complete(chain), "X");
    TotalPositive(Amounts(db, UnspentOuts(db, "X")), k);
  }

  /** There X holds 5 and is shown with 10. */
  lemma {:induction false} DoubleScanOvercounts() returns (steps: seq<Step>, states: seq<Sys>)
    ensures var chain := OneMint();
            && WellFormed(chain) && IsRun(chain, Unseen({"X"}), steps, states) && |states| == |steps| + 1
            && "X" in states[|steps|].watch
            && states[|steps|].watch["X"].balance == 2 * RecomputeRow(Complete(chain), "X", UNSEEN).balance > 0
  {
    OneMintIs();
    OneMintPays();
    assert |OneMint()| == 1;
    hide WellFormed, IsRun, Kept, OneMint, RecomputeRow, Complete;
    steps, states := DoubleScanDoubles(OneMint(), {"X"});
  }
}
