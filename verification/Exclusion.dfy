/**
 Mutual exclusion of workers and the order of the phases, over every run; and the one window in
 which the order can be broken.
 */
module Exclusion {
  import opened Common
  import opened Chain
  import opened Rows
  import opened Extract
  import opened Ledger
  import opened Backfill
  import opened Confluence
  import opened SoundTables
  import opened Watch
  import opened Jobs
  import opened Protocol

  // ----- no height is held twice for one phase -----

  ghost predicate HoldsExclusive(held: set<Hold>) {
    forall x, y | x in held && y in held :: x.phase == y.phase && x.height == y.height ==> x == y
  }

  ghost predicate HeldNotPending(s: Sys) {
    forall x | x in s.held :: x.height in s.jobs && Get(s.jobs[x.height], x.phase) != Pending
  }

  ghost predicate ExclusionInv(s: Sys) {
    HoldsExclusive(s.held) && HeldNotPending(s)
  }

  /** The requeue selects nothing that a live worker still holds. */
  ghost predicate LeavesHeldAlone(s: Sys, r: Requeue) {
    forall x | x in s.held && x.phase in r.columns && x.height in s.jobs ::
      Refused(r) || !Selects(r, x.phase, x.height, s.jobs[x.height])
  }

  ghost predicate QuietStep(s: Sys, step: Step) {
    step.RequeueStep? ==> LeavesHeldAlone(s, step.request)
  }

  lemma ClaimKeepsExclusion(chain: seq<Block>, s: Sys, step: Step)
    requires ExclusionInv(s) && Enabled(chain, s, step) && step.Claim?
    ensures ExclusionInv(Apply(chain, s, step))
  {
    var s' := Apply(chain, s, step);
    forall x | x in s'.held
      ensures x.height in s'.jobs && Get(s'.jobs[x.height], x.phase) != Pending
    {
    }
    forall x | x in s.held && x.phase == step.phase
      ensures x.height !in step.picked
    {
      assert forall h | h in step.picked :: h in WithStatus(s.jobs, step.phase, Pending);
    }
  }

  lemma RequeueKeepsExclusionIff(s: Sys, r: Requeue)
    requires ExclusionInv(s)
    ensures ExclusionInv(s.(jobs := Requeued(s.jobs, r))) <==> LeavesHeldAlone(s, r)
  {
    var s' := s.(jobs := Requeued(s.jobs, r));
    forall x | x in s.held
      ensures x.height in s'.jobs
      ensures Get(s'.jobs[x.height], x.phase)
              == if !Refused(r) && x.phase in r.columns && Selects(r, x.phase, x.height, s.jobs[x.height]) then Pending
                 else Get(s.jobs[x.height], x.phase)
    {
      RequeuedIs(s.jobs, r, x.height, x.phase);
    }
  }

  lemma TopUpKeepsRows(jobs: JobRows, tip: int)
    requires Contiguous(jobs)
    ensures forall h | h in jobs :: h in ToppedUp(jobs, tip) && ToppedUp(jobs, tip)[h] == jobs[h]
    ensures forall h | h in ToppedUp(jobs, tip) && h !in jobs :: ToppedUp(jobs, tip)[h] == FRESH
  {
  }

  lemma StepKeepsExclusion(chain: seq<Block>, s: Sys, step: Step)
    requires ExclusionInv(s) && Contiguous(s.jobs) && Enabled(chain, s, step) && QuietStep(s, step)
    ensures ExclusionInv(Apply(chain, s, step))
  {
    hide ExtractBlock, BackfillBlock, Skips, Below, ScanHeight, Requeued, LowestOf;
    match step
    case Claim(w, p, limit, locked, picked) => ClaimKeepsExclusion(chain, s, step);
    case RequeueStep(r) => RequeueKeepsExclusionIff(s, r);
    case TopUp(tip) =>
      TopUpKeepsRows(s.jobs, tip);
    case Reset(p, hs) =>
      forall x | x in s.held
        ensures x.phase == p ==> x.height !in hs
      {
        assert x.phase == p ==> IsHeld(s, p, x.height);
      }
    case ExtractStep(w, h, p) =>
    case FinishSkip(w, h, p) =>
    case BackfillStep(w, h, p) =>
    case ScanStep(w, h) =>
    case Fail(hold) =>
    case Drop(w) =>
  }

  ghost predicate QuietRun(steps: seq<Step>, states: seq<Sys>) {
    |states| == |steps| + 1 && forall n | 0 <= n < |steps| :: QuietStep(states[n], steps[n])
  }

  /**
   However many workers run, no height is ever held twice for one phase, as long as requeues leave
   alone what is still held.
   */
  lemma {:induction false} NeverHeldTwice(chain: seq<Block>, watch: WatchTable, steps: seq<Step>, states: seq<Sys>,
                                          n: nat)
    requires WellFormed(chain) && IsRun(chain, watch, steps, states) && QuietRun(steps, states) && n <= |steps|
    ensures ExclusionInv(states[n])
  {
    hide WellFormed, Apply, Enabled, DataInv, ExclusionInv, QuietStep;
    if n == 0 {
      assert ExclusionInv(Init(watch)) by {
        NobodyHolds(watch);
      }
    } else {
      NeverHeldTwice(chain, watch, steps, states, n - 1);
      StatusNeverAheadOfData(chain, watch, steps, states, n - 1);
      DataInvContiguous(chain, states[n - 1]);
      StepKeepsExclusion(chain, states[n - 1], steps[n - 1]);
    }
  }

  lemma NobodyHolds(watch: WatchTable)
    ensures ExclusionInv(Init(watch))
  {
  }

  lemma DataInvContiguous(chain: seq<Block>, s: Sys)
    requires DataInv(chain, s)
    ensures Contiguous(s.jobs)
  {
  }

  // ----- a later phase starts only after the earlier ones -----

  /** Address work on a height has started only if both earlier columns are finished. */
  ghost predicate PhaseOrder(jobs: JobRows) {
    forall h | h in jobs && jobs[h].addr in {InProgress, Done} :: jobs[h].vout in {Done, Skipped} && jobs[h].vin == Done
  }

  ghost predicate HoldMatches(jobs: JobRows, x: Hold) {
    && x.height in jobs
    && (x.stage.Working? ==> Get(jobs[x.height], x.phase) == InProgress)
    && (x.stage.SkipMarked? ==> x.phase == VoutPhase && jobs[x.height].vout == Skipped && jobs[x.height].vin == Pending)
  }

  ghost predicate Sequenced(j: Job) {
    && (j.vout in {Pending, InProgress, Failed} ==> j.vin == Pending)
    && (j.vin != Done ==> j.addr == Pending)
  }

  ghost predicate OrderInv(s: Sys) {
    && HoldsExclusive(s.held)
    && (forall x | x in s.held :: HoldMatches(s.jobs, x))
    && (forall h | h in s.jobs :: Sequenced(s.jobs[h]))
  }

  ghost predicate MidSkip(s: Sys, h: int) {
    exists x | x in s.held :: x.height == h && x.stage.SkipMarked?
  }

  /** No requeue, and no backfill claim on a height that is still between its two skip marks. */
  ghost predicate OrderlyStep(s: Sys, step: Step) {
    && !step.RequeueStep?
    && (step.Claim? && step.phase == VinPhase ==> forall h | h in step.picked :: !MidSkip(s, h))
  }

  lemma OrderGivesPhaseOrder(s: Sys)
    requires OrderInv(s)
    ensures PhaseOrder(s.jobs)
  {
    forall h | h in s.jobs && s.jobs[h].addr in {InProgress, Done}
      ensures s.jobs[h].vout in {Done, Skipped} && s.jobs[h].vin == Done
    {
      assert Sequenced(s.jobs[h]) && s.jobs[h].vin == Done;
      match s.jobs[h].vout
      case Pending =>
      case InProgress =>
      case Done =>
      case Skipped =>
      case Failed =>
    }
  }

  /** In good order a height is held at most once over all phases. */
  lemma {:induction false} OneHoldPerHeight(s: Sys, x: Hold, y: Hold)
    requires OrderInv(s) && x in s.held && y in s.held && x.height == y.height
    ensures x == y
  {
    assert HoldMatches(s.jobs, x) && HoldMatches(s.jobs, y) && Sequenced(s.jobs[x.height]);
  }

  /** A step on one height: the other rows and holds stay. */
  lemma OneHeightKeepsOrder(s: Sys, s': Sys, h: int, gone: Hold)
    requires OrderInv(s) && gone in s.held && gone.height == h
    requires s'.jobs.Keys == s.jobs.Keys && forall k | k in s.jobs && k != h :: s'.jobs[k] == s.jobs[k]
    requires Sequenced(s'.jobs[h])
    requires forall x | x in s'.held ::
               x in s.held - {gone} || (x.phase == gone.phase && x.height == h && HoldMatches(s'.jobs, x))
    requires forall x, y | x in s'.held && y in s'.held && x !in s.held - {gone} && y !in s.held - {gone} :: x == y
    requires forall x | x in s.held - {gone} :: x.height != h
    ensures OrderInv(s')
  {
    hide Sequenced;
    forall x | x in s'.held
      ensures HoldMatches(s'.jobs, x)
    {
      if x in s.held - {gone} {
        assert HoldMatches(s.jobs, x);
      }
    }
  }

  lemma ClaimKeepsOrder(chain: seq<Block>, s: Sys, step: Step)
    requires OrderInv(s) && Enabled(chain, s, step) && step.Claim? && OrderlyStep(s, step)
    ensures OrderInv(Apply(chain, s, step))
  {
    hide LowestOf;
    var s' := Apply(chain, s, step);
    PickedArePending(chain, s, step);
    forall x | x in s'.held
      ensures HoldMatches(s'.jobs, x)
    {
      if x in s.held {
        assert HoldMatches(s.jobs, x);
        assert x.stage.SkipMarked? ==> MidSkip(s, x.height);
      }
    }
    forall h | h in s'.jobs
      ensures Sequenced(s'.jobs[h])
    {
      assert Sequenced(s.jobs[h]);
    }
    forall x, y | x in s'.held && y in s'.held && x.phase == y.phase && x.height == y.height
      ensures x == y
    {
      if x in s.held {
        assert HoldMatches(s.jobs, x);
      }
      if y in s.held {
        assert HoldMatches(s.jobs, y);
      }
    }
  }

  lemma PickedArePending(chain: seq<Block>, s: Sys, step: Step)
    requires Enabled(chain, s, step) && step.Claim?
    ensures forall h | h in step.picked ::
              h in s.jobs && Ready(s.jobs[h], step.phase) && Get(s.jobs[h], step.phase) == Pending
  {
  }

  lemma FinishKeepsOrder(chain: seq<Block>, s: Sys, step: Step)
    requires OrderInv(s) && Enabled(chain, s, step)
    requires step.ExtractStep? || step.FinishSkip? || step.BackfillStep? || step.ScanStep? || step.Fail?
    ensures OrderInv(Apply(chain, s, step))
  {
    hide ExtractBlock, BackfillBlock, Skips, ScanHeight, Staged;
    var s' := Apply(chain, s, step);
    var gone := match step
      case ExtractStep(w, h, p) => Hold(w, VoutPhase, h, Working)
      case FinishSkip(w, h, p) => Hold(w, VoutPhase, h, SkipMarked(p))
      case BackfillStep(w, h, p) => Hold(w, VinPhase, h, Working)
      case ScanStep(w, h) => Hold(w, AddrPhase, h, Working)
      case Fail(hold) => hold;
    var h := gone.height;
    assert HoldMatches(s.jobs, gone) && Sequenced(s.jobs[h]);
    forall x | x in s.held
      ensures x.height == h ==> x == gone
    {
      if x.height == h {
        OneHoldPerHeight(s, x, gone);
      }
    }
    OneHeightKeepsOrder(s, s', h, gone);
  }

  lemma StepKeepsOrder(chain: seq<Block>, s: Sys, step: Step)
    requires OrderInv(s) && Contiguous(s.jobs) && Enabled(chain, s, step) && OrderlyStep(s, step)
    ensures OrderInv(Apply(chain, s, step))
  {
    hide ExtractBlock, BackfillBlock, Skips, ScanHeight, Below;
    var s' := Apply(chain, s, step);
    match step
    case TopUp(tip) =>
      TopUpKeepsRows(s.jobs, tip);
      forall x | x in s'.held ensures HoldMatches(s'.jobs, x) {
        assert HoldMatches(s.jobs, x);
      }
    case Claim(w, p, limit, locked, picked) => ClaimKeepsOrder(chain, s, step);
    case Reset(p, hs) =>
      forall x | x in s'.held ensures HoldMatches(s'.jobs, x) {
        assert HoldMatches(s.jobs, x) && IsHeld(s, x.phase, x.height);
      }
      forall h | h in s'.jobs ensures Sequenced(s'.jobs[h]) {
        assert Sequenced(s.jobs[h]);
      }
    case Drop(w) =>
      forall x | x in s'.held ensures HoldMatches(s'.jobs, x) {
        assert HoldMatches(s.jobs, x);
      }
    case ExtractStep(w, h, p) => FinishKeepsOrder(chain, s, step);
    case FinishSkip(w, h, p) => FinishKeepsOrder(chain, s, step);
    case BackfillStep(w, h, p) => FinishKeepsOrder(chain, s, step);
    case ScanStep(w, h) => FinishKeepsOrder(chain, s, step);
    case Fail(hold) => FinishKeepsOrder(chain, s, step);
  }

  ghost predicate OrderlyRun(steps: seq<Step>, states: seq<Sys>) {
    |states| == |steps| + 1 && forall n | 0 <= n < |steps| :: OrderlyStep(states[n], steps[n])
  }

  /** Without requeues, and with no backfill claim in the middle of a skip, the phases keep their order. */
  lemma {:induction false} PhasesInOrder(chain: seq<Block>, watch: WatchTable, steps: seq<Step>, states: seq<Sys>,
                                         n: nat)
    requires WellFormed(chain) && IsRun(chain, watch, steps, states) && OrderlyRun(steps, states) && n <= |steps|
    ensures OrderInv(states[n]) && PhaseOrder(states[n].jobs)
  {
    hide WellFormed, Apply, Enabled, DataInv, OrderInv, OrderlyStep, PhaseOrder;
    if n == 0 {
      assert OrderInv(Init(watch)) by {
        NothingStarted(watch);
      }
    } else {
      PhasesInOrder(chain, watch, steps, states, n - 1);
      StatusNeverAheadOfData(chain, watch, steps, states, n - 1);
      DataInvContiguous(chain, states[n - 1]);
      StepKeepsOrder(chain, states[n - 1], steps[n - 1]);
    }
    OrderGivesPhaseOrder(states[n]);
  }

  lemma NothingStarted(watch: WatchTable)
    ensures OrderInv(Init(watch))
  {
  }

  // ----- the window -----

  /** A claim of one height while all other pending rows are locked by other claims. */
  ghost function ClaimOnly(s: Sys, w: int, p: Phase, h: int): Step {
    Claim(w, p, 1, WithStatus(s.jobs, p, Pending) - {h}, {h})
  }

  lemma ClaimOnlyEnabled(chain: seq<Block>, s: Sys, w: int, p: Phase, h: int)
    requires h in s.jobs && Ready(s.jobs[h], p) && Get(s.jobs[h], p) == Pending
    ensures Enabled(chain, s, ClaimOnly(s, w, p, h))
  {
    var from := WithStatus(s.jobs, p, Pending);
    assert from - (from - {h}) == {h};
  }

  /**
   The guard on backfill claims is needed: from any good state in which a height is between its two
   skip marks, a backfill claim on it, its commit, an address claim and then an error in the skip's
   second transaction leave address work running on a height whose extraction failed.
   */
  lemma SkipRaceBreaksOrder(chain: seq<Block>, s: Sys, x: Hold, w: int, w': int)
    returns (steps: seq<Step>, states: seq<Sys>)
    requires WellFormed(chain) && DataInv(chain, s) && OrderInv(s) && x in s.held && x.stage.SkipMarked?
    ensures |steps| == 4 && |states| == 5 && states[0] == s
    ensures forall n | 0 <= n < 4 ::
              Enabled(chain, states[n], steps[n]) && states[n + 1] == Apply(chain, states[n], steps[n])
    ensures forall n | 0 <= n < 4 :: !steps[n].RequeueStep? && (OrderlyStep(states[n], steps[n]) <==> n != 0)
    ensures !PhaseOrder(states[4].jobs)
  {
    hide Sound, BackfillBlock, WellFormed, WithStatus, Below, Kept, LowestOf, OutsStored, SpendsStored, Contiguous,
         ExtractBlock, Skips, Staged, ScanHeight, Requeued, ToppedUp, HoldsExclusive;
    var h := x.height;
    assert HoldMatches(s.jobs, x) && Sequenced(s.jobs[h]);
    var a := ClaimOnly(s, w, VinPhase, h);
    ClaimOnlyEnabled(chain, s, w, VinPhase, h);
    var s1 := Apply(chain, s, a);
    var b := BackfillStep(w, h, true);
    assert Hold(w, VinPhase, h, Working) in s1.held;
    BackfillKeepsSound(chain, s1.db, h, true);
    var s2 := Apply(chain, s1, b);
    var c := ClaimOnly(s2, w', AddrPhase, h);
    ClaimOnlyEnabled(chain, s2, w', AddrPhase, h);
    var s3 := Apply(chain, s2, c);
    var d := Fail(x);
    var s4 := Apply(chain, s3, d);
    assert MidSkip(s, h);
    assert s4.jobs[h].vout == Failed && s4.jobs[h].addr == InProgress;
    steps, states := [a, b, c, d], [s, s1, s2, s3, s4];
  }
}
