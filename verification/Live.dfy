/**
 What a job row shows while a worker holds it, in every state of a run whose requeues are safe: each
 leaves alone the columns that, by the row alone, may be held.
 */
module Live {
  import opened Common
  import opened Chain
  import opened Rows
  import opened Extract
  import opened Ledger
  import opened Backfill
  import opened Confluence
  import opened History
  import opened SoundTables
  import opened Watch
  import opened Jobs
  import opened Protocol
  import opened Exclusion
  import opened Runs

  /**
   By the row alone, some worker may hold it for this phase: the column is in progress, between its
   two skip marks, or a backfill that was finished under its worker by another extraction.
   */
  predicate MayBeHeld(j: Job, p: Phase) {
    match p
    case VoutPhase => j.vout in {InProgress, Skipped}
    case VinPhase => j.vin == InProgress || (j.vin == Done && (j.vout == Skipped || j.features != FNone))
    case AddrPhase => j.addr == InProgress
  }

  /** Judged by the request and the job rows only: no selected column is one that may be held. */
  predicate SafeRequest(r: Requeue, jobs: JobRows) {
    || Refused(r)
    || forall h, p | h in jobs && p in r.columns && Selects(r, p, h, jobs[h]) :: !MayBeHeld(jobs[h], p)
  }

  ghost predicate SafeStep(s: Sys, step: Step) {
    step.RequeueStep? ==> SafeRequest(step.request, s.jobs)
  }

  ghost predicate HoldShows(j: Job, x: Hold) {
    && MayBeHeld(j, x.phase)
    && (x.phase == VoutPhase ==> j.vout == if x.stage.Working? then InProgress else Skipped)
    && (x.phase != VoutPhase ==> x.stage.Working?)
  }

  ghost predicate Begun(j: Job) {
    j.vout in {Done, Skipped} || j.vin != Pending || j.addr != Pending
  }

  ghost predicate RowShape(chain: seq<Block>, h: int, j: Job) {
    && 0 <= h < |chain| && chain[h].time.Some?
    && j.vin != Skipped && j.addr != Skipped
    && (j.vout == Done ==> Kept(chain[h])) && (j.vout == Skipped ==> !Kept(chain[h]))
    && (j.features == FNone || j.features == FeaturesOf(chain[h], h))
    && (Begun(j) ==> j.features == FeaturesOf(chain[h], h))
  }

  ghost predicate HoldsShow(s: Sys) {
    forall x | x in s.held :: x.height in s.jobs && HoldShows(s.jobs[x.height], x)
  }

  ghost predicate RowsShaped(chain: seq<Block>, jobs: JobRows) {
    forall h | h in jobs :: RowShape(chain, h, jobs[h])
  }

  /** Nobody extracts a skipped block whose backfill was finished under its worker. */
  ghost predicate Settled(s: Sys) {
    forall x, y | x in s.held && y in s.held && x.phase == VinPhase && y.phase == VoutPhase && x.height == y.height ::
      x.height in s.jobs && s.jobs[x.height].vin == Done ==> s.jobs[x.height].features != FNone
  }

  ghost predicate LiveInv(chain: seq<Block>, s: Sys) {
    ExclusionInv(s) && HoldsShow(s) && Settled(s) && RowsShaped(chain, s.jobs)
  }

  lemma SkippedHasNoFeatures(chain: seq<Block>, h: int)
    requires WellFormed(chain) && 0 <= h < |chain|
    ensures chain[h].time.Some? && (Kept(chain[h]) <==> FeaturesOf(chain[h], h) != FNone)
  {
    hide WellFormed, Kept, Staged, ExtractBlock;
    EmptyIsSound(chain);
    ExtractKeepsSound(chain, EMPTY, h, true);
  }

  // ----- rows keep their shape -----

  /** One row changes, to a row in shape. */
  lemma OneRowShaped(chain: seq<Block>, jobs: JobRows, h: int, j: Job)
    requires RowsShaped(chain, jobs) && h in jobs && RowShape(chain, h, j)
    ensures RowsShaped(chain, jobs[h := j])
  {
    hide RowShape;
  }

  lemma {:induction false} RowsKeepShape(chain: seq<Block>, s: Sys, step: Step)
    requires WellFormed(chain) && DataInv(chain, s) && LiveInv(chain, s) && Enabled(chain, s, step)
    ensures RowsShaped(chain, Apply(chain, s, step).jobs)
  {
    hide Kept, WellFormed, ExtractBlock, BackfillBlock, Sound, ScanHeight, Staged, DataInv, Requeued, LowestOf,
         ToppedUp, ExclusionInv, WithStatus;
    var s' := Apply(chain, s, step);
    match step
    case TopUp(tip) =>
      DataInvContiguous(chain, s);
      TopUpShaped(chain, s.jobs, tip);
    case Claim(w, p, limit, locked, picked) =>
      PickedArePending(chain, s, step);
    case ExtractStep(w, h, p) =>
      DataInvIsSound(chain, s);
      ExtractShaped(chain, s, w, h, p);
    case FinishSkip(w, h, p) =>
      assert HoldShows(s.jobs[h], Hold(w, VoutPhase, h, SkipMarked(p)));
    case BackfillStep(w, h, p) =>
      assert HoldShows(s.jobs[h], Hold(w, VinPhase, h, Working));
    case ScanStep(w, h) =>
      assert HoldShows(s.jobs[h], Hold(w, AddrPhase, h, Working));
    case Fail(x) =>
      assert HoldShows(s.jobs[x.height], x);
    case Drop(w) =>
    case Reset(p, hs) =>
    case RequeueStep(r) =>
      RequeuedKeys(s.jobs, r);
      forall h | h in s'.jobs
        ensures RowShape(chain, h, s'.jobs[h])
      {
        RequeuedIs(s.jobs, r, h, VoutPhase);
        RequeuedIs(s.jobs, r, h, VinPhase);
        RequeuedIs(s.jobs, r, h, AddrPhase);
      }
  }

  lemma DataInvIsSound(chain: seq<Block>, s: Sys)
    requires DataInv(chain, s)
    ensures Sound(chain, s.db) && Contiguous(s.jobs)
  {
  }

  lemma TopUpShaped(chain: seq<Block>, jobs: JobRows, tip: int)
    requires WellFormed(chain) && Contiguous(jobs) && -1 <= tip < |chain| && RowsShaped(chain, jobs)
    ensures RowsShaped(chain, ToppedUp(jobs, tip))
  {
    hide WellFormed, Kept, Staged;
    TopUpKeepsRows(jobs, tip);
    forall h | h in ToppedUp(jobs, tip)
      ensures RowShape(chain, h, ToppedUp(jobs, tip)[h])
    {
      if h in jobs {
        assert RowShape(chain, h, jobs[h]);
      } else {
        assert 0 <= h < |chain|;
        WellFormedBlock(chain, h);
      }
    }
  }

  lemma ExtractShaped(chain: seq<Block>, s: Sys, w: int, h: int, p: bool)
    requires WellFormed(chain) && Sound(chain, s.db) && HoldsShow(s) && RowsShaped(chain, s.jobs)
    requires Enabled(chain, s, ExtractStep(w, h, p))
    ensures RowsShaped(chain, Apply(chain, s, ExtractStep(w, h, p)).jobs)
  {
    hide Kept, WellFormed, ExtractBlock, Sound, FeaturesOf, Enabled, Apply;
    HeldIsJob(chain, s, ExtractStep(w, h, p));
    SkippedHasNoFeatures(chain, h);
    ExtractEffect(chain, s, w, h, p);
    var j := s.jobs[h];
    assert RowShape(chain, h, j);
    OneRowShaped(chain, s.jobs, h, Apply(chain, s, ExtractStep(w, h, p)).jobs[h]);
  }

  lemma HeldIsJob(chain: seq<Block>, s: Sys, step: Step)
    requires HoldsShow(s) && Enabled(chain, s, step) && step.ExtractStep?
    ensures step.height in s.jobs && 0 <= step.height < |chain|
            && Hold(step.worker, VoutPhase, step.height, Working) in s.held
  {
  }

  // ----- holds keep showing -----

  lemma SafeIsQuiet(s: Sys, r: Requeue)
    requires HoldsShow(s) && SafeRequest(r, s.jobs)
    ensures LeavesHeldAlone(s, r)
  {
    hide Selects;
    forall x | x in s.held && x.phase in r.columns && x.height in s.jobs
      ensures Refused(r) || !Selects(r, x.phase, x.height, s.jobs[x.height])
    {
      assert HoldShows(s.jobs[x.height], x);
    }
  }

  lemma RequeueKeepsShowing(s: Sys, r: Requeue)
    requires HoldsShow(s) && SafeRequest(r, s.jobs)
    ensures HoldsShow(s.(jobs := Requeued(s.jobs, r)))
  {
    hide Selects, Requeued;
    forall x | x in s.held
      ensures x.height in Requeued(s.jobs, r) && HoldShows(Requeued(s.jobs, r)[x.height], x)
    {
      assert HoldShows(s.jobs[x.height], x);
      RequeuedIs(s.jobs, r, x.height, x.phase);
      RequeuedIs(s.jobs, r, x.height, VoutPhase);
    }
  }

  lemma {:induction false} HoldsKeepShowing(chain: seq<Block>, s: Sys, step: Step)
    requires WellFormed(chain) && DataInv(chain, s) && LiveInv(chain, s) && Enabled(chain, s, step) && SafeStep(s, step)
    ensures HoldsShow(Apply(chain, s, step))
  {
    hide Kept, WellFormed, ExtractBlock, BackfillBlock, Sound, ScanHeight, Staged, DataInv, Requeued, LowestOf,
         ToppedUp, ExclusionInv, WithStatus, RowsShaped;
    var s' := Apply(chain, s, step);
    match step
    case TopUp(tip) =>
      DataInvContiguous(chain, s);
      TopUpKeepsRows(s.jobs, tip);
    case Claim(w, p, limit, locked, picked) =>
      PickedArePending(chain, s, step);
    case ExtractStep(w, h, p) =>
      DataInvIsSound(chain, s);
      ExtractEffectOnHolds(chain, s, w, h, p);
    case FinishSkip(w, h, p) =>
      assert HoldShows(s.jobs[h], Hold(w, VoutPhase, h, SkipMarked(p)));
      OnlyHoldsOf(s, Hold(w, VoutPhase, h, SkipMarked(p)));
    case BackfillStep(w, h, p) =>
      OnlyHoldsOf(s, Hold(w, VinPhase, h, Working));
    case ScanStep(w, h) =>
      OnlyHoldsOf(s, Hold(w, AddrPhase, h, Working));
    case Fail(x) =>
      OnlyHoldsOf(s, x);
    case Drop(w) =>
    case Reset(p, hs) =>
      NoneReset(s, p, hs);
    case RequeueStep(r) => RequeueKeepsShowing(s, r);
  }

  lemma NoneReset(s: Sys, p: Phase, hs: set<int>)
    requires forall h | h in hs :: !IsHeld(s, p, h)
    ensures forall x | x in s.held && x.phase == p :: x.height !in hs
  {
    forall x | x in s.held && x.phase == p
      ensures x.height !in hs
    {
      assert IsHeld(s, p, x.height);
    }
  }

  lemma {:induction false} StepKeepsSettled(chain: seq<Block>, s: Sys, step: Step)
    requires WellFormed(chain) && DataInv(chain, s) && LiveInv(chain, s) && Enabled(chain, s, step) && SafeStep(s, step)
    ensures Settled(Apply(chain, s, step))
  {
    hide Kept, WellFormed, ExtractBlock, BackfillBlock, Sound, ScanHeight, Staged, DataInv, Requeued, LowestOf,
         ToppedUp, ExclusionInv, WithStatus, RowsShaped, SafeRequest;
    var s' := Apply(chain, s, step);
    match step
    case TopUp(tip) =>
      DataInvContiguous(chain, s);
      TopUpKeepsRows(s.jobs, tip);
    case Claim(w, p, limit, locked, picked) =>
      PickedArePending(chain, s, step);
    case ExtractStep(w, h, p) =>
      DataInvIsSound(chain, s);
      ExtractKeepsSettled(chain, s, w, h, p);
    case FinishSkip(w, h, p) =>
      OnlyHoldsOf(s, Hold(w, VoutPhase, h, SkipMarked(p)));
    case BackfillStep(w, h, p) =>
      OnlyHoldsOf(s, Hold(w, VinPhase, h, Working));
    case ScanStep(w, h) =>
    case Fail(x) =>
    case Drop(w) =>
    case Reset(p, hs) =>
    case RequeueStep(r) =>
      RequeuedKeys(s.jobs, r);
      forall h | h in s.jobs
        ensures Requeued(s.jobs, r)[h].features == s.jobs[h].features
        ensures Requeued(s.jobs, r)[h].vin == Done ==> s.jobs[h].vin == Done
      {
        RequeuedIs(s.jobs, r, h, VinPhase);
      }
  }

  lemma ExtractKeepsSettled(chain: seq<Block>, s: Sys, w: int, h: int, p: bool)
    requires WellFormed(chain) && Sound(chain, s.db) && HoldsShow(s) && Settled(s) && ExclusionInv(s)
    requires Enabled(chain, s, ExtractStep(w, h, p))
    ensures Settled(Apply(chain, s, ExtractStep(w, h, p)))
  {
    hide Kept, WellFormed, ExtractBlock, Sound, FeaturesOf, Enabled, Apply, ExclusionInv;
    HeldIsJob(chain, s, ExtractStep(w, h, p));
    SkippedHasNoFeatures(chain, h);
    ExtractEffect(chain, s, w, h, p);
    OnlyHoldsOf(s, Hold(w, VoutPhase, h, Working));
  }

  lemma OnlyHoldsOf(s: Sys, x: Hold)
    requires ExclusionInv(s) && x in s.held
    ensures forall y | y in s.held - {x} :: y.phase != x.phase || y.height != x.height
  {
  }

  lemma ExtractEffectOnHolds(chain: seq<Block>, s: Sys, w: int, h: int, p: bool)
    requires WellFormed(chain) && Sound(chain, s.db) && HoldsShow(s) && ExclusionInv(s)
    requires Enabled(chain, s, ExtractStep(w, h, p))
    ensures HoldsShow(Apply(chain, s, ExtractStep(w, h, p)))
  {
    hide Kept, WellFormed, ExtractBlock, Sound, FeaturesOf, Enabled, Apply, ExclusionInv;
    HeldIsJob(chain, s, ExtractStep(w, h, p));
    SkippedHasNoFeatures(chain, h);
    ExtractEffect(chain, s, w, h, p);
    OnlyHoldsOf(s, Hold(w, VoutPhase, h, Working));
  }

  lemma {:induction false} StepKeepsLive(chain: seq<Block>, s: Sys, step: Step)
    requires WellFormed(chain) && DataInv(chain, s) && LiveInv(chain, s) && Enabled(chain, s, step) && SafeStep(s, step)
    ensures LiveInv(chain, Apply(chain, s, step))
  {
    hide DataInv, WellFormed, Enabled, Apply, ExclusionInv, HoldsShow, Settled, RowsShaped, SafeRequest,
         LeavesHeldAlone;
    DataInvContiguous(chain, s);
    RowsKeepShape(chain, s, step);
    HoldsKeepShowing(chain, s, step);
    StepKeepsSettled(chain, s, step);
    if step.RequeueStep? {
      SafeIsQuiet(s, step.request);
    }
    StepKeepsExclusion(chain, s, step);
  }

  lemma NobodyLive(chain: seq<Block>, watch: WatchTable)
    ensures LiveInv(chain, Init(watch))
  {
  }
}
