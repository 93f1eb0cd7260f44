/** Without requeues, resets and new blocks the queue of every phase runs dry. */
module Drain {
  import opened Common
  import opened Sums
  import opened Chain
  import opened Ledger
  import opened Backfill
  import opened SoundTables
  import opened Watch
  import opened Jobs
  import opened Protocol
  import opened Exclusion

  function Weight(s: Status): int {
    if s == Pending then 2 else if s == InProgress then 1 else 0
  }

  ghost function Weights(jobs: JobRows, p: Phase): map<int, int> {
    map h | h in jobs :: Weight(Get(jobs[h], p))
  }

  /** 2 * pending + in_progress, over all rows of the column. */
  ghost function Workload(jobs: JobRows, p: Phase): int {
    Total(Weights(jobs, p))
  }

  lemma {:induction false} TotalLeq(m: map<int, int>, n: map<int, int>)
    requires m.Keys == n.Keys && forall k | k in m :: m[k] <= n[k]
    ensures Total(m) <= Total(n)
    ensures (exists k | k in m :: m[k] < n[k]) ==> Total(m) < Total(n)
    decreases |m|
  {
    if m.Keys != {} {
      var k := if exists k | k in m :: m[k] < n[k] then Pick(set k | k in m && m[k] < n[k]) else Pick(m.Keys);
      TotalRemove(m, k);
      TotalRemove(n, k);
      assert (m - {k}).Keys == m.Keys - {k};
      TotalLeq(m - {k}, n - {k});
    } else {
      assert m == map[] && n == map[];
    }
  }

  /** Steps of a queue left to itself: no requeue, no reset, no new block. */
  ghost predicate Draining(s: Sys, step: Step) {
    && !step.RequeueStep? && !step.Reset?
    && (step.TopUp? ==> step.tip < |s.jobs|)
  }

  /** The step claims a height for the phase, or ends one that is in progress. */
  ghost predicate Advances(s: Sys, step: Step, p: Phase) {
    match step
    case Claim(w, q, limit, locked, picked) => q == p && picked != {}
    case ExtractStep(w, h, _) => p == VoutPhase && h in s.jobs && s.jobs[h].vout == InProgress
    case BackfillStep(w, h, _) => p == VinPhase && h in s.jobs && s.jobs[h].vin == InProgress
    case ScanStep(w, h) => p == AddrPhase && h in s.jobs && s.jobs[h].addr == InProgress
    case Fail(x) => p == x.phase && x.height in s.jobs && Get(s.jobs[x.height], p) == InProgress
    case _ => false
  }

  lemma ColumnsOnlyFall(chain: seq<Block>, s: Sys, step: Step, p: Phase, h: int)
    requires Contiguous(s.jobs) && Enabled(chain, s, step) && Draining(s, step) && h in s.jobs
    ensures var s' := Apply(chain, s, step);
            h in s'.jobs && Weight(Get(s'.jobs[h], p)) <= Weight(Get(s.jobs[h], p))
  {
    hide ExtractBlock, BackfillBlock, Skips, ScanHeight, Below, LowestOf;
    if step.Claim? {
      PickedArePending(chain, s, step);
    } else if step.TopUp? {
      TopUpKeepsRows(s.jobs, step.tip);
    }
  }

  lemma KeysStay(chain: seq<Block>, s: Sys, step: Step)
    requires Contiguous(s.jobs) && Enabled(chain, s, step) && Draining(s, step)
    ensures Apply(chain, s, step).jobs.Keys == s.jobs.Keys
  {
    hide ExtractBlock, BackfillBlock, Skips, ScanHeight, LowestOf;
  }

  lemma AdvanceDrops(chain: seq<Block>, s: Sys, step: Step, p: Phase) returns (h: int)
    requires Enabled(chain, s, step) && Draining(s, step) && Advances(s, step, p)
    ensures h in s.jobs && h in Apply(chain, s, step).jobs
    ensures Weight(Get(Apply(chain, s, step).jobs[h], p)) < Weight(Get(s.jobs[h], p))
  {
    hide ExtractBlock, BackfillBlock, Skips, ScanHeight, Below, LowestOf;
    match step
    case Claim(w, q, limit, locked, picked) =>
      PickedArePending(chain, s, step);
      h := Pick(picked);
    case ExtractStep(w, k, _) => h := k;
    case BackfillStep(w, k, _) => h := k;
    case ScanStep(w, k) => h := k;
    case Fail(x) => h := x.height;
  }

  /** No step adds work, and every claim and every finish of a phase takes some away. */
  lemma {:induction false} WorkloadFalls(chain: seq<Block>, s: Sys, step: Step, p: Phase)
    requires Contiguous(s.jobs) && Enabled(chain, s, step) && Draining(s, step)
    ensures Workload(Apply(chain, s, step).jobs, p) <= Workload(s.jobs, p)
    ensures Advances(s, step, p) ==> Workload(Apply(chain, s, step).jobs, p) < Workload(s.jobs, p)
  {
    hide Enabled, Apply, Weight, Get, Advances, Draining;
    var s' := Apply(chain, s, step);
    var m, n := Weights(s'.jobs, p), Weights(s.jobs, p);
    KeysStay(chain, s, step);
    forall h | h in m
      ensures m[h] <= n[h]
    {
      ColumnsOnlyFall(chain, s, step, p, h);
    }
    if Advances(s, step, p) {
      var h := AdvanceDrops(chain, s, step, p);
      assert m[h] < n[h];
    }
    TotalLeq(m, n);
  }

  ghost function Advanced(steps: seq<Step>, states: seq<Sys>, p: Phase, n: nat): nat
    requires n <= |steps| < |states|
  {
    if n == 0 then 0
    else Advanced(steps, states, p, n - 1) + if Advances(states[n - 1], steps[n - 1], p) then 1 else 0
  }

  /** A stretch of a run, from any state on. */
  ghost predicate Stretch(chain: seq<Block>, steps: seq<Step>, states: seq<Sys>) {
    && |states| == |steps| + 1 && Contiguous(states[0].jobs)
    && forall n | 0 <= n < |steps| ::
         && Enabled(chain, states[n], steps[n]) && states[n + 1] == Apply(chain, states[n], steps[n])
         && Draining(states[n], steps[n])
  }

  lemma WorkloadNatural(jobs: JobRows, p: Phase)
    ensures Workload(jobs, p) >= 0
  {
    var m := Weights(jobs, p);
    forall h | h in m
      ensures m[h] >= 0
    {
      assert m[h] == Weight(Get(jobs[h], p));
    }
    TotalNonNegative(m);
  }

  /**
   From any state, workers can claim and finish at most 2 * pending + in_progress times, whatever
   the schedule; what is left is the workload at the end.
   */
  lemma {:induction false} QueueDrains(chain: seq<Block>, steps: seq<Step>, states: seq<Sys>, p: Phase, n: nat)
    requires Stretch(chain, steps, states) && n <= |steps|
    ensures Contiguous(states[n].jobs)
    ensures Advanced(steps, states, p, n) + Workload(states[n].jobs, p) <= Workload(states[0].jobs, p)
    ensures Advanced(steps, states, p, n) <= Workload(states[0].jobs, p)
  {
    hide Enabled, Apply, Draining, Workload, Contiguous, Advances;
    if n > 0 {
      QueueDrains(chain, steps, states, p, n - 1);
      WorkloadFalls(chain, states[n - 1], steps[n - 1], p);
      KeysStay(chain, states[n - 1], steps[n - 1]);
      SameSize(states[n - 1].jobs, states[n].jobs);
    }
    WorkloadNatural(states[n].jobs, p);
  }

  // ----- what is left when nothing can happen any more -----

  /** A claim finds no height for the phase, although nothing is locked. */
  ghost predicate NothingToClaim(chain: seq<Block>, s: Sys, p: Phase) {
    forall step: Step | step.Claim? && step.phase == p && step.locked == {} && Enabled(chain, s, step) ::
      step.picked == {}
  }

  /** In progress, with no live worker behind it: only a reset of abandoned rows brings it back. */
  ghost predicate Orphaned(s: Sys, p: Phase, h: int) {
    h in s.jobs && Get(s.jobs[h], p) == InProgress && !IsHeld(s, p, h)
  }

  /**
   When nobody works on a phase, nothing is left to claim if and only if every row in its scope is
   finished or orphaned; the monitor stops the process just when there are rows and none is orphaned.
   */
  lemma {:induction false} DryIff(chain: seq<Block>, s: Sys, p: Phase)
    requires forall x | x in s.held :: x.phase != p
    ensures NothingToClaim(chain, s, p) <==>
            forall h | h in Scope(s.jobs, p) :: Terminal(Get(s.jobs[h], p)) || Orphaned(s, p, h)
    ensures NothingToClaim(chain, s, p) ==>
              (StopTest(ProgressOf(s.jobs, p)) <==>
               Scope(s.jobs, p) != {} && forall h | h in Scope(s.jobs, p) :: !Orphaned(s, p, h))
  {
    hide StopTest, ProgressOf;
    var all := WithStatus(s.jobs, p, Pending);
    var claim := Claim(0, p, |all|, {}, all);
    assert LowestOf(all, all - {}, |all|);
    assert claim.Claim? && Enabled(chain, s, claim);
    forall h | h in Scope(s.jobs, p)
      ensures Terminal(Get(s.jobs[h], p)) || Orphaned(s, p, h) || h in all
      ensures Terminal(Get(s.jobs[h], p)) ==> !Orphaned(s, p, h)
    {
      match Get(s.jobs[h], p)
      case Pending =>
      case InProgress =>
      case Done =>
      case Skipped =>
      case Failed =>
    }
    if all == {} {
      forall step: Step | step.Claim? && step.phase == p && step.locked == {} && Enabled(chain, s, step)
        ensures step.picked == {}
      {
        PickedArePending(chain, s, step);
      }
    } else {
      var h := Pick(all);
      assert h in Scope(s.jobs, p) && !Terminal(Get(s.jobs[h], p)) && !Orphaned(s, p, h);
    }
    StopsIffAllTerminal(s.jobs, p);
  }
}
