/** Building runs step by step: a claim of one height, its commit, and what they leave behind. */
module Runs {
  import opened Common
  import opened Chain
  import opened Rows
  import opened Extract
  import opened Ledger
  import opened Confluence
  import opened SoundTables
  import opened Watch
  import opened Jobs
  import opened Protocol
  import opened Exclusion
  import opened ExactlyOnce

  ghost predicate NoRequeues(steps: seq<Step>) {
    forall n | 0 <= n < |steps| :: !steps[n].RequeueStep?
  }

  /** A run without requeues is quiet and applies every delta once. */
  lemma PlainRuns(steps: seq<Step>, states: seq<Sys>)
    requires NoRequeues(steps) && |states| == |steps| + 1
    ensures QuietRun(steps, states) && OnceRun(steps, states)
  {
  }

  lemma ExtendRun(chain: seq<Block>, watch: WatchTable, steps: seq<Step>, states: seq<Sys>, step: Step)
    returns (steps': seq<Step>, states': seq<Sys>)
    requires IsRun(chain, watch, steps, states) && Enabled(chain, states[|steps|], step)
    ensures IsRun(chain, watch, steps', states') && |states'| == |steps'| + 1
    ensures steps' == steps + [step] && states'[|steps'|] == Apply(chain, states[|steps|], step)
  {
    hide Apply, Enabled;
    var s := states[|steps|];
    steps', states' := steps + [step], states + [Apply(chain, s, step)];
    forall n | 0 <= n < |steps'|
      ensures Enabled(chain, states'[n], steps'[n]) && states'[n + 1] == Apply(chain, states'[n], steps'[n])
    {
      if n < |steps| {
        assert states'[n] == states[n] && steps'[n] == steps[n] && states'[n + 1] == states[n + 1];
      } else {
        assert states'[n] == s;
      }
    }
  }

  lemma Extend(chain: seq<Block>, watch: WatchTable, steps: seq<Step>, states: seq<Sys>, step: Step)
    returns (steps': seq<Step>, states': seq<Sys>)
    requires IsRun(chain, watch, steps, states) && NoRequeues(steps)
    requires Enabled(chain, states[|steps|], step) && !step.RequeueStep?
    ensures IsRun(chain, watch, steps', states') && NoRequeues(steps') && |states'| == |steps'| + 1
    ensures steps' == steps + [step] && states'[|steps'|] == Apply(chain, states[|steps|], step)
  {
    hide IsRun, Apply, Enabled;
    steps', states' := ExtendRun(chain, watch, steps, states, step);
  }

  /** Claiming one height changes one column of one row and adds one hold. */
  lemma ClaimEffect(chain: seq<Block>, s: Sys, w: int, p: Phase, h: int)
    requires h in s.jobs && Ready(s.jobs[h], p) && Get(s.jobs[h], p) == Pending
    ensures Enabled(chain, s, ClaimOnly(s, w, p, h)) && ClaimOnly(s, w, p, h).Claim? && ClaimOnly(s, w, p, h).phase == p
    ensures Apply(chain, s, ClaimOnly(s, w, p, h))
            == s.(jobs := s.jobs[h := Set(s.jobs[h], p, InProgress)], held := s.held + {Hold(w, p, h, Working)})
  {
    hide WithStatus;
    ClaimOnlyEnabled(chain, s, w, p, h);
    MarkOne(s.jobs, p, h, InProgress);
    assert NewHolds(w, p, {h}) == {Hold(w, p, h, Working)};
  }

  lemma MarkOne(jobs: JobRows, p: Phase, h: int, st: Status)
    requires h in jobs
    ensures Mark(jobs, p, {h}, st) == jobs[h := Set(jobs[h], p, st)]
  {
  }

  ghost function FeaturesOf(b: Block, h: int): Features
    requires b.time.Some?
  {
    Staged(b, h, true).value.features
  }

  lemma ExtractEffect(chain: seq<Block>, s: Sys, w: int, h: int, p: bool)
    requires WellFormed(chain) && 0 <= h < |chain| && Sound(chain, s.db)
    requires h in s.jobs && Hold(w, VoutPhase, h, Working) in s.held
    ensures chain[h].time.Some? && Enabled(chain, s, ExtractStep(w, h, p))
    ensures var s', rest, j :=
              Apply(chain, s, ExtractStep(w, h, p)), s.held - {Hold(w, VoutPhase, h, Working)}, s.jobs[h];
            && ExtractBlock(s.db, chain[h], h, p).Some?
            && if Kept(chain[h]) then
                 s' == s.(db := ExtractBlock(s.db, chain[h], h, p).value, held := rest,
                          jobs := s.jobs[h := j.(vout := Done, vin := if p then Done else j.vin,
                                                 features := FeaturesOf(chain[h], h))])
               else
                 s' == s.(held := if p then rest + {Hold(w, VoutPhase, h, SkipMarked(p))} else rest,
                          jobs := s.jobs[h := j.(vout := Skipped)])
  {
    hide Sound, WellFormed, Kept, ExtractBlock, Staged;
    ExtractKeepsSound(chain, s.db, h, p);
    FeaturesIgnorePrevouts(chain[h], h);
    var marked := Mark(s.jobs, VoutPhase, {h}, Done);
    MarkOne(s.jobs, VoutPhase, h, Skipped);
    MarkOne(s.jobs, VoutPhase, h, Done);
    MarkOne(marked, VinPhase, h, Done);
  }

  lemma ScanEffect(chain: seq<Block>, s: Sys, w: int, h: int)
    requires 0 <= h < |chain| && chain[h].time.Some? && h in s.jobs && Hold(w, AddrPhase, h, Working) in s.held
    ensures Enabled(chain, s, ScanStep(w, h))
    ensures Apply(chain, s, ScanStep(w, h))
            == s.(watch := ScanHeight(s.db, chain[h].hash, h, chain[h].time.value, s.watch),
                  jobs := s.jobs[h := s.jobs[h].(addr := Done)], held := s.held - {Hold(w, AddrPhase, h, Working)},
                  log := s.log + [Commit(h, s.db)])
  {
    hide ScanHeight;
    MarkOne(s.jobs, AddrPhase, h, Done);
  }
}
