/**
 Every height's delta reaches the watch list exactly once, however workers interleave, fail, crash
 and are reset; and where a complete run of all phases leaves every watched address.
 */
module ExactlyOnce {
  import opened Common
  import opened Sums
  import opened Chain
  import opened Rows
  import opened Extract
  import opened Ledger
  import opened Backfill
  import opened SoundTables
  import opened Watch
  import opened Clamp
  import opened Jobs
  import opened Protocol
  import opened Exclusion
  import V = ViewAgreement

  /** The watch list after the first n commits of the log, each read against its own tables. */
  ghost function Folded(chain: seq<Block>, watch: WatchTable, log: seq<Commit>, n: nat): WatchTable
    requires n <= |log| && forall i | 0 <= i < |log| :: 0 <= log[i].height < |chain| && chain[log[i].height].time.Some?
  {
    if n == 0 then watch
    else
      var c := log[n - 1];
      ScanHeight(c.db, chain[c.height].hash, c.height, chain[c.height].time.value, Folded(chain, watch, log, n - 1))
  }

  ghost predicate LogOnChain(chain: seq<Block>, log: seq<Commit>) {
    forall i | 0 <= i < |log| :: 0 <= log[i].height < |chain| && chain[log[i].height].time.Some?
  }

  ghost predicate LoggedOnce(log: seq<Commit>) {
    forall i, j | 0 <= i < j < |log| :: log[i].height != log[j].height
  }

  ghost predicate Logged(log: seq<Commit>, h: int) {
    exists i :: 0 <= i < |log| && log[i].height == h
  }

  ghost predicate OnceInv(chain: seq<Block>, watch: WatchTable, s: Sys) {
    && LogOnChain(chain, s.log) && LoggedOnce(s.log)
    && (forall h | h in s.jobs :: s.jobs[h].addr == Done <==> Logged(s.log, h))
    && (forall i | 0 <= i < |s.log| :: s.log[i].height in s.jobs)
    && s.watch == Folded(chain, watch, s.log, |s.log|)
    && HoldsExclusive(s.held)
    && (forall x | x in s.held && x.phase == AddrPhase :: x.height in s.jobs && s.jobs[x.height].addr == InProgress)
    && (forall x | x in s.held && x.stage.SkipMarked? :: x.phase == VoutPhase)
  }

  /** Requeues leave held heights alone, and those of the address phase select no done height. */
  ghost predicate OnceStep(s: Sys, step: Step) {
    step.RequeueStep? ==>
      && LeavesHeldAlone(s, step.request)
      && (!Refused(step.request) && AddrPhase in step.request.columns ==>
            forall h | h in s.jobs && Selects(step.request, AddrPhase, h, s.jobs[h]) :: s.jobs[h].addr != Done)
  }

  lemma {:induction false} FoldedPrefix(chain: seq<Block>, watch: WatchTable, log: seq<Commit>, c: Commit, n: nat)
    requires n <= |log| && LogOnChain(chain, log) && LogOnChain(chain, log + [c])
    ensures Folded(chain, watch, log + [c], n) == Folded(chain, watch, log, n)
  {
    hide ScanHeight;
    if n > 0 {
      FoldedPrefix(chain, watch, log, c, n - 1);
    }
  }

  lemma ScanKeepsOnce(chain: seq<Block>, watch: WatchTable, s: Sys, w: int, h: int)
    requires OnceInv(chain, watch, s) && Enabled(chain, s, ScanStep(w, h))
    ensures OnceInv(chain, watch, Apply(chain, s, ScanStep(w, h)))
  {
    hide ScanHeight, Folded;
    var s', c := Apply(chain, s, ScanStep(w, h)), Commit(h, s.db);
    assert s'.log == s.log + [c];
    assert s.jobs[h].addr == InProgress && !Logged(s.log, h);
    FoldedPrefix(chain, watch, s.log, c, |s.log|);
    FoldedLast(chain, watch, s.log, c);
    forall k | k in s'.jobs
      ensures s'.jobs[k].addr == Done <==> Logged(s'.log, k)
    {
      assert s'.log[|s.log|] == c;
      if Logged(s.log, k) {
        var i :| 0 <= i < |s.log| && s.log[i].height == k;
        assert s'.log[i].height == k;
      }
      if Logged(s'.log, k) && k != h {
        var i :| 0 <= i < |s'.log| && s'.log[i].height == k;
        assert s.log[i].height == k;
      }
    }
  }

  lemma FoldedLast(chain: seq<Block>, watch: WatchTable, log: seq<Commit>, c: Commit)
    requires 0 <= c.height < |chain| && chain[c.height].time.Some?
    requires LogOnChain(chain, log) && LogOnChain(chain, log + [c])
    ensures Folded(chain, watch, log + [c], |log| + 1)
            == ScanHeight(c.db, chain[c.height].hash, c.height, chain[c.height].time.value,
                          Folded(chain, watch, log + [c], |log|))
  {
    hide ScanHeight;
  }

  /** Steps that neither log nor touch a done address column. */
  lemma OtherStepKeepsOnce(chain: seq<Block>, watch: WatchTable, s: Sys, s': Sys)
    requires OnceInv(chain, watch, s) && s'.log == s.log && s'.watch == s.watch
    requires HoldsExclusive(s'.held)
    requires forall h | h in s.jobs :: h in s'.jobs && (s.jobs[h].addr == Done <==> s'.jobs[h].addr == Done)
    requires forall h | h in s'.jobs && h !in s.jobs :: s'.jobs[h].addr != Done
    requires forall x | x in s'.held && x.phase == AddrPhase ::
               x.height in s'.jobs && s'.jobs[x.height].addr == InProgress
    requires forall x | x in s'.held && x.stage.SkipMarked? :: x.phase == VoutPhase
    ensures OnceInv(chain, watch, s')
  {
    hide Folded;
    forall h | h in s'.jobs && h !in s.jobs
      ensures !Logged(s'.log, h)
    {
      assert forall i | 0 <= i < |s.log| :: s.log[i].height != h;
    }
  }

  lemma ClaimKeepsOnce(chain: seq<Block>, watch: WatchTable, s: Sys, step: Step)
    requires OnceInv(chain, watch, s) && Enabled(chain, s, step) && step.Claim?
    requires HoldsExclusive(Apply(chain, s, step).held)
    ensures OnceInv(chain, watch, Apply(chain, s, step))
  {
    hide Folded;
    PickedArePending(chain, s, step);
    OtherStepKeepsOnce(chain, watch, s, Apply(chain, s, step));
  }

  lemma FinishKeepsOnce(chain: seq<Block>, watch: WatchTable, s: Sys, step: Step)
    requires OnceInv(chain, watch, s) && Enabled(chain, s, step)
    requires step.ExtractStep? || step.FinishSkip? || step.BackfillStep? || step.Fail?
    requires HoldsExclusive(Apply(chain, s, step).held)
    ensures OnceInv(chain, watch, Apply(chain, s, step))
  {
    hide ExtractBlock, BackfillBlock, Skips, Folded, Staged, LoggedOnce, LogOnChain, Logged;
    OtherStepKeepsOnce(chain, watch, s, Apply(chain, s, step));
  }

  lemma ResetKeepsOnce(chain: seq<Block>, watch: WatchTable, s: Sys, p: Phase, hs: set<int>)
    requires OnceInv(chain, watch, s) && Enabled(chain, s, Reset(p, hs))
    ensures OnceInv(chain, watch, Apply(chain, s, Reset(p, hs)))
  {
    hide Folded;
    var s' := Apply(chain, s, Reset(p, hs));
    forall x | x in s'.held && x.phase == AddrPhase
      ensures x.height in s'.jobs && s'.jobs[x.height].addr == InProgress
    {
      assert IsHeld(s, AddrPhase, x.height);
    }
    OtherStepKeepsOnce(chain, watch, s, s');
  }

  lemma StepKeepsOnce(chain: seq<Block>, watch: WatchTable, s: Sys, step: Step)
    requires OnceInv(chain, watch, s) && ExclusionInv(s) && Contiguous(s.jobs)
    requires Enabled(chain, s, step) && OnceStep(s, step)
    ensures OnceInv(chain, watch, Apply(chain, s, step))
  {
    hide Below, Requeued, Folded, ExclusionInv, Enabled;
    StepKeepsExclusion(chain, s, step);
    ExclusionHas(Apply(chain, s, step));
    match step
    case ScanStep(w, h) => ScanKeepsOnce(chain, watch, s, w, h);
    case TopUp(tip) =>
      TopUpKeepsRows(s.jobs, tip);
      OtherStepKeepsOnce(chain, watch, s, s.(jobs := ToppedUp(s.jobs, tip)));
    case Claim(w, p, limit, locked, picked) => ClaimKeepsOnce(chain, watch, s, step);
    case ExtractStep(w, h, p) => FinishKeepsOnce(chain, watch, s, step);
    case FinishSkip(w, h, p) => FinishKeepsOnce(chain, watch, s, step);
    case BackfillStep(w, h, p) => FinishKeepsOnce(chain, watch, s, step);
    case Fail(hold) => FinishKeepsOnce(chain, watch, s, step);
    case Drop(w) => OtherStepKeepsOnce(chain, watch, s, Apply(chain, s, step));
    case Reset(p, hs) => ResetKeepsOnce(chain, watch, s, p, hs);
    case RequeueStep(r) =>
      ExclusionHas(s);
      RequeueKeepsAddr(s, r);
      OtherStepKeepsOnce(chain, watch, s, s.(jobs := Requeued(s.jobs, r)));
  }

  lemma ExclusionHas(s: Sys)
    requires ExclusionInv(s)
    ensures HoldsExclusive(s.held) && HeldNotPending(s)
  {
  }

  lemma RequeueKeepsAddr(s: Sys, r: Requeue)
    requires OnceStep(s, RequeueStep(r))
    ensures Requeued(s.jobs, r).Keys == s.jobs.Keys
    ensures forall h | h in s.jobs :: s.jobs[h].addr == Done <==> Requeued(s.jobs, r)[h].addr == Done
    ensures forall x | x in s.held && x.phase == AddrPhase && x.height in s.jobs ::
              Requeued(s.jobs, r)[x.height].addr == s.jobs[x.height].addr
  {
    hide Selects, Requeued, Refused;
    RequeuedKeys(s.jobs, r);
    forall h | h in s.jobs
      ensures s.jobs[h].addr == Done <==> Requeued(s.jobs, r)[h].addr == Done
    {
      RequeuedIs(s.jobs, r, h, AddrPhase);
    }
    forall x | x in s.held && x.phase == AddrPhase && x.height in s.jobs
      ensures Requeued(s.jobs, r)[x.height].addr == s.jobs[x.height].addr
    {
      RequeuedIs(s.jobs, r, x.height, AddrPhase);
    }
  }

  ghost predicate OnceRun(steps: seq<Step>, states: seq<Sys>) {
    |states| == |steps| + 1 && forall n | 0 <= n < |steps| :: OnceStep(states[n], steps[n])
  }

  /**
   In every reachable state the watch list is the fold, in commit order, of one delta for each
   height whose address column is done, and of no other.
   */
  lemma {:induction false} DeltasExactlyOnce(chain: seq<Block>, watch: WatchTable, steps: seq<Step>, states: seq<Sys>,
                                             n: nat)
    requires WellFormed(chain) && IsRun(chain, watch, steps, states) && OnceRun(steps, states) && n <= |steps|
    ensures OnceInv(chain, watch, states[n])
  {
    hide WellFormed, Apply, Enabled, DataInv, OnceInv, ExclusionInv;
    if n == 0 {
      NoneLogged(chain, watch);
    } else {
      DeltasExactlyOnce(chain, watch, steps, states, n - 1);
      StatusNeverAheadOfData(chain, watch, steps, states, n - 1);
      DataInvContiguous(chain, states[n - 1]);
      assert forall m | 0 <= m < |steps| :: OnceStep(states[m], steps[m]) ==> QuietStep(states[m], steps[m]);
      NeverHeldTwice(chain, watch, steps, states, n - 1);
      StepKeepsOnce(chain, watch, states[n - 1], steps[n - 1]);
    }
  }

  lemma NoneLogged(chain: seq<Block>, watch: WatchTable)
    ensures OnceInv(chain, watch, Init(watch))
  {
  }

  // ----- a watch row, figure by figure -----

  ghost function LogDeltas(chain: seq<Block>, log: seq<Commit>, a: Address): (ds: seq<int>)
    requires LogOnChain(chain, log)
    ensures |ds| == |log| &&
            forall i | 0 <= i < |log| :: ds[i] == DeltaSats(log[i].db, chain[log[i].height].hash, log[i].height, a)
  {
    seq(|log|, i requires 0 <= i < |log| => DeltaSats(log[i].db, chain[log[i].height].hash, log[i].height, a))
  }

  /** The stored balance is the clamped fold of the committed deltas. */
  lemma {:induction false} FoldedBalance(chain: seq<Block>, watch: WatchTable, log: seq<Commit>, n: nat, a: Address)
    requires n <= |log| && LogOnChain(chain, log) && a in watch && watch[a].balance >= 0
    ensures var t := Folded(chain, watch, log, n);
            a in t && t[a].balance >= 0 && t[a].balance == Clamped(watch[a].balance, LogDeltas(chain, log, a), n)
  {
    hide DeltaSats, DeltaUtxos, Touched, TouchedTxids, LogDeltas;
    if n > 0 {
      FoldedBalance(chain, watch, log, n - 1, a);
      var c := log[n - 1];
      if !Touched(c.db, chain[c.height].hash, c.height, a) {
        V.UntouchedIsZero(c.db, chain[c.height].hash, c.height, a);
      }
    }
  }

  ghost function LogUtxoDeltas(chain: seq<Block>, log: seq<Commit>, a: Address): (ds: seq<int>)
    requires LogOnChain(chain, log)
    ensures |ds| == |log| &&
            forall i | 0 <= i < |log| :: ds[i] == DeltaUtxos(log[i].db, chain[log[i].height].hash, log[i].height, a)
  {
    seq(|log|, i requires 0 <= i < |log| => DeltaUtxos(log[i].db, chain[log[i].height].hash, log[i].height, a))
  }

  /** So is the stored UTXO count. */
  lemma {:induction false} FoldedUtxos(chain: seq<Block>, watch: WatchTable, log: seq<Commit>, n: nat, a: Address)
    requires n <= |log| && LogOnChain(chain, log) && a in watch && watch[a].utxos >= 0
    ensures var t := Folded(chain, watch, log, n);
            a in t && t[a].utxos >= 0 && t[a].utxos == Clamped(watch[a].utxos, LogUtxoDeltas(chain, log, a), n)
  {
    hide DeltaSats, DeltaUtxos, Touched, TouchedTxids, LogUtxoDeltas;
    if n > 0 {
      FoldedUtxos(chain, watch, log, n - 1, a);
      var c := log[n - 1];
      if !Touched(c.db, chain[c.height].hash, c.height, a) {
        V.UntouchedIsZero(c.db, chain[c.height].hash, c.height, a);
      }
    }
  }

  ghost function LogTxCounts(chain: seq<Block>, log: seq<Commit>, a: Address): (ds: seq<int>)
    requires LogOnChain(chain, log)
    ensures |ds| == |log| &&
            forall i | 0 <= i < |log| :: ds[i] == |TouchedTxids(log[i].db, chain[log[i].height].hash, log[i].height, a)|
  {
    seq(|log|, i requires 0 <= i < |log| => |TouchedTxids(log[i].db, chain[log[i].height].hash, log[i].height, a)|)
  }

  /** The times of the blocks whose scan found the address. */
  ghost function LogTimes(chain: seq<Block>, log: seq<Commit>, a: Address, n: nat): set<int>
    requires n <= |log| && LogOnChain(chain, log)
  {
    if n == 0 then {}
    else
      var c := log[n - 1];
      LogTimes(chain, log, a, n - 1) +
      if Touched(c.db, chain[c.height].hash, c.height, a) then {chain[c.height].time.value} else {}
  }

  /** Transaction count and times are those of what the scans saw. */
  lemma {:induction false} FoldedCounts(chain: seq<Block>, watch: WatchTable, log: seq<Commit>, n: nat, a: Address)
    requires n <= |log| && LogOnChain(chain, log) && a in watch && watch[a] == UNSEEN
    ensures var t := Folded(chain, watch, log, n);
            && a in t && t[a].txCount == PrefixSum(LogTxCounts(chain, log, a), n) >= 0
            && t[a].firstSeen == Least(LogTimes(chain, log, a, n))
            && t[a].lastSeen == Greatest(LogTimes(chain, log, a, n))
  {
    hide DeltaSats, DeltaUtxos, Touched, TouchedTxids, LogTxCounts, Least, Greatest;
    if n == 0 {
      V.NothingSeen();
    } else {
      FoldedCounts(chain, watch, log, n - 1, a);
      var c := log[n - 1];
      V.LeastSnoc(LogTimes(chain, log, a, n - 1), chain[c.height].time.value);
      if !Touched(c.db, chain[c.height].hash, c.height, a) {
        V.UntouchedIsZero(c.db, chain[c.height].hash, c.height, a);
      }
    }
  }
}
