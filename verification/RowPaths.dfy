/**
 Every row shape can be reached from a fresh row by safe steps, with the hold on any column that may
 be held: the moves of one height, and the tables built from them.
 */
module RowPaths {
  import opened Common
  import opened Chain
  import opened Rows
  import opened Extract
  import opened Ledger
  import opened Backfill
  import opened Confluence
  import opened SoundTables
  import opened Watch
  import opened Jobs
  import opened Protocol
  import opened Exclusion
  import opened Runs
  import opened Live

  // ----- what follows from a state by safe steps -----

  ghost predicate Path(chain: seq<Block>, s: Sys, steps: seq<Step>, states: seq<Sys>) {
    && |states| == |steps| + 1 && states[0] == s
    && forall n | 0 <= n < |steps| ::
         && Enabled(chain, states[n], steps[n]) && states[n + 1] == Apply(chain, states[n], steps[n])
         && SafeStep(states[n], steps[n])
  }

  ghost predicate Leads(chain: seq<Block>, s: Sys, s': Sys) {
    exists steps, states :: Path(chain, s, steps, states) && states[|steps|] == s'
  }

  /** `s` follows from `o`, and its tables back its statuses. */
  ghost predicate From(chain: seq<Block>, o: Sys, s: Sys) {
    Leads(chain, o, s) && DataInv(chain, s)
  }

  lemma LeadsSelf(chain: seq<Block>, s: Sys)
    ensures Leads(chain, s, s)
  {
    assert Path(chain, s, [], [s]);
  }

  lemma StepLeads(chain: seq<Block>, o: Sys, s: Sys, step: Step)
    requires WellFormed(chain) && From(chain, o, s) && Enabled(chain, s, step) && SafeStep(s, step)
    ensures From(chain, o, Apply(chain, s, step))
  {
    hide Apply, Enabled, SafeStep, DataInv, WellFormed;
    StepKeepsData(chain, s, step);
    var steps, states :| Path(chain, o, steps, states) && states[|steps|] == s;
    var steps', states' := steps + [step], states + [Apply(chain, s, step)];
    forall n | 0 <= n < |steps'|
      ensures Enabled(chain, states'[n], steps'[n]) && states'[n + 1] == Apply(chain, states'[n], steps'[n])
      ensures SafeStep(states'[n], steps'[n])
    {
      if n < |steps| {
        assert states'[n] == states[n] && steps'[n] == steps[n] && states'[n + 1] == states[n + 1];
      } else {
        assert states'[n] == s;
      }
    }
    assert Path(chain, o, steps', states');
  }

  lemma PlainLeads(chain: seq<Block>, o: Sys, s: Sys, step: Step)
    requires WellFormed(chain) && From(chain, o, s) && Enabled(chain, s, step) && !step.RequeueStep?
    ensures From(chain, o, Apply(chain, s, step))
  {
    hide WellFormed, From, Enabled, Apply;
    StepLeads(chain, o, s, step);
  }

  lemma FromIsSound(chain: seq<Block>, o: Sys, s: Sys)
    requires From(chain, o, s)
    ensures Sound(chain, s.db) && forall h | h in s.jobs :: 0 <= h < |chain| && chain[h].time.Some?
  {
    hide Leads;
    assert forall h | h in s.jobs :: Backed(chain, s.db, h, s.jobs[h]);
  }

  // ----- moves on one column -----

  ghost function With(s: Sys, h: int, j: Job): JobRows {
    s.jobs[h := j]
  }

  ghost predicate Idle(s: Sys, w: int) {
    forall x | x in s.held :: x.worker != w
  }

  /** The status an extraction of the block leaves. */
  ghost function Final(b: Block): Status {
    if Kept(b) then Done else Skipped
  }

  lemma OnlyThisHeight(rows: JobRows, p: Phase, h: int)
    requires h in rows && Terminal(Get(rows[h], p)) && !MayBeHeld(rows[h], p)
    ensures var r := Requeue([p], false, false, {}, Some(h), Some(h));
            !Refused(r) && SafeRequest(r, rows) && Requeued(rows, r) == rows[h := Set(rows[h], p, Pending)]
  {
    var r := Requeue([p], false, false, {}, Some(h), Some(h));
    assert Selected(rows, r, p) == {h};
    assert Requeued(rows, r) == Mark(RequeueColumns(rows, r, 0), p, Selected(rows, r, p), Pending);
    MarkOne(rows, p, h, Pending);
  }

  /** The column is not held, and can be given back by a reset or a safe request. */
  ghost predicate Free(s: Sys, p: Phase, h: int)
    requires h in s.jobs
  {
    !IsHeld(s, p, h) && (Get(s.jobs[h], p) == InProgress || !MayBeHeld(s.jobs[h], p))
  }

  lemma MakePending(chain: seq<Block>, o: Sys, s: Sys, p: Phase, h: int) returns (s': Sys)
    requires WellFormed(chain) && From(chain, o, s) && h in s.jobs && Free(s, p, h)
    ensures From(chain, o, s') && s' == s.(jobs := With(s, h, Set(s.jobs[h], p, Pending)))
  {
    hide WellFormed, From, Requeued, SafeRequest, MayBeHeld;
    var st := Get(s.jobs[h], p);
    if st == Pending {
      s' := s;
    } else if st == InProgress {
      MarkOne(s.jobs, p, h, Pending);
      var step := Reset(p, {h});
      StepLeads(chain, o, s, step);
      s' := Apply(chain, s, step);
    } else {
      OnlyThisHeight(s.jobs, p, h);
      var step := RequeueStep(Requeue([p], false, false, {}, Some(h), Some(h)));
      StepLeads(chain, o, s, step);
      s' := Apply(chain, s, step);
    }
  }

  lemma Take(chain: seq<Block>, o: Sys, s: Sys, w: int, p: Phase, h: int) returns (s': Sys)
    requires WellFormed(chain) && From(chain, o, s) && h in s.jobs
    requires Ready(s.jobs[h], p) && Get(s.jobs[h], p) == Pending
    ensures From(chain, o, s')
    ensures s' == s.(jobs := With(s, h, Set(s.jobs[h], p, InProgress)), held := s.held + {Hold(w, p, h, Working)})
  {
    hide WellFormed, From, Enabled, Apply;
    ClaimEffect(chain, s, w, p, h);
    PlainLeads(chain, o, s, ClaimOnly(s, w, p, h));
    s' := Apply(chain, s, ClaimOnly(s, w, p, h));
  }

  /** The worker crashes: its claim stays as it is. */
  lemma LetGo(chain: seq<Block>, o: Sys, s: Sys, x: Hold, held: set<Hold>)
    requires WellFormed(chain) && From(chain, o, s)
    requires s.held == held + {x} && forall y | y in held :: y.worker != x.worker
    ensures From(chain, o, s.(held := held))
  {
    hide WellFormed, From;
    PlainLeads(chain, o, s, Drop(x.worker));
    assert Apply(chain, s, Drop(x.worker)).held == held;
  }

  lemma GiveUp(chain: seq<Block>, o: Sys, s: Sys, x: Hold, held: set<Hold>) returns (s': Sys)
    requires WellFormed(chain) && From(chain, o, s) && s.held == held + {x} && x !in held && x.height in s.jobs
    ensures From(chain, o, s')
    ensures s' == s.(held := held, jobs := With(s, x.height, Set(s.jobs[x.height], x.phase, Failed)))
  {
    hide WellFormed, From;
    PlainLeads(chain, o, s, Fail(x));
    MarkOne(s.jobs, x.phase, x.height, Failed);
    s' := Apply(chain, s, Fail(x));
    assert s'.held == held;
  }

  /** A pending column is claimed and left pending, in progress without a worker, or failed. */
  lemma Leave(chain: seq<Block>, o: Sys, s: Sys, w: int, p: Phase, h: int, t: Status) returns (s': Sys)
    requires WellFormed(chain) && From(chain, o, s) && h in s.jobs && Idle(s, w)
    requires Ready(s.jobs[h], p) && Get(s.jobs[h], p) == Pending && t in {Pending, InProgress, Failed}
    ensures From(chain, o, s') && s' == s.(jobs := With(s, h, Set(s.jobs[h], p, t)))
  {
    hide WellFormed, From;
    var x := Hold(w, p, h, Working);
    if t == Pending {
      s' := s;
      return;
    }
    var s1 := Take(chain, o, s, w, p, h);
    if t == InProgress {
      LetGo(chain, o, s1, x, s.held);
      s' := s1.(held := s.held);
    } else {
      s' := GiveUp(chain, o, s1, x, s.held);
    }
  }

  // ----- moves on one height -----

  /** Claim and extract without inline prevouts. */
  lemma ExtractPlain(chain: seq<Block>, o: Sys, s: Sys, w: int, h: int) returns (s': Sys)
    requires WellFormed(chain) && From(chain, o, s) && h in s.jobs && s.jobs[h].vout == Pending && Idle(s, w)
    ensures 0 <= h < |chain| && chain[h].time.Some?
    ensures From(chain, o, s') && s'.held == s.held
    ensures s'.jobs == With(s, h, s.jobs[h].(vout := Final(chain[h]),
                                             features := if Kept(chain[h]) then FeaturesOf(chain[h], h)
                                                         else s.jobs[h].features))
  {
    hide WellFormed, From, Enabled, Apply, Kept, FeaturesOf, ExtractBlock, Sound;
    var s1 := Take(chain, o, s, w, VoutPhase, h);
    FromIsSound(chain, o, s1);
    assert h in s1.jobs;
    ExtractEffect(chain, s1, w, h, false);
    PlainLeads(chain, o, s1, ExtractStep(w, h, false));
    s' := Apply(chain, s1, ExtractStep(w, h, false));
    assert s1.held - {Hold(w, VoutPhase, h, Working)} == s.held;
  }

  /** Claim and extract a kept block with inline prevouts: the second column is done, held or not. */
  lemma ExtractInline(chain: seq<Block>, o: Sys, s: Sys, w: int, h: int) returns (s': Sys)
    requires WellFormed(chain) && From(chain, o, s) && h in s.jobs && s.jobs[h].vout == Pending && Idle(s, w)
    requires 0 <= h < |chain| && chain[h].time.Some? && Kept(chain[h])
    ensures From(chain, o, s') && s'.held == s.held
    ensures s'.jobs == With(s, h, s.jobs[h].(vout := Done, vin := Done, features := FeaturesOf(chain[h], h)))
  {
    hide WellFormed, From, Enabled, Apply, Kept, FeaturesOf, ExtractBlock, Sound;
    var s1 := Take(chain, o, s, w, VoutPhase, h);
    FromIsSound(chain, o, s1);
    ExtractEffect(chain, s1, w, h, true);
    PlainLeads(chain, o, s1, ExtractStep(w, h, true));
    s' := Apply(chain, s1, ExtractStep(w, h, true));
    assert s1.held - {Hold(w, VoutPhase, h, Working)} == s.held;
  }

  /** Claim and extract a skipped block with inline prevouts, up to the first of its two marks. */
  lemma ExtractBetween(chain: seq<Block>, o: Sys, s: Sys, w: int, h: int) returns (s': Sys)
    requires WellFormed(chain) && From(chain, o, s) && h in s.jobs && s.jobs[h].vout == Pending && Idle(s, w)
    requires 0 <= h < |chain| && chain[h].time.Some? && !Kept(chain[h])
    ensures From(chain, o, s') && s'.held == s.held + {Hold(w, VoutPhase, h, SkipMarked(true))}
    ensures s'.jobs == With(s, h, s.jobs[h].(vout := Skipped))
  {
    hide WellFormed, From, Enabled, Apply, Kept, FeaturesOf, ExtractBlock, Sound;
    var s1 := Take(chain, o, s, w, VoutPhase, h);
    FromIsSound(chain, o, s1);
    ExtractEffect(chain, s1, w, h, true);
    PlainLeads(chain, o, s1, ExtractStep(w, h, true));
    s' := Apply(chain, s1, ExtractStep(w, h, true));
    assert s1.held - {Hold(w, VoutPhase, h, Working)} == s.held;
  }

  lemma SecondMark(chain: seq<Block>, o: Sys, s: Sys, w: int, h: int, held: set<Hold>) returns (s': Sys)
    requires WellFormed(chain) && From(chain, o, s) && h in s.jobs
    requires s.held == held + {Hold(w, VoutPhase, h, SkipMarked(true))} && forall x | x in held :: x.worker != w
    ensures From(chain, o, s') && s' == s.(jobs := With(s, h, s.jobs[h].(vin := Done)), held := held)
  {
    hide WellFormed, From;
    var step := FinishSkip(w, h, true);
    MarkOne(s.jobs, VinPhase, h, Done);
    assert s.held - {Hold(w, VoutPhase, h, SkipMarked(true))} == held;
    PlainLeads(chain, o, s, step);
    s' := Apply(chain, s, step);
  }

  lemma BackfillEffect(chain: seq<Block>, s: Sys, w: int, h: int)
    requires WellFormed(chain) && 0 <= h < |chain| && Sound(chain, s.db)
    requires h in s.jobs && Hold(w, VinPhase, h, Working) in s.held
    ensures Enabled(chain, s, BackfillStep(w, h, true))
    ensures var s' := Apply(chain, s, BackfillStep(w, h, true));
            && s'.held == s.held - {Hold(w, VinPhase, h, Working)}
            && s'.jobs == s.jobs[h := s.jobs[h].(vin := Done)]
  {
    hide Sound, WellFormed, BackfillBlock;
    BackfillKeepsSound(chain, s.db, h, true);
    MarkOne(s.jobs, VinPhase, h, Done);
  }

  /** An idle worker gives the pending second column of an extracted height any status it can have. */
  lemma SetVin(chain: seq<Block>, o: Sys, s: Sys, w: int, h: int, t: Status) returns (s': Sys)
    requires WellFormed(chain) && From(chain, o, s) && h in s.jobs && Idle(s, w)
    requires Ready(s.jobs[h], VinPhase) && s.jobs[h].vin == Pending && t != Skipped
    ensures From(chain, o, s') && s'.held == s.held && s'.jobs == With(s, h, s.jobs[h].(vin := t))
  {
    hide WellFormed, From, Enabled, Apply, Sound;
    if t != Done {
      s' := Leave(chain, o, s, w, VinPhase, h, t);
      return;
    }
    var s1 := Take(chain, o, s, w, VinPhase, h);
    FromIsSound(chain, o, s1);
    assert h in s1.jobs;
    BackfillEffect(chain, s1, w, h);
    PlainLeads(chain, o, s1, BackfillStep(w, h, true));
    s' := Apply(chain, s1, BackfillStep(w, h, true));
    assert s1.held - {Hold(w, VinPhase, h, Working)} == s.held;
  }

  /** The same for the third column of a finished height. */
  lemma SetAddr(chain: seq<Block>, o: Sys, s: Sys, w: int, h: int, t: Status) returns (s': Sys)
    requires WellFormed(chain) && From(chain, o, s) && h in s.jobs && Idle(s, w)
    requires Ready(s.jobs[h], AddrPhase) && s.jobs[h].addr == Pending && t != Skipped
    ensures From(chain, o, s') && s'.held == s.held && s'.jobs == With(s, h, s.jobs[h].(addr := t))
  {
    hide WellFormed, From, Enabled, Apply, Sound, ScanHeight;
    if t != Done {
      s' := Leave(chain, o, s, w, AddrPhase, h, t);
      return;
    }
    var s1 := Take(chain, o, s, w, AddrPhase, h);
    FromIsSound(chain, o, s1);
    assert h in s1.jobs;
    ScanEffect(chain, s1, w, h);
    PlainLeads(chain, o, s1, ScanStep(w, h));
    s' := Apply(chain, s1, ScanStep(w, h));
    assert s1.held - {Hold(w, AddrPhase, h, Working)} == s.held;
  }

  // ----- from a fresh row to any row -----

  /** One worker for each phase, so that each can crash alone. */
  ghost function WorkerOf(p: Phase): int {
    match p
    case VoutPhase => 1
    case VinPhase => 2
    case AddrPhase => 3
  }

  ghost function HoldFor(j: Job, p: Phase, h: int): Hold {
    Hold(WorkerOf(p), p, h, if p == VoutPhase && j.vout == Skipped then SkipMarked(true) else Working)
  }

  /** The one hold that is to remain, if any. */
  ghost function HeldOnly(j: Job, q: Option<Phase>, h: int): set<Hold> {
    if q.None? then {} else {HoldFor(j, q.value, h)}
  }

  /** A target for the row of `h`, and a column of it that may be held. */
  ghost predicate Target(chain: seq<Block>, h: int, j: Job, q: Option<Phase>) {
    RowShape(chain, h, j) && (q.Some? ==> MayBeHeld(j, q.value))
  }

  ghost predicate OthersHeld(held: set<Hold>, p: Phase) {
    forall x | x in held :: x.worker != WorkerOf(p) && x.phase != p
  }

  /** The second column goes from pending to its target, and stays held if that is asked. */
  lemma PlaceVin(chain: seq<Block>, o: Sys, s: Sys, h: int, j: Job, q: Option<Phase>) returns (s': Sys)
    requires WellFormed(chain) && From(chain, o, s) && h in s.jobs && OthersHeld(s.held, VinPhase)
    requires Target(chain, h, j, q) && Ready(s.jobs[h], VinPhase) && s.jobs[h].vin == Pending
    requires q == Some(VinPhase) ==> j.vin == InProgress
    ensures From(chain, o, s') && s'.jobs == With(s, h, s.jobs[h].(vin := j.vin))
    ensures s'.held == s.held + if q == Some(VinPhase) then HeldOnly(j, q, h) else {}
  {
    hide WellFormed, From, Kept, FeaturesOf;
    if q == Some(VinPhase) {
      s' := Take(chain, o, s, 2, VinPhase, h);
    } else {
      s' := SetVin(chain, o, s, 2, h, j.vin);
    }
  }

  lemma PlaceAddr(chain: seq<Block>, o: Sys, s: Sys, h: int, j: Job, q: Option<Phase>) returns (s': Sys)
    requires WellFormed(chain) && From(chain, o, s) && h in s.jobs && OthersHeld(s.held, AddrPhase)
    requires Target(chain, h, j, q) && Ready(s.jobs[h], AddrPhase) && s.jobs[h].addr == Pending
    ensures From(chain, o, s') && s'.jobs == With(s, h, s.jobs[h].(addr := j.addr))
    ensures s'.held == s.held + if q == Some(AddrPhase) then HeldOnly(j, q, h) else {}
  {
    hide WellFormed, From, Kept, FeaturesOf;
    if q == Some(AddrPhase) {
      s' := Take(chain, o, s, 3, AddrPhase, h);
    } else {
      s' := SetAddr(chain, o, s, 3, h, j.addr);
    }
  }

  /** The first column goes to a target that no extraction has to leave. */
  lemma PlaceVout(chain: seq<Block>, o: Sys, s: Sys, h: int, j: Job, q: Option<Phase>) returns (s': Sys)
    requires WellFormed(chain) && From(chain, o, s) && h in s.jobs && OthersHeld(s.held, VoutPhase)
    requires Target(chain, h, j, q) && j.vout in {Pending, InProgress, Failed} && s.jobs[h].vout != Skipped
    ensures From(chain, o, s') && s'.jobs == With(s, h, s.jobs[h].(vout := j.vout))
    ensures s'.held == s.held + if q == Some(VoutPhase) then HeldOnly(j, q, h) else {}
  {
    hide WellFormed, From, Kept, FeaturesOf;
    var s1 := MakePending(chain, o, s, VoutPhase, h);
    if q == Some(VoutPhase) {
      s' := Take(chain, o, s1, 1, VoutPhase, h);
    } else {
      s' := Leave(chain, o, s1, 1, VoutPhase, h, j.vout);
    }
  }

  /** A kept block: extracted, and backfilled under a worker that can still fail. */
  lemma KeptBase(chain: seq<Block>, o: Sys, s: Sys, h: int) returns (s': Sys)
    requires WellFormed(chain) && From(chain, o, s) && h in s.jobs && s.held == {} && s.jobs[h] == FRESH
    requires 0 <= h < |chain| && chain[h].time.Some? && Kept(chain[h])
    ensures From(chain, o, s') && s'.held == {Hold(2, VinPhase, h, Working)}
    ensures s'.jobs == With(s, h, Job(Done, Done, Pending, FeaturesOf(chain[h], h)))
  {
    hide WellFormed, From, Kept, FeaturesOf;
    s' := ExtractPlain(chain, o, s, 1, h);
    s' := Take(chain, o, s', 2, VinPhase, h);
    s' := MakePending(chain, o, s', VoutPhase, h);
    s' := ExtractInline(chain, o, s', 1, h);
  }

  /** The second column of a kept block, from done under worker 2. */
  lemma KeptVin(chain: seq<Block>, o: Sys, s: Sys, h: int, j: Job, q: Option<Phase>, held: set<Hold>) returns (s': Sys)
    requires WellFormed(chain) && From(chain, o, s) && h in s.jobs && Target(chain, h, j, q)
    requires s.held == held + {Hold(2, VinPhase, h, Working)} && OthersHeld(held, VinPhase)
    requires s.jobs[h].vout == Done && s.jobs[h].vin == Done
    ensures From(chain, o, s') && s'.jobs == With(s, h, s.jobs[h].(vin := j.vin))
    ensures s'.held == held + if q == Some(VinPhase) then HeldOnly(j, q, h) else {}
  {
    hide WellFormed, From, Kept, FeaturesOf;
    var x := Hold(2, VinPhase, h, Working);
    if j.vin != Done {
      s' := GiveUp(chain, o, s, x, held);
      s' := MakePending(chain, o, s', VinPhase, h);
      s' := PlaceVin(chain, o, s', h, j, q);
    } else if q == Some(VinPhase) {
      s' := s;
    } else {
      LetGo(chain, o, s, x, held);
      s' := s.(held := held);
    }
  }

  lemma KeptRest(chain: seq<Block>, o: Sys, s: Sys, h: int, j: Job, q: Option<Phase>) returns (s': Sys)
    requires WellFormed(chain) && From(chain, o, s) && h in s.jobs && s.held == {Hold(2, VinPhase, h, Working)}
    requires Target(chain, h, j, q) && Kept(chain[h]) && s.jobs[h] == Job(Done, Done, Pending, j.features)
    ensures From(chain, o, s') && s'.jobs == With(s, h, j.(vout := Done))
    ensures s'.held == if q == Some(VoutPhase) then {} else HeldOnly(j, q, h)
  {
    hide WellFormed, From, Kept, FeaturesOf;
    s' := PlaceAddr(chain, o, s, h, j, q);
    s' := KeptVin(chain, o, s', h, j, q, if q == Some(AddrPhase) then HeldOnly(j, q, h) else {});
  }

  lemma KeptRow(chain: seq<Block>, o: Sys, s: Sys, h: int, j: Job, q: Option<Phase>) returns (s': Sys)
    requires WellFormed(chain) && From(chain, o, s) && h in s.jobs && s.held == {} && s.jobs[h] == FRESH
    requires Target(chain, h, j, q) && Kept(chain[h])
    ensures From(chain, o, s') && s'.jobs == With(s, h, j) && s'.held == HeldOnly(j, q, h)
  {
    hide WellFormed, From, Kept, FeaturesOf;
    if !Begun(j) && j.features == FNone {
      s' := PlaceVout(chain, o, s, h, j, q);
      return;
    }
    s' := KeptBase(chain, o, s, h);
    s' := KeptRest(chain, o, s', h, j, q);
    if j.vout != Done {
      s' := PlaceVout(chain, o, s', h, j, q);
    }
  }

  /** A failed extraction of a skipped block lets its done backfill be requeued; it is then extracted again. */
  lemma SkipAgain(chain: seq<Block>, o: Sys, s: Sys, h: int, held: set<Hold>) returns (s': Sys)
    requires WellFormed(chain) && From(chain, o, s) && h in s.jobs && OthersHeld(held, VoutPhase)
             && OthersHeld(held, VinPhase)
    requires s.held == held + {Hold(1, VoutPhase, h, SkipMarked(true))}
    requires s.jobs[h].vout == Skipped && s.jobs[h].vin == Done && s.jobs[h].features == FNone
    requires 0 <= h < |chain| && chain[h].time.Some? && !Kept(chain[h])
    ensures From(chain, o, s') && s'.held == s.held && s'.jobs == With(s, h, s.jobs[h].(vin := Pending))
  {
    hide WellFormed, From, Kept, FeaturesOf;
    s' := GiveUp(chain, o, s, Hold(1, VoutPhase, h, SkipMarked(true)), held);
    s' := MakePending(chain, o, s', VinPhase, h);
    s' := MakePending(chain, o, s', VoutPhase, h);
    s' := ExtractBetween(chain, o, s', 1, h);
  }

  /** A skipped block between its marks: the later columns get their targets. */
  lemma SkippedBase(chain: seq<Block>, o: Sys, s: Sys, h: int, j: Job, q: Option<Phase>) returns (s': Sys)
    requires WellFormed(chain) && From(chain, o, s) && h in s.jobs && s.held == {} && s.jobs[h] == FRESH
    requires Target(chain, h, j, q) && !Kept(chain[h]) && (q == Some(VinPhase) ==> j.vin == InProgress)
    ensures From(chain, o, s') && s'.jobs == With(s, h, Job(Skipped, j.vin, j.addr, FNone))
    ensures s'.held == {Hold(1, VoutPhase, h, SkipMarked(true))}
                       + if q in {Some(VinPhase), Some(AddrPhase)} then HeldOnly(j, q, h) else {}
  {
    hide WellFormed, From, Kept, FeaturesOf;
    s' := ExtractBetween(chain, o, s, 1, h);
    if j.addr != Pending {
      s' := SetVin(chain, o, s', 2, h, Done);
      s' := PlaceAddr(chain, o, s', h, j, q);
      if j.vin == Done {
        return;
      }
      s' := SkipAgain(chain, o, s', h, if q == Some(AddrPhase) then HeldOnly(j, q, h) else {});
    }
    s' := PlaceVin(chain, o, s', h, j, q);
  }

  /** A skipped block whose backfill is done under its worker: the second mark came in between. */
  lemma FinishedUnder(chain: seq<Block>, o: Sys, s: Sys, h: int, j: Job) returns (s': Sys)
    requires WellFormed(chain) && From(chain, o, s) && h in s.jobs && s.held == {} && s.jobs[h] == FRESH
    requires Target(chain, h, j, Some(VinPhase)) && !Kept(chain[h]) && j.vin == Done && j.features == FNone
    ensures From(chain, o, s') && s'.jobs == With(s, h, j) && s'.held == HeldOnly(j, Some(VinPhase), h)
  {
    hide WellFormed, From, Kept, FeaturesOf;
    s' := ExtractBetween(chain, o, s, 1, h);
    s' := Take(chain, o, s', 2, VinPhase, h);
    s' := SecondMark(chain, o, s', 1, h, {Hold(2, VinPhase, h, Working)});
    s' := PlaceAddr(chain, o, s', h, j, Some(VinPhase));
  }

  lemma SkippedRow(chain: seq<Block>, o: Sys, s: Sys, h: int, j: Job, q: Option<Phase>) returns (s': Sys)
    requires WellFormed(chain) && From(chain, o, s) && h in s.jobs && s.held == {} && s.jobs[h] == FRESH
    requires Target(chain, h, j, q) && !Kept(chain[h])
    ensures From(chain, o, s') && s'.jobs == With(s, h, j) && s'.held == HeldOnly(j, q, h)
  {
    hide WellFormed, From, Kept, FeaturesOf;
    SkippedHasNoFeatures(chain, h);
    if q == Some(VinPhase) && j.vin == Done {
      s' := FinishedUnder(chain, o, s, h, j);
      return;
    }
    var x := Hold(1, VoutPhase, h, SkipMarked(true));
    var rest := if q in {Some(VinPhase), Some(AddrPhase)} then HeldOnly(j, q, h) else {};
    s' := SkippedBase(chain, o, s, h, j, q);
    if j.vout != Skipped {
      s' := GiveUp(chain, o, s', x, rest);
      s' := PlaceVout(chain, o, s', h, j, q);
    } else if q != Some(VoutPhase) {
      LetGo(chain, o, s', x, rest);
      s' := s'.(held := rest);
    }
  }

  /** One row of the table is brought to its target. */
  lemma BuildRow(chain: seq<Block>, o: Sys, s: Sys, h: int, j: Job, q: Option<Phase>) returns (s': Sys)
    requires WellFormed(chain) && From(chain, o, s) && h in s.jobs && s.held == {} && s.jobs[h] == FRESH
    requires Target(chain, h, j, q)
    ensures From(chain, o, s') && s'.jobs == With(s, h, j) && s'.held == HeldOnly(j, q, h)
  {
    hide WellFormed, From, Kept, FeaturesOf, HeldOnly;
    if Kept(chain[h]) {
      s' := KeptRow(chain, o, s, h, j, q);
    } else {
      s' := SkippedRow(chain, o, s, h, j, q);
    }
  }

  // ----- from the empty table to any table -----

  ghost predicate Reached(chain: seq<Block>, watch: WatchTable, s: Sys) {
    Leads(chain, Init(watch), s)
  }

  /** The rows of `done` as in `jobs`, the others fresh. */
  ghost function PartOf(jobs: JobRows, done: set<int>): JobRows {
    map h | h in jobs :: if h in done then jobs[h] else FRESH
  }

  lemma FreshTable(chain: seq<Block>, watch: WatchTable, jobs: JobRows) returns (s: Sys)
    requires WellFormed(chain) && Contiguous(jobs) && RowsShaped(chain, jobs)
    ensures From(chain, Init(watch), s) && s.jobs == PartOf(jobs, {}) && s.held == {}
  {
    hide WellFormed, DataInv, RowShape, Leads;
    var step := TopUp(|jobs| - 1);
    LeadsSelf(chain, Init(watch));
    NothingYet(chain, watch);
    if |jobs| > 0 {
      assert |jobs| - 1 in jobs;
      RowInRange(chain, |jobs| - 1, jobs[|jobs| - 1]);
    }
    PlainLeads(chain, Init(watch), Init(watch), step);
    s := Apply(chain, Init(watch), step);
    assert s.jobs == PartOf(jobs, {});
  }

  lemma RowInRange(chain: seq<Block>, h: int, j: Job)
    requires RowShape(chain, h, j)
    ensures 0 <= h < |chain| && chain[h].time.Some?
  {
  }

  /** All rows but the one of `h`, one after another. */
  lemma {:induction false} BuildRows(chain: seq<Block>, watch: WatchTable, jobs: JobRows, done: set<int>)
    returns (s: Sys)
    requires WellFormed(chain) && Contiguous(jobs) && RowsShaped(chain, jobs) && done <= jobs.Keys
    ensures From(chain, Init(watch), s) && s.jobs == PartOf(jobs, done) && s.held == {}
    decreases |done|
  {
    hide WellFormed, From, RowShape, Contiguous;
    if done == {} {
      s := FreshTable(chain, watch, jobs);
    } else {
      var h := Pick(done);
      s := BuildRows(chain, watch, jobs, done - {h});
      assert RowShape(chain, h, jobs[h]);
      s := BuildRow(chain, Init(watch), s, h, jobs[h], None);
      assert s.jobs == PartOf(jobs, done);
    }
  }

  /** Any table of shaped rows is reached, with just one column held that may be held. */
  lemma HoldAny(chain: seq<Block>, watch: WatchTable, jobs: JobRows, p: Phase, h: int) returns (s: Sys, x: Hold)
    requires WellFormed(chain) && Contiguous(jobs) && RowsShaped(chain, jobs) && h in jobs && MayBeHeld(jobs[h], p)
    ensures From(chain, Init(watch), s) && s.jobs == jobs && s.held == {x} && x.phase == p && x.height == h
  {
    hide WellFormed, From, RowShape, Contiguous, MayBeHeld;
    s := BuildRows(chain, watch, jobs, jobs.Keys - {h});
    assert RowShape(chain, h, jobs[h]);
    s := BuildRow(chain, Init(watch), s, h, jobs[h], Some(p));
    x := HoldFor(jobs[h], p, h);
    assert s.jobs == jobs;
  }
}
