/**
 When a requeue can make two workers hold one height, told from the request and the job rows alone,
 in runs whose earlier requeues were safe by the same test; and why that premise is needed.
 */
module RequeueSafety {
  import opened Common
  import opened Chain
  import opened Rows
  import opened Extract
  import opened Ledger
  import opened Confluence
  import opened Watch
  import opened Jobs
  import opened Protocol
  import opened Exclusion
  import opened ExactlyOnce
  import opened Runs
  import opened Live
  import opened RowPaths

  // ----- a held row that is requeued -----

  /** A requeue that selects a held, ready row lets the next claim hand it out again. */
  lemma RequeueThenClaim(chain: seq<Block>, s: Sys, x: Hold, r: Requeue, w: int)
    requires x in s.held && x.height in s.jobs && w != x.worker
    requires !Refused(r) && x.phase in r.columns && Selects(r, x.phase, x.height, s.jobs[x.height])
    requires x.height in Requeued(s.jobs, r) && Ready(Requeued(s.jobs, r)[x.height], x.phase)
    ensures Enabled(chain, s, RequeueStep(r))
    ensures var s1 := Apply(chain, s, RequeueStep(r));
            var claim := ClaimOnly(s1, w, x.phase, x.height);
            Enabled(chain, s1, claim) && !HoldsExclusive(Apply(chain, s1, claim).held)
  {
    hide HoldsExclusive, Requeued;
    var s1 := Apply(chain, s, RequeueStep(r));
    RequeuedIs(s.jobs, r, x.height, x.phase);
    HeldTwice(chain, s1, x, w);
  }

  lemma HeldTwice(chain: seq<Block>, s: Sys, x: Hold, w: int)
    requires x in s.held && x.height in s.jobs && w != x.worker
    requires Get(s.jobs[x.height], x.phase) == Pending && Ready(s.jobs[x.height], x.phase)
    ensures var claim := ClaimOnly(s, w, x.phase, x.height);
            Enabled(chain, s, claim) && !HoldsExclusive(Apply(chain, s, claim).held)
  {
    ClaimEffect(chain, s, w, x.phase, x.height);
    hide Apply, Enabled;
    var held := Apply(chain, s, ClaimOnly(s, w, x.phase, x.height)).held;
    assert x in held && Hold(w, x.phase, x.height, Working) in held;
  }

  // ----- runs of safe requests -----

  /** Every requeue is safe by the rows it finds. */
  ghost predicate SafeRun(steps: seq<Step>, states: seq<Sys>) {
    |states| == |steps| + 1 && forall n | 0 <= n < |steps| :: SafeStep(states[n], steps[n])
  }

  lemma {:induction false} PathKeepsLive(chain: seq<Block>, s: Sys, steps: seq<Step>, states: seq<Sys>, n: nat)
    requires WellFormed(chain) && DataInv(chain, s) && LiveInv(chain, s) && Path(chain, s, steps, states)
             && n <= |steps|
    ensures DataInv(chain, states[n]) && LiveInv(chain, states[n])
  {
    hide WellFormed, DataInv, LiveInv, Apply, Enabled, SafeStep;
    if n > 0 {
      PathKeepsLive(chain, s, steps, states, n - 1);
      StepKeepsData(chain, states[n - 1], steps[n - 1]);
      StepKeepsLive(chain, states[n - 1], steps[n - 1]);
    }
  }

  lemma LeadsKeepsLive(chain: seq<Block>, s: Sys, s': Sys)
    requires WellFormed(chain) && DataInv(chain, s) && LiveInv(chain, s) && Leads(chain, s, s')
    ensures DataInv(chain, s') && LiveInv(chain, s')
  {
    hide WellFormed, DataInv, LiveInv, Enabled, Apply, SafeStep;
    var steps, states :| Path(chain, s, steps, states) && states[|steps|] == s';
    PathKeepsLive(chain, s, steps, states, |steps|);
  }

  lemma ReachedIsLive(chain: seq<Block>, watch: WatchTable, s: Sys)
    requires WellFormed(chain) && Reached(chain, watch, s)
    ensures DataInv(chain, s) && LiveInv(chain, s)
  {
    hide WellFormed, DataInv, LiveInv, Leads;
    NothingYet(chain, watch);
    NobodyLive(chain, watch);
    LeadsKeepsLive(chain, Init(watch), s);
  }

  /**
   An operator who keeps to safe requests never makes two workers hold one height, and a held column
   always reads as one that may be held.
   */
  lemma {:induction false} SafeRunsExclude(chain: seq<Block>, watch: WatchTable, steps: seq<Step>, states: seq<Sys>,
                                           n: nat)
    requires WellFormed(chain) && IsRun(chain, watch, steps, states) && SafeRun(steps, states) && n <= |steps|
    ensures var s := states[n];
            && HoldsExclusive(s.held)
            && (forall x | x in s.held :: x.height in s.jobs && MayBeHeld(s.jobs[x.height], x.phase))
            && (forall r | SafeRequest(r, s.jobs) :: LeavesHeldAlone(s, r))
  {
    hide WellFormed, Apply, Enabled, DataInv, SafeStep, SafeRequest, LeavesHeldAlone, MayBeHeld;
    NothingYet(chain, watch);
    NobodyLive(chain, watch);
    assert Path(chain, Init(watch), steps, states);
    PathKeepsLive(chain, Init(watch), steps, states, n);
    forall x | x in states[n].held
      ensures x.height in states[n].jobs && MayBeHeld(states[n].jobs[x.height], x.phase)
    {
      assert HoldShows(states[n].jobs[x.height], x);
    }
    forall r | SafeRequest(r, states[n].jobs)
      ensures LeavesHeldAlone(states[n], r)
    {
      SafeIsQuiet(states[n], r);
    }
  }

  // ----- a requeue of the one held column -----

  /** The one hold's column is pending: another worker can come to hold it too. */
  lemma TakeAgain(chain: seq<Block>, o: Sys, s: Sys, x: Hold) returns (s': Sys)
    requires WellFormed(chain) && From(chain, o, s) && s.held == {x}
    requires x.height in s.jobs && Get(s.jobs[x.height], x.phase) == Pending && s.jobs[x.height].vin != Skipped
    ensures From(chain, o, s') && !HoldsExclusive(s'.held)
  {
    hide WellFormed, From, Kept, FeaturesOf, Enabled, Apply, HoldsExclusive;
    var h, w := x.height, x.worker + 1;
    s' := s;
    if x.phase != VoutPhase && !Ready(s.jobs[h], VinPhase) {
      s' := MakePending(chain, o, s', VoutPhase, h);
      s' := ExtractPlain(chain, o, s', w, h);
    }
    if x.phase == AddrPhase && s.jobs[h].vin != Done {
      s' := MakePending(chain, o, s', VinPhase, h);
      s' := SetVin(chain, o, s', w, h, Done);
    }
    HeldTwice(chain, s', x, w);
    ClaimEffect(chain, s', w, x.phase, h);
    PlainLeads(chain, o, s', ClaimOnly(s', w, x.phase, h));
    s' := Apply(chain, s', ClaimOnly(s', w, x.phase, h));
  }

  // ----- which requests are safe -----

  /** Whoever holds what: from no state with these rows can the request lead to a height held twice. */
  ghost predicate NeverLeadsToTwo(chain: seq<Block>, watch: WatchTable, jobs: JobRows, r: Requeue) {
    forall s, s' | Reached(chain, watch, s) && s.jobs == jobs && Leads(chain, s.(jobs := Requeued(jobs, r)), s') ::
      HoldsExclusive(s'.held)
  }

  lemma SafeLeadsToNoTwo(chain: seq<Block>, s: Sys, r: Requeue, s': Sys)
    requires WellFormed(chain) && DataInv(chain, s) && LiveInv(chain, s) && SafeRequest(r, s.jobs)
    requires Leads(chain, s.(jobs := Requeued(s.jobs, r)), s')
    ensures HoldsExclusive(s'.held)
  {
    hide WellFormed, DataInv, SafeRequest, Leads, HoldsShow, Settled, RowsShaped;
    StepKeepsData(chain, s, RequeueStep(r));
    StepKeepsLive(chain, s, RequeueStep(r));
    assert Apply(chain, s, RequeueStep(r)) == s.(jobs := Requeued(s.jobs, r));
    LeadsKeepsLive(chain, s.(jobs := Requeued(s.jobs, r)), s');
  }

  lemma UnsafeLeadsToTwo(chain: seq<Block>, watch: WatchTable, s: Sys, r: Requeue) returns (s1: Sys, s2: Sys)
    requires WellFormed(chain) && Reached(chain, watch, s) && !SafeRequest(r, s.jobs)
    ensures Reached(chain, watch, s1) && s1.jobs == s.jobs
    ensures Leads(chain, s1.(jobs := Requeued(s.jobs, r)), s2) && !HoldsExclusive(s2.held)
  {
    hide WellFormed, DataInv, Leads, HoldsExclusive, ExclusionInv, HoldsShow, Settled, RowShape, Selects, MayBeHeld,
         Refused, Requeued;
    ReachedIsLive(chain, watch, s);
    DataInvIsSound(chain, s);
    var h, p :| h in s.jobs && p in r.columns && Selects(r, p, h, s.jobs[h]) && MayBeHeld(s.jobs[h], p);
    var x;
    s1, x := HoldAny(chain, watch, s.jobs, p, h);
    var o := s1.(jobs := Requeued(s.jobs, r));
    assert o == Apply(chain, s1, RequeueStep(r));
    StepKeepsData(chain, s1, RequeueStep(r));
    LeadsSelf(chain, o);
    RequeuedIs(s.jobs, r, h, p);
    RequeuedIs(s.jobs, r, h, VinPhase);
    NeverSkipped(chain, h, s.jobs[h]);
    s2 := TakeAgain(chain, o, o, x);
  }

  lemma NeverSkipped(chain: seq<Block>, h: int, j: Job)
    requires RowShape(chain, h, j)
    ensures j.vin != Skipped && j.addr != Skipped
  {
  }

  /**
   In every state of a run whose earlier requeues were safe: a request can never lead to a height held
   twice if and only if it is safe too, that is, refused or selecting no column that may be held.
   */
  lemma {:induction false} RequeueSafeIff(chain: seq<Block>, watch: WatchTable, s: Sys, r: Requeue)
    requires WellFormed(chain) && Reached(chain, watch, s)
    ensures NeverLeadsToTwo(chain, watch, s.jobs, r) <==> SafeRequest(r, s.jobs)
  {
    hide WellFormed, SafeRequest, Leads, HoldsExclusive, LiveInv, DataInv;
    if SafeRequest(r, s.jobs) {
      forall s1, s2 | Reached(chain, watch, s1) && s1.jobs == s.jobs
             && Leads(chain, s1.(jobs := Requeued(s.jobs, r)), s2)
        ensures HoldsExclusive(s2.held)
      {
        ReachedIsLive(chain, watch, s1);
        SafeLeadsToNoTwo(chain, s1, r, s2);
      }
    } else {
      var s1, s2 := UnsafeLeadsToTwo(chain, watch, s, r);
    }
  }

  // ----- in terms of the flags -----

  predicate InRange(r: Requeue, h: int) {
    (r.fromHeight.Some? ==> h >= r.fromHeight.value) && (r.toHeight.Some? ==> h <= r.toHeight.value)
  }

  /**
   Without `--features`: `--skipped`, or no status flag, is unsafe on a skipped extraction column,
   and no status flag at all is unsafe on a done backfill column of a block that is skipped now or has
   features; the rest is safe.
   */
  lemma WithoutFeatures(chain: seq<Block>, r: Requeue, jobs: JobRows)
    requires !Refused(r) && r.features == {} && RowsShaped(chain, jobs)
    ensures SafeRequest(r, jobs) <==>
            forall h | h in jobs && InRange(r, h) ::
              && (VoutPhase in r.columns && (r.skipped || !r.failed) ==> jobs[h].vout != Skipped)
              && (VinPhase in r.columns && !r.skipped && !r.failed && jobs[h].vin == Done ==>
                    jobs[h].vout != Skipped && jobs[h].features == FNone)
  {
    hide RowShape;
    forall h, p | h in jobs
      ensures Selects(r, p, h, jobs[h]) && MayBeHeld(jobs[h], p) <==>
              && InRange(r, h)
              && match p
                 case VoutPhase => jobs[h].vout == Skipped && (r.skipped || !r.failed)
                 case VinPhase => && jobs[h].vin == Done && !r.skipped && !r.failed
                                  && (jobs[h].vout == Skipped || jobs[h].features != FNone)
                 case AddrPhase => false
    {
      assert RowShape(chain, h, jobs[h]);
      NeverSkipped(chain, h, jobs[h]);
    }
  }

  // ----- deltas under safe requests -----

  /** No requeue selects a done address row. */
  ghost predicate SparesDone(s: Sys, step: Step) {
    step.RequeueStep? && !Refused(step.request) && AddrPhase in step.request.columns ==>
      forall h | h in s.jobs && Selects(step.request, AddrPhase, h, s.jobs[h]) :: s.jobs[h].addr != Done
  }

  /** Two checks on each request are enough for every delta to be applied exactly once. */
  lemma {:induction false} SafeRunsOnce(chain: seq<Block>, watch: WatchTable, steps: seq<Step>, states: seq<Sys>,
                                        n: nat)
    requires WellFormed(chain) && IsRun(chain, watch, steps, states) && SafeRun(steps, states) && n <= |steps|
    requires forall m | 0 <= m < |steps| :: SparesDone(states[m], steps[m])
    ensures OnceRun(steps, states) && OnceInv(chain, watch, states[n])
  {
    hide WellFormed, Apply, Enabled, SafeRequest, LeavesHeldAlone, OnceInv, MayBeHeld;
    forall m | 0 <= m < |steps|
      ensures OnceStep(states[m], steps[m])
    {
      SafeRunsExclude(chain, watch, steps, states, m);
      assert SafeStep(states[m], steps[m]) && SparesDone(states[m], steps[m]);
    }
    DeltasExactlyOnce(chain, watch, steps, states, n);
  }

  // ----- why earlier requests must be safe too -----

  /** `requeue --phase vout --features none` on a row in progress. */
  ghost function ByFeatures(): Requeue {
    Requeue([VoutPhase], false, false, {FNone}, None, None)
  }

  ghost function FailedOnly(): Requeue {
    Requeue([VoutPhase], false, true, {}, None, None)
  }

  lemma OneRowRequeued(j: Job, r: Requeue)
    requires r in {ByFeatures(), FailedOnly()} && Selects(r, VoutPhase, 0, j)
    ensures !Refused(r) && Requeued(map[0 := j], r) == map[0 := j.(vout := Pending)]
  {
    var rows := map[0 := j];
    assert Selected(rows, r, VoutPhase) == {0};
    assert Requeued(rows, r) == Mark(RequeueColumns(rows, r, 0), VoutPhase, Selected(rows, r, VoutPhase), Pending);
    MarkOne(rows, VoutPhase, 0, Pending);
  }

  /** A table of one row, of which only the first column has moved. */
  ghost function OneRow(watch: WatchTable, vout: Status, held: set<Hold>): Sys {
    Init(watch).(jobs := map[0 := FRESH.(vout := vout)], held := held)
  }

  lemma FirstRow(chain: seq<Block>, watch: WatchTable)
    requires |chain| > 0
    ensures Enabled(chain, Init(watch), TopUp(0)) && Apply(chain, Init(watch), TopUp(0)) == OneRow(watch, Pending, {})
  {
    assert ToppedUp(map[], 0) == map[0 := FRESH];
  }

  lemma ClaimRow(chain: seq<Block>, watch: WatchTable, w: int, held: set<Hold>)
    ensures var s := OneRow(watch, Pending, held);
            var claim := ClaimOnly(s, w, VoutPhase, 0);
            && claim.Claim? && Enabled(chain, s, claim)
            && Apply(chain, s, claim) == OneRow(watch, InProgress, held + {Hold(w, VoutPhase, 0, Working)})
  {
    ClaimEffect(chain, OneRow(watch, Pending, held), w, VoutPhase, 0);
  }

  lemma RequeueRow(chain: seq<Block>, watch: WatchTable, vout: Status, held: set<Hold>, r: Requeue)
    requires r in {ByFeatures(), FailedOnly()} && Selects(r, VoutPhase, 0, FRESH.(vout := vout))
    ensures var s := OneRow(watch, vout, held);
            Enabled(chain, s, RequeueStep(r)) && Apply(chain, s, RequeueStep(r)) == OneRow(watch, Pending, held)
  {
    OneRowRequeued(FRESH.(vout := vout), r);
  }

  lemma FailRow(chain: seq<Block>, watch: WatchTable, x: Hold, y: Hold)
    requires y.phase == VoutPhase && y.height == 0 && x != y
    ensures var s := OneRow(watch, InProgress, {x} + {y});
            Enabled(chain, s, Fail(y)) && Apply(chain, s, Fail(y)) == OneRow(watch, Failed, {x})
  {
    MarkOne(map[0 := FRESH.(vout := InProgress)], VoutPhase, 0, Failed);
  }

  /**
   Five steps on any chain: a height is claimed, requeued while it is held, claimed again, and failed
   by the second worker.  It is held once and reads as failed, so that a requeue of failed rows is safe
   by its row, and yet that requeue and one claim make two workers hold it.
   */
  lemma {:induction false} UnsafeHistory(chain: seq<Block>, watch: WatchTable)
    returns (steps: seq<Step>, states: seq<Sys>)
    requires |chain| > 0
    ensures |steps| == 5 && IsRun(chain, watch, steps, states)
    ensures var s := states[5];
            && HoldsExclusive(s.held) && SafeRequest(FailedOnly(), s.jobs)
            && Enabled(chain, s, RequeueStep(FailedOnly()))
            && var s1 := Apply(chain, s, RequeueStep(FailedOnly()));
               exists claim: Step ::
                 claim.Claim? && Enabled(chain, s1, claim) && !HoldsExclusive(Apply(chain, s1, claim).held)
  {
    hide Apply, Enabled, OneRow, ClaimOnly;
    var x, y, z := Hold(1, VoutPhase, 0, Working), Hold(2, VoutPhase, 0, Working), Hold(3, VoutPhase, 0, Working);
    FirstRow(chain, watch);
    ClaimRow(chain, watch, 1, {});
    RequeueRow(chain, watch, InProgress, {x}, ByFeatures());
    ClaimRow(chain, watch, 2, {x});
    FailRow(chain, watch, x, y);
    RequeueRow(chain, watch, Failed, {x}, FailedOnly());
    ClaimRow(chain, watch, 3, {x});
    assert {} + {x} == {x};
    var s1, s3 := OneRow(watch, Pending, {}), OneRow(watch, Pending, {x});
    steps := [TopUp(0), ClaimOnly(s1, 1, VoutPhase, 0), RequeueStep(ByFeatures()), ClaimOnly(s3, 2, VoutPhase, 0),
              Fail(y)];
    states := [Init(watch), s1, OneRow(watch, InProgress, {x}), s3, OneRow(watch, InProgress, {x} + {y}),
               OneRow(watch, Failed, {x})];
    OneRowIs(watch, Failed, {x});
    OneRowIs(watch, InProgress, {x} + {z});
    assert x in {x} + {z} && z in {x} + {z};
  }

  lemma OneRowIs(watch: WatchTable, vout: Status, held: set<Hold>)
    ensures OneRow(watch, vout, held).held == held && OneRow(watch, vout, held).jobs == map[0 := FRESH.(vout := vout)]
  {
  }
}
