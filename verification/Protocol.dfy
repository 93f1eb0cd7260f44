/**
 The phases as a concurrent protocol: workers claim heights, commit data and status together, fail,
 crash, are reset, and operators requeue.  One step is one database transaction.
 */
module Protocol {
  import opened Common
  import opened Chain
  import opened Rows
  import opened Extract
  import opened Ledger
  import opened Backfill
  import opened Confluence
  import opened History
  import opened SoundTables
  import opened Watch
  import opened Jobs

  /** A skipped block is marked in two transactions; between them its worker still holds it. */
  datatype Stage = Working | SkipMarked(hasPrevouts: bool)

  /** Ghost knowledge: which live worker is processing which claimed height. */
  datatype Hold = Hold(worker: int, phase: Phase, height: int, stage: Stage)

  /** History: a committed address scan, with the tables its statement read. */
  datatype Commit = Commit(height: int, db: Tables)

  datatype Sys = Sys(jobs: JobRows, db: Tables, watch: WatchTable, held: set<Hold>, log: seq<Commit>)

  datatype Step =
    | TopUp(tip: int)
    | Claim(worker: int, phase: Phase, limit: nat, locked: set<int>, picked: set<int>)
    | ExtractStep(worker: int, height: int, hasPrevouts: bool)
    | FinishSkip(worker: int, height: int, hasPrevouts: bool)
    | BackfillStep(worker: int, height: int, hasPrevouts: bool)
    | ScanStep(worker: int, height: int)
    | Fail(hold: Hold)
    | Drop(worker: int)
    | Reset(phase: Phase, heights: set<int>)
    | RequeueStep(request: Requeue)

  ghost function Init(watch: WatchTable): Sys {
    Sys(map[], EMPTY, watch, {}, [])
  }

  ghost predicate IsHeld(s: Sys, p: Phase, h: int) {
    exists x | x in s.held :: x.phase == p && x.height == h
  }

  ghost predicate Enabled(chain: seq<Block>, s: Sys, step: Step) {
    match step
    case TopUp(tip) => -1 <= tip < |chain|
    case Claim(w, p, limit, locked, picked) => LowestOf(picked, WithStatus(s.jobs, p, Pending) - locked, limit)
    case ExtractStep(w, h, p) =>
      Hold(w, VoutPhase, h, Working) in s.held && 0 <= h < |chain| && ExtractBlock(s.db, chain[h], h, p).Some?
    case FinishSkip(w, h, p) => Hold(w, VoutPhase, h, SkipMarked(p)) in s.held
    case BackfillStep(w, h, p) =>
      Hold(w, VinPhase, h, Working) in s.held && 0 <= h < |chain| && BackfillBlock(s.db, chain[h], h, p).Some?
    case ScanStep(w, h) => Hold(w, AddrPhase, h, Working) in s.held && 0 <= h < |chain| && chain[h].time.Some?
    case Fail(hold) => hold in s.held
    case Drop(w) => true
    case Reset(p, hs) => forall h | h in hs :: h in s.jobs && Get(s.jobs[h], p) == InProgress && !IsHeld(s, p, h)
    case RequeueStep(r) => true
  }

  ghost function WithFeatures(jobs: JobRows, h: int, f: Features): JobRows {
    map k | k in jobs :: if k == h then jobs[k].(features := f) else jobs[k]
  }

  ghost function NewHolds(w: int, p: Phase, hs: set<int>): set<Hold> {
    set h | h in hs :: Hold(w, p, h, Working)
  }

  ghost function Apply(chain: seq<Block>, s: Sys, step: Step): Sys
    requires Enabled(chain, s, step)
  {
    match step
    case TopUp(tip) => s.(jobs := ToppedUp(s.jobs, tip))
    case Claim(w, p, limit, locked, picked) =>
      s.(jobs := Mark(s.jobs, p, picked, InProgress), held := s.held + NewHolds(w, p, picked))
    case ExtractStep(w, h, p) =>
      var rest := s.held - {Hold(w, VoutPhase, h, Working)};
      if Skips(chain[h], h, p) then
        s.(jobs := Mark(s.jobs, VoutPhase, {h}, Skipped),
           held := if p then rest + {Hold(w, VoutPhase, h, SkipMarked(p))} else rest)
      else
        var marked := Mark(s.jobs, VoutPhase, {h}, Done);
        s.(db := ExtractBlock(s.db, chain[h], h, p).value,
           jobs := WithFeatures(if p then Mark(marked, VinPhase, {h}, Done) else marked, h,
                                Staged(chain[h], h, p).value.features),
           held := rest)
    case FinishSkip(w, h, p) =>
      s.(jobs := Mark(s.jobs, VinPhase, {h}, Done), held := s.held - {Hold(w, VoutPhase, h, SkipMarked(p))})
    case BackfillStep(w, h, p) =>
      s.(db := BackfillBlock(s.db, chain[h], h, p).value, jobs := Mark(s.jobs, VinPhase, {h}, Done),
         held := s.held - {Hold(w, VinPhase, h, Working)})
    case ScanStep(w, h) =>
      s.(watch := ScanHeight(s.db, chain[h].hash, h, chain[h].time.value, s.watch),
         jobs := Mark(s.jobs, AddrPhase, {h}, Done),
         held := s.held - {Hold(w, AddrPhase, h, Working)},
         log := s.log + [Commit(h, s.db)])
    case Fail(hold) =>
      s.(jobs := Mark(s.jobs, hold.phase, {hold.height}, Failed), held := s.held - {hold})
    case Drop(w) => s.(held := set x | x in s.held && x.worker != w)
    case Reset(p, hs) => s.(jobs := Mark(s.jobs, p, hs, Pending))
    case RequeueStep(r) => s.(jobs := Requeued(s.jobs, r))
  }

  /** `states` is the run of `steps` from an empty database. */
  ghost predicate IsRun(chain: seq<Block>, watch: WatchTable, steps: seq<Step>, states: seq<Sys>) {
    && |states| == |steps| + 1 && states[0] == Init(watch)
    && forall n | 0 <= n < |steps| ::
         Enabled(chain, states[n], steps[n]) && states[n + 1] == Apply(chain, states[n], steps[n])
  }

  // ----- status never runs ahead of data -----

  ghost predicate Backed(chain: seq<Block>, db: Tables, h: int, j: Job) {
    && 0 <= h < |chain| && chain[h].time.Some?
    && (j.vout == Done ==> OutsStored(chain, db, h))
    && (j.vin == Done ==> SpendsStored(chain, db, h))
    && (j.vout == Skipped ==> !Kept(chain[h]))
  }

  ghost predicate DataInv(chain: seq<Block>, s: Sys) {
    && Sound(chain, s.db)
    && Contiguous(s.jobs)
    && (forall h | h in s.jobs :: Backed(chain, s.db, h, s.jobs[h]))
    && (forall x | x in s.held && x.stage.SkipMarked? :: 0 <= x.height < |chain| && !Kept(chain[x.height]))
  }

  /** No phase column of the row turns done or skipped. */
  ghost predicate Clears(j: Job, j': Job) {
    (j'.vout == j.vout || j'.vout !in {Done, Skipped}) && (j'.vin == j.vin || j'.vin != Done)
  }

  ghost predicate AllBacked(chain: seq<Block>, db: Tables, jobs: JobRows) {
    forall h | h in jobs :: Backed(chain, db, h, jobs[h])
  }

  lemma BackedGrows(chain: seq<Block>, db: Tables, db': Tables, h: int, j: Job, j': Job)
    requires Backed(chain, db, h, j) && Grows(db, db') && Clears(j, j')
    ensures Backed(chain, db', h, j')
  {
    hide AllTxKeys, AllIoKeys, AllSpendKeys, Kept;
  }

  lemma ClearsKeepsBacked(chain: seq<Block>, db: Tables, jobs: JobRows, jobs': JobRows)
    requires AllBacked(chain, db, jobs) && jobs'.Keys == jobs.Keys && forall h | h in jobs :: Clears(jobs[h], jobs'[h])
    ensures AllBacked(chain, db, jobs')
  {
    hide Backed, Clears;
    forall h | h in jobs'
      ensures Backed(chain, db, h, jobs'[h])
    {
      BackedGrows(chain, db, db, h, jobs[h], jobs'[h]);
    }
  }

  /** One height gets new statuses that the grown tables back; all others stay. */
  lemma FinishKeepsBacked(chain: seq<Block>, db: Tables, db': Tables, jobs: JobRows, jobs': JobRows, h: int)
    requires AllBacked(chain, db, jobs) && Grows(db, db') && jobs'.Keys == jobs.Keys
    requires forall k | k in jobs && k != h :: jobs'[k] == jobs[k]
    requires h in jobs ==> Backed(chain, db', h, jobs'[h])
    ensures AllBacked(chain, db', jobs')
  {
    hide Backed;
    forall k | k in jobs'
      ensures Backed(chain, db', k, jobs'[k])
    {
      if k != h {
        BackedGrows(chain, db, db', k, jobs[k], jobs'[k]);
      }
    }
  }

  lemma {:induction false} RequeueEffect(rows: JobRows, r: Requeue, n: nat, h: int, p: Phase)
    requires n <= |r.columns| && h in rows
    ensures RequeueColumns(rows, r, n).Keys == rows.Keys
    ensures var j := RequeueColumns(rows, r, n)[h];
            && j.features == rows[h].features
            && Get(j, p) == if p in r.columns[..n] && Selects(r, p, h, rows[h]) then Pending else Get(rows[h], p)
  {
    hide Selects;
    if n > 0 {
      RequeueEffect(rows, r, n - 1, h, p);
      SelectsByColumn(r, p, h, rows[h], RequeueColumns(rows, r, n - 1)[h]);
      assert r.columns[..n] == r.columns[..n - 1] + [r.columns[n - 1]];
    }
  }

  /** A row is selected for a column by that column, its features and its height. */
  lemma SelectsByColumn(r: Requeue, p: Phase, h: int, j: Job, j': Job)
    requires j.features == j'.features
    ensures Get(j, p) == Get(j', p) ==> Selects(r, p, h, j) == Selects(r, p, h, j')
  {
  }

  /** A requeue resets the selected columns of the selected rows to pending, and nothing else. */
  lemma RequeuedIs(rows: JobRows, r: Requeue, h: int, p: Phase)
    requires h in rows
    ensures Requeued(rows, r).Keys == rows.Keys && Requeued(rows, r)[h].features == rows[h].features
    ensures Get(Requeued(rows, r)[h], p)
            == if !Refused(r) && p in r.columns && Selects(r, p, h, rows[h]) then Pending else Get(rows[h], p)
  {
    RequeueEffect(rows, r, |r.columns|, h, p);
    assert r.columns[..|r.columns|] == r.columns;
  }

  lemma {:induction false} RequeueKeys(rows: JobRows, r: Requeue, n: nat)
    requires n <= |r.columns|
    ensures RequeueColumns(rows, r, n).Keys == rows.Keys
  {
    if n > 0 {
      RequeueKeys(rows, r, n - 1);
    }
  }

  lemma RequeuedKeys(rows: JobRows, r: Requeue)
    ensures Requeued(rows, r).Keys == rows.Keys
  {
    RequeueKeys(rows, r, |r.columns|);
  }

  lemma RequeueClears(rows: JobRows, r: Requeue)
    ensures Requeued(rows, r).Keys == rows.Keys
    ensures forall h | h in rows :: Clears(rows[h], Requeued(rows, r)[h])
  {
    RequeueKeys(rows, r, |r.columns|);
    forall h | h in rows
      ensures Clears(rows[h], Requeued(rows, r)[h])
    {
      hide Requeued;
      RequeuedIs(rows, r, h, VoutPhase);
      RequeuedIs(rows, r, h, VinPhase);
      var j, j' := rows[h], Requeued(rows, r)[h];
      assert Get(j', VoutPhase) == j'.vout && Get(j, VoutPhase) == j.vout;
      assert Get(j', VinPhase) == j'.vin && Get(j, VinPhase) == j.vin;
    }
  }

  /** Steps that only clear statuses keep the data invariant. */
  lemma ClearingStep(chain: seq<Block>, s: Sys, s': Sys)
    requires DataInv(chain, s) && s'.db == s.db && s'.jobs.Keys == s.jobs.Keys
    requires forall h | h in s.jobs :: Clears(s.jobs[h], s'.jobs[h])
    requires forall x | x in s'.held && x.stage.SkipMarked? :: x in s.held
    ensures DataInv(chain, s')
  {
    hide Sound, Backed, Clears, Kept;
    ClearsKeepsBacked(chain, s.db, s.jobs, s'.jobs);
    SameSize(s.jobs, s'.jobs);
  }

  lemma SameSize(a: JobRows, b: JobRows)
    requires a.Keys == b.Keys && Contiguous(a)
    ensures Contiguous(b)
  {
    assert |a.Keys| == |a| && |b.Keys| == |b|;
  }

  lemma StepKeepsData(chain: seq<Block>, s: Sys, step: Step)
    requires WellFormed(chain) && DataInv(chain, s) && Enabled(chain, s, step)
    ensures DataInv(chain, Apply(chain, s, step))
  {
    hide Sound, Kept, WellFormed, OutsStored, SpendsStored, ExtractBlock, BackfillBlock, Contiguous;
    var s' := Apply(chain, s, step);
    match step
    case TopUp(tip) => TopUpKeepsData(chain, s, tip);
    case Claim(w, p, limit, locked, picked) => ClearingStep(chain, s, s');
    case ExtractStep(w, h, p) => ExtractKeepsData(chain, s, w, h, p);
    case FinishSkip(w, h, p) => FinishSkipKeepsData(chain, s, w, h, p);
    case BackfillStep(w, h, p) => BackfillKeepsData(chain, s, w, h, p);
    case ScanStep(w, h) => ClearingStep(chain, s, s');
    case Fail(hold) => ClearingStep(chain, s, s');
    case Drop(w) => ClearingStep(chain, s, s');
    case Reset(p, hs) => ClearingStep(chain, s, s');
    case RequeueStep(r) =>
      RequeueClears(s.jobs, r);
      ClearingStep(chain, s, s');
  }

  lemma TopUpKeepsData(chain: seq<Block>, s: Sys, tip: int)
    requires WellFormed(chain) && DataInv(chain, s) && tip < |chain|
    ensures DataInv(chain, s.(jobs := ToppedUp(s.jobs, tip)))
  {
    hide Sound, Kept, OutsStored, SpendsStored, WellFormed, Below, ToppedUp;
    var jobs := ToppedUp(s.jobs, tip);
    ToppedUpRows(s.jobs, tip);
    ToppedUpIs(s.jobs, jobs, tip);
    forall h | h in jobs
      ensures Backed(chain, s.db, h, jobs[h])
    {
      if h !in s.jobs {
        WellFormedBlock(chain, h);
      }
    }
  }

  lemma ToppedUpRows(jobs: JobRows, tip: int)
    requires Contiguous(jobs)
    ensures var t := ToppedUp(jobs, tip);
            && t.Keys == Below(Max(|jobs|, tip + 1))
            && forall h | h in t :: t[h] == if h in jobs then jobs[h] else FRESH
    ensures forall h | h in ToppedUp(jobs, tip) && h !in jobs :: 0 <= h <= tip
  {
  }

  lemma ExtractKeepsData(chain: seq<Block>, s: Sys, w: int, h: int, p: bool)
    requires WellFormed(chain) && DataInv(chain, s) && Enabled(chain, s, ExtractStep(w, h, p))
    ensures DataInv(chain, Apply(chain, s, ExtractStep(w, h, p)))
  {
    hide Sound, Kept, WellFormed, OutsStored, SpendsStored, ExtractBlock, Contiguous, Grows, BackfillBlock, ScanHeight,
         Requeued, ToppedUp, LowestOf, Staged, Below;
    var s' := Apply(chain, s, ExtractStep(w, h, p));
    ExtractKeepsSound(chain, s.db, h, p);
    SameSize(s.jobs, s'.jobs);
    if Skips(chain[h], h, p) {
      assert Grows(s.db, s.db) by {
        GrowsSelf(s.db);
      }
      FinishKeepsBacked(chain, s.db, s.db, s.jobs, s'.jobs, h);
    } else {
      if h in s.jobs {
        BackedGrows(chain, s.db, s'.db, h, s.jobs[h], s.jobs[h]);
      }
      FinishKeepsBacked(chain, s.db, s'.db, s.jobs, s'.jobs, h);
    }
  }

  lemma FinishSkipKeepsData(chain: seq<Block>, s: Sys, w: int, h: int, p: bool)
    requires WellFormed(chain) && DataInv(chain, s) && Enabled(chain, s, FinishSkip(w, h, p))
    ensures DataInv(chain, Apply(chain, s, FinishSkip(w, h, p)))
  {
    hide Sound, WellFormed, OutsStored, Contiguous, Kept, AllSpendKeys;
    var s' := Apply(chain, s, FinishSkip(w, h, p));
    SameSize(s.jobs, s'.jobs);
    GrowsSelf(s.db);
    WellFormedBlock(chain, h);
    SkippedHasNoSpends(chain, h);
    FinishKeepsBacked(chain, s.db, s.db, s.jobs, s'.jobs, h);
  }

  lemma BackfillKeepsData(chain: seq<Block>, s: Sys, w: int, h: int, p: bool)
    requires WellFormed(chain) && DataInv(chain, s) && Enabled(chain, s, BackfillStep(w, h, p))
    ensures DataInv(chain, Apply(chain, s, BackfillStep(w, h, p)))
  {
    hide Sound, Kept, WellFormed, OutsStored, SpendsStored, BackfillBlock, Contiguous, Grows;
    var s' := Apply(chain, s, BackfillStep(w, h, p));
    BackfillKeepsSound(chain, s.db, h, p);
    SameSize(s.jobs, s'.jobs);
    if h in s.jobs {
      BackedGrows(chain, s.db, s'.db, h, s.jobs[h], s.jobs[h]);
    }
    FinishKeepsBacked(chain, s.db, s'.db, s.jobs, s'.jobs, h);
  }

  /**
   In every reachable state, after any interleaving of claims, commits, failures, crashes, resets
   and requeues: done means stored, skipped means empty, and every stored row is a row of the chain.
   */
  lemma {:induction false} StatusNeverAheadOfData(chain: seq<Block>, watch: WatchTable, steps: seq<Step>,
                                                  states: seq<Sys>, n: nat)
    requires WellFormed(chain) && IsRun(chain, watch, steps, states) && n <= |steps|
    ensures DataInv(chain, states[n])
  {
    hide WellFormed, Apply, Enabled, Sound, Backed;
    if n == 0 {
      NothingYet(chain, watch);
    } else {
      StatusNeverAheadOfData(chain, watch, steps, states, n - 1);
      StepKeepsData(chain, states[n - 1], steps[n - 1]);
    }
  }

  lemma NothingYet(chain: seq<Block>, watch: WatchTable)
    ensures DataInv(chain, Init(watch))
  {
    assert Init(watch).jobs.Keys == Below(0);
  }
}
