/** The block_jobs table: three phase columns per height, claimed and finished by workers. */
module Jobs {
  import opened Common
  import opened Sums
  import opened Rows

  datatype Status = Pending | InProgress | Done | Skipped | Failed
  datatype Phase = VoutPhase | VinPhase | AddrPhase
  datatype Job = Job(vout: Status, vin: Status, addr: Status, features: Features)

  type JobRows = map<int, Job>

  const FRESH := Job(Pending, Pending, Pending, FNone)

  function Get(j: Job, p: Phase): Status {
    match p
    case VoutPhase => j.vout
    case VinPhase => j.vin
    case AddrPhase => j.addr
  }

  function Set(j: Job, p: Phase, s: Status): Job {
    match p
    case VoutPhase => j.(vout := s)
    case VinPhase => j.(vin := s)
    case AddrPhase => j.(addr := s)
  }

  /** The phase's extra condition on the columns of the earlier phases. */
  predicate Ready(j: Job, p: Phase) {
    match p
    case VoutPhase => true
    case VinPhase => j.vout in {Done, Skipped}
    case AddrPhase => j.vout in {Done, Skipped} && j.vin == Done
  }

  predicate Terminal(s: Status) {
    s in {Done, Skipped, Failed}
  }

  function Scope(rows: JobRows, p: Phase): set<int> {
    set h | h in rows && Ready(rows[h], p)
  }

  function WithStatus(rows: JobRows, p: Phase, s: Status): set<int> {
    set h | h in rows && Ready(rows[h], p) && Get(rows[h], p) == s
  }

  function Mark(rows: JobRows, p: Phase, hs: set<int>, s: Status): JobRows {
    map h | h in rows :: if h in hs then Set(rows[h], p, s) else rows[h]
  }

  /** The `limit` lowest elements of `from`, or all of it. */
  ghost predicate LowestOf(picked: set<int>, from: set<int>, limit: nat) {
    && picked <= from && |picked| == Min(limit, |from|)
    && forall x, y | x in picked && y in from - picked :: x < y
  }

  // ----- requeue -----

  datatype Requeue = Requeue(columns: seq<Phase>, skipped: bool, failed: bool, features: set<Features>,
                             fromHeight: Option<int>, toHeight: Option<int>)

  predicate Refused(r: Requeue) {
    !r.skipped && !r.failed && r.features == {} && r.fromHeight.None? && r.toHeight.None?
  }

  /** Without a selector every terminal state in the height range; a feature selector asks for no state. */
  predicate Selects(r: Requeue, p: Phase, h: int, j: Job) {
    && (r.fromHeight.Some? ==> h >= r.fromHeight.value)
    && (r.toHeight.Some? ==> h <= r.toHeight.value)
    && if r.skipped || r.failed || r.features != {} then
         || (r.skipped && Get(j, p) == Skipped)
         || (r.failed && Get(j, p) == Failed)
         || j.features in r.features
       else Terminal(Get(j, p))
  }

  function Selected(rows: JobRows, r: Requeue, p: Phase): set<int> {
    set h | h in rows && Selects(r, p, h, rows[h])
  }

  function RequeueColumns(rows: JobRows, r: Requeue, n: nat): JobRows
    requires n <= |r.columns|
  {
    if n == 0 then rows
    else
      var t := RequeueColumns(rows, r, n - 1);
      Mark(t, r.columns[n - 1], Selected(t, r, r.columns[n - 1]), Pending)
  }

  function Requeued(rows: JobRows, r: Requeue): JobRows {
    if Refused(r) then rows else RequeueColumns(rows, r, |r.columns|)
  }

  // ----- progress -----

  datatype Progress = Progress(done: nat, inProgress: nat, pending: nat, skippedFailed: nat)

  ghost function ProgressOf(rows: JobRows, p: Phase): Progress {
    Progress(|WithStatus(rows, p, Done)|, |WithStatus(rows, p, InProgress)|, |WithStatus(rows, p, Pending)|,
             |WithStatus(rows, p, Skipped) + WithStatus(rows, p, Failed)|)
  }

  /** The monitor shuts its process down on this reading. */
  predicate StopTest(g: Progress) {
    g.pending == 0 && g.inProgress == 0 && g.done + g.skippedFailed > 0
  }

  /** The heights 0, ..., latest have a row, and no others. */
  ghost predicate Contiguous(rows: JobRows) {
    rows.Keys == Below(|rows|)
  }

  ghost function ToppedUp(rows: JobRows, tip: int): JobRows
  {
    map h | h in Below(Max(|rows|, tip + 1)) :: if h in rows then rows[h] else FRESH
  }

  ghost predicate AllBelow(xs: set<int>, ys: set<int>) {
    forall x, y | x in xs && y in ys :: x < y
  }

  lemma TakeOne(left: set<int>, taken: set<int>, heights: seq<int>, m: int)
    requires AllBelow(taken, left) && m in left && forall x | x in left :: m <= x
    requires Elems(heights) == taken && Distinct(heights)
    ensures AllBelow(taken + {m}, left - {m}) && m !in taken
    ensures Elems(heights + [m]) == taken + {m} && Distinct(heights + [m])
  {
    assert m !in taken;
    assert m !in heights by {
      assert m !in Elems(heights);
    }
  }

  /** ORDER BY height LIMIT `limit`. */
  method TakeLowest(from: set<int>, limit: nat) returns (heights: seq<int>)
    ensures LowestOf(Elems(heights), from, limit) && Distinct(heights)
  {
    hide Elems, Distinct, AllBelow;
    var left, taken: set<int> := from, {};
    heights := [];
    NothingTaken(from);
    while |heights| < limit && left != {}
      invariant |heights| <= limit && |taken| == |heights|
      invariant Elems(heights) == taken && Distinct(heights) && AllBelow(taken, left)
      invariant taken !! left && taken + left == from
      decreases |left|
    {
      ghost var least := LeastElement(left);
      var m :| m in left && forall x | x in left :: m <= x;
      TakeOne(left, taken, heights, m);
      heights, left, taken := heights + [m], left - {m}, taken + {m};
    }
    LowestTaken(from, taken, left, limit);
  }

  lemma NothingTaken(from: set<int>)
    ensures Elems<int>([]) == {} && Distinct<int>([]) && AllBelow({}, from)
  {
  }

  lemma LowestTaken(from: set<int>, taken: set<int>, left: set<int>, limit: nat)
    requires taken !! left && taken + left == from && AllBelow(taken, left)
    requires |taken| <= limit && (|taken| == limit || left == {})
    ensures LowestOf(taken, from, limit)
  {
    assert left == from - taken && |from| == |taken| + |left|;
  }

  class JobTable {
    var rows: JobRows

    constructor ()
      ensures rows == map[]
    {
      rows := map[];
    }

    /** Claims up to `batch` pending heights, skipping rows other transactions hold locked. */
    method ClaimJobs(p: Phase, batch: nat, locked: set<int>) returns (heights: seq<int>)
      modifies this
      ensures LowestOf(Elems(heights), WithStatus(old(rows), p, Pending) - locked, batch)
      ensures Distinct(heights)
      ensures rows == Mark(old(rows), p, Elems(heights), InProgress)
    {
      heights := TakeLowest(WithStatus(rows, p, Pending) - locked, batch);
      var claimed := set h | h in heights;
      assert claimed == Elems(heights);
      rows := Mark(rows, p, claimed, InProgress);
    }

    method MarkStatus(p: Phase, h: int, s: Status, features: Option<Features>)
      modifies this
      ensures rows == map k | k in old(rows) ::
                        if k != h then old(rows)[k]
                        else if features.Some? then Set(old(rows)[k], p, s).(features := features.value)
                        else Set(old(rows)[k], p, s)
    {
      if h in rows {
        var j := Set(rows[h], p, s);
        rows := rows[h := if features.Some? then j.(features := features.value) else j];
      }
    }

    /** `stale` are the heights whose row was not touched for the staleness time. */
    method ResetAbandoned(p: Phase, stale: set<int>) returns (count: nat)
      modifies this
      ensures rows.Keys == old(rows.Keys)
      ensures forall h | h in rows :: rows[h] == Set(old(rows)[h], p, Get(rows[h], p))
      ensures forall h | h in rows && h in stale :: Get(rows[h], p) != InProgress
      ensures forall h | h in rows :: Get(rows[h], p) != Get(old(rows)[h], p) <==>
              h in stale && Get(old(rows)[h], p) == InProgress
      ensures forall h | h in rows :: Get(rows[h], p) != Get(old(rows)[h], p) ==> Get(rows[h], p) == Pending
      ensures count == |set h | h in rows && rows[h] != old(rows)[h]|
    {
      var hit := set h | h in rows && h in stale && Get(rows[h], p) == InProgress;
      MarkChanges(rows, p, hit, Pending);
      rows := Mark(rows, p, hit, Pending);
      count := |hit|;
      assert forall h | h in rows :: rows[h] != old(rows)[h] <==> h in hit;
      assert hit == set h | h in rows && rows[h] != old(rows)[h];
    }

    method PhaseProgress(p: Phase) returns (g: Progress, latestDone: int)
      ensures g == ProgressOf(rows, p)
      ensures var fin := WithStatus(rows, p, Done) + WithStatus(rows, p, Skipped);
              if fin == {} then latestDone == 0
              else latestDone in fin && forall h | h in fin :: h <= latestDone
    {
      g := Progress(|WithStatus(rows, p, Done)|, |WithStatus(rows, p, InProgress)|, |WithStatus(rows, p, Pending)|,
                    |WithStatus(rows, p, Skipped) + WithStatus(rows, p, Failed)|);
      var fin := WithStatus(rows, p, Done) + WithStatus(rows, p, Skipped);
      latestDone := MaxOr(fin, 0);
    }

    /** Adds pending rows above the highest row up to the tip; gaps below it stay. */
    method TopUpJobs(tip: int) returns (added: int)
      modifies this
      ensures rows.Keys == old(rows.Keys) + Between(Latest(old(rows)), tip)
      ensures forall h | h in rows :: rows[h] == if h in old(rows) then old(rows)[h] else FRESH
      ensures added == |Between(Latest(old(rows)), tip)| == |rows| - |old(rows)|
      ensures Contiguous(old(rows)) ==> rows == ToppedUp(old(rows), tip) && Contiguous(rows)
    {
      hide Below, Between, Contiguous, ToppedUp, Latest, Extended;
      var latest := MaxOr(rows.Keys, -1);
      LatestIs(rows, latest);
      ExtendedNone(rows, latest, tip);
      if tip <= latest {
        Added(old(rows), tip);
        return 0;
      }
      for g := latest + 1 to tip + 1
        invariant rows == Extended(old(rows), latest, g - 1)
      {
        ExtendedStep(old(rows), latest, g);
        rows := rows[g := FRESH];
      }
      Added(old(rows), tip);
      added := tip - latest;
    }

    method RequeueJobs(r: Requeue) returns (ok: bool)
      modifies this
      ensures ok == !Refused(r) && rows == Requeued(old(rows), r)
      // only a request that names neither state, feature nor height is refused
      ensures ok <==> r != Requeue(r.columns, false, false, {}, None, None)
      ensures !ok ==> rows == old(rows)
    {
      if Refused(r) {
        return false;
      }
      for n := 0 to |r.columns|
        invariant rows == RequeueColumns(old(rows), r, n)
      {
        rows := Mark(rows, r.columns[n], Selected(rows, r, r.columns[n]), Pending);
      }
      ok := true;
    }
  }

  /** MAX(height), -1 for an empty table. */
  ghost function Latest(rows: JobRows): (m: int)
    ensures if rows == map[] then m == -1 else m in rows && forall h | h in rows :: h <= m
  {
    var g := Greatest(rows.Keys);
    if g.None? then -1 else g.value
  }

  /** {low + 1, ..., high}. */
  ghost function Between(low: int, high: int): (s: set<int>)
    ensures forall h :: h in s <==> low < h <= high
    decreases high - low
  {
    if high <= low then {} else Between(low, high - 1) + {high}
  }

  lemma {:induction false} BetweenSize(low: int, high: int)
    ensures |Between(low, high)| == Max(0, high - low)
    decreases high - low
  {
    if high > low {
      BetweenSize(low, high - 1);
    }
  }

  lemma LatestIs(rows: JobRows, latest: int)
    requires if rows.Keys == {} then latest == -1 else latest in rows.Keys && forall h | h in rows.Keys :: h <= latest
    ensures latest == Latest(rows)
  {
  }

  ghost function Extended(rows: JobRows, low: int, high: int): JobRows {
    map h | h in rows.Keys + Between(low, high) :: if h in rows then rows[h] else FRESH
  }

  lemma ExtendedNone(rows: JobRows, low: int, tip: int)
    ensures Extended(rows, low, low) == rows && (tip <= low ==> Extended(rows, low, tip) == rows)
  {
  }

  lemma ExtendedStep(rows: JobRows, latest: int, g: int)
    requires latest == Latest(rows) < g
    ensures Extended(rows, latest, g) == Extended(rows, latest, g - 1)[g := FRESH]
  {
    hide Between;
    assert g !in rows by {
      assert rows != map[] ==> forall h | h in rows :: h <= latest;
    }
  }

  lemma MarkChanges(rows: JobRows, p: Phase, hs: set<int>, st: Status)
    requires forall h | h in hs :: h in rows && Get(rows[h], p) != st
    ensures forall h | h in rows :: Mark(rows, p, hs, st)[h] != rows[h] <==> h in hs
  {
    forall h | h in hs
      ensures Get(Set(rows[h], p, st), p) == st
    {
    }
  }

  lemma Added(before: JobRows, tip: int)
    ensures var after := Extended(before, Latest(before), tip);
            && after.Keys == before.Keys + Between(Latest(before), tip)
            && (forall h | h in after :: after[h] == if h in before then before[h] else FRESH)
            && |Between(Latest(before), tip)| == |after| - |before| == Max(0, tip - Latest(before))
            && (Contiguous(before) ==> after == ToppedUp(before, tip) && Contiguous(after))
  {
    hide Below, Between;
    var after := Extended(before, Latest(before), tip);
    BetweenSize(Latest(before), tip);
    assert before.Keys !! Between(Latest(before), tip);
    assert after.Keys == before.Keys + Between(Latest(before), tip);
    assert |after.Keys| == |before.Keys| + |Between(Latest(before), tip)|;
    if Contiguous(before) {
      BelowTop(|before|, Latest(before));
      assert after.Keys == Below(Max(|before|, tip + 1));
      ToppedUpIs(before, after, tip);
    }
  }

  lemma ToppedUpIs(before: JobRows, after: JobRows, tip: int)
    requires after.Keys == Below(Max(|before|, tip + 1))
    requires forall h | h in after :: after[h] == if h in before then before[h] else FRESH
    ensures after == ToppedUp(before, tip)
    ensures Contiguous(after) && |after| == Max(|before|, tip + 1)
  {
    hide Below;
    BelowSize(Max(|before|, tip + 1));
    assert |after.Keys| == |after|;
  }

  method MaxOr(s: set<int>, default: int) returns (m: int)
    ensures if s == {} then m == default else m in s && forall x | x in s :: x <= m
  {
    if s == {} {
      return default;
    }
    ghost var m0 := GreatestElement(s);
    m :| m in s && forall x | x in s :: x <= m;
  }

  lemma {:induction false} BelowSize(n: nat)
    ensures |Below(n)| == n
  {
    if n > 0 {
      BelowSize(n - 1);
    }
  }

  lemma BelowTop(n: nat, latest: int)
    requires if Below(n) == {} then latest == -1 else latest in Below(n) && forall x | x in Below(n) :: x <= latest
    ensures latest == n - 1
  {
    if n > 0 {
      assert n - 1 in Below(n);
    }
  }

  // ----- what a progress reading says -----

  lemma ScopeSplits(rows: JobRows, p: Phase)
    ensures Scope(rows, p) == WithStatus(rows, p, Done) + WithStatus(rows, p, InProgress) + WithStatus(rows, p, Pending)
                              + (WithStatus(rows, p, Skipped) + WithStatus(rows, p, Failed))
  {
    forall h | h in Scope(rows, p)
      ensures h in WithStatus(rows, p, Get(rows[h], p))
              && Get(rows[h], p) in {Done, InProgress, Pending, Skipped, Failed}
    {
      match Get(rows[h], p)
      case Pending =>
      case InProgress =>
      case Done =>
      case Skipped =>
      case Failed =>
    }
  }

  lemma StatusesDisjoint(rows: JobRows, p: Phase)
    ensures forall s, s' | s != s' :: WithStatus(rows, p, s) !! WithStatus(rows, p, s')
  {
  }

  /** The four counts partition the rows in scope. */
  lemma CountsPartition(rows: JobRows, p: Phase)
    ensures var g := ProgressOf(rows, p); g.done + g.inProgress + g.pending + g.skippedFailed == |Scope(rows, p)|
  {
    ScopeSplits(rows, p);
    StatusesDisjoint(rows, p);
    hide Scope, WithStatus;
    var d, i, w := WithStatus(rows, p, Done), WithStatus(rows, p, InProgress), WithStatus(rows, p, Pending);
    var f := WithStatus(rows, p, Skipped) + WithStatus(rows, p, Failed);
    assert d !! i && (d + i) !! w && (d + i + w) !! f;
  }

  lemma MarkedStatus(rows: JobRows, p: Phase, hs: set<int>, to: Status, h: int, s: Status)
    ensures h in WithStatus(Mark(rows, p, hs, to), p, s) <==>
            if h in hs then h in rows && Ready(rows[h], p) && s == to else h in WithStatus(rows, p, s)
  {
    if h in rows && h in hs {
      assert Ready(Set(rows[h], p, to), p) == Ready(rows[h], p) && Get(Set(rows[h], p, to), p) == to;
    }
  }

  lemma Moved(rows: JobRows, p: Phase, hs: set<int>, from: Status, to: Status, s: Status)
    requires from != to && forall h | h in hs :: h in rows && Ready(rows[h], p) && Get(rows[h], p) == from
    ensures hs <= WithStatus(rows, p, from) && hs !! WithStatus(rows, p, to)
    ensures WithStatus(Mark(rows, p, hs, to), p, s)
            == if s == from then WithStatus(rows, p, s) - hs
               else if s == to then WithStatus(rows, p, s) + hs else WithStatus(rows, p, s)
  {
    forall h | h in hs
      ensures h in WithStatus(rows, p, from) && h !in WithStatus(rows, p, to)
      ensures s != from ==> h !in WithStatus(rows, p, s)
      ensures Ready(rows[h], p)
    {
    }
    hide WithStatus, Mark, Ready;
    forall h
      ensures h in WithStatus(Mark(rows, p, hs, to), p, s) <==>
              if h in hs then h in rows && Ready(rows[h], p) && s == to else h in WithStatus(rows, p, s)
    {
      MarkedStatus(rows, p, hs, to, h, s);
    }
  }

  /** Marking rows of one status with another moves their number, and no other. */
  lemma CountMoves(rows: JobRows, p: Phase, hs: set<int>, from: Status, to: Status, s: Status)
    requires from != to && forall h | h in hs :: h in rows && Ready(rows[h], p) && Get(rows[h], p) == from
    ensures |WithStatus(Mark(rows, p, hs, to), p, s)| ==
            |WithStatus(rows, p, s)| + if s == from then -|hs| else if s == to then |hs| else 0
  {
    hide WithStatus, Mark, Ready;
    Moved(rows, p, hs, from, to, s);
    var was := WithStatus(rows, p, s);
    if s == from {
      assert was == (was - hs) + hs;
    }
  }

  lemma OverSum(rows: JobRows, p: Phase)
    ensures |WithStatus(rows, p, Skipped) + WithStatus(rows, p, Failed)|
            == |WithStatus(rows, p, Skipped)| + |WithStatus(rows, p, Failed)|
  {
    StatusesDisjoint(rows, p);
    hide WithStatus;
  }

  /** Claiming moves rows from the pending count to that in progress. */
  lemma ClaimMoves(rows: JobRows, p: Phase, hs: set<int>)
    requires forall h | h in hs :: h in rows && Ready(rows[h], p) && Get(rows[h], p) == Pending
    ensures var g := ProgressOf(rows, p);
            g.pending >= |hs| && ProgressOf(Mark(rows, p, hs, InProgress), p)
                                 == g.(pending := g.pending - |hs|, inProgress := g.inProgress + |hs|)
  {
    hide WithStatus, Mark;
    forall s: Status
      ensures |WithStatus(Mark(rows, p, hs, InProgress), p, s)| ==
              |WithStatus(rows, p, s)| + if s == Pending then -|hs| else if s == InProgress then |hs| else 0
    {
      CountMoves(rows, p, hs, Pending, InProgress, s);
    }
    OverSum(rows, p);
    OverSum(Mark(rows, p, hs, InProgress), p);
  }

  /** Finishing moves a row from the count in progress to the one its outcome is counted in. */
  lemma FinishMoves(rows: JobRows, p: Phase, h: int, s: Status)
    requires h in rows && Ready(rows[h], p) && Get(rows[h], p) == InProgress && Terminal(s)
    ensures var g, after := ProgressOf(rows, p), ProgressOf(Mark(rows, p, {h}, s), p);
            && g.inProgress > 0
            && after == if s == Done then g.(inProgress := g.inProgress - 1, done := g.done + 1)
                        else g.(inProgress := g.inProgress - 1, skippedFailed := g.skippedFailed + 1)
  {
    hide WithStatus, Mark;
    forall t: Status
      ensures |WithStatus(Mark(rows, p, {h}, s), p, t)| ==
              |WithStatus(rows, p, t)| + if t == InProgress then -1 else if t == s then 1 else 0
    {
      CountMoves(rows, p, {h}, InProgress, s, t);
    }
    OverSum(rows, p);
    OverSum(Mark(rows, p, {h}, s), p);
  }

  /**
   The monitor stops exactly when the phase has rows in scope and all of them are terminal; with an
   empty scope it never does.
   */
  lemma StopsIffAllTerminal(rows: JobRows, p: Phase)
    ensures StopTest(ProgressOf(rows, p)) <==>
            Scope(rows, p) != {} && forall h | h in Scope(rows, p) :: Terminal(Get(rows[h], p))
  {
    CountsPartition(rows, p);
    var g := ProgressOf(rows, p);
    if g.pending == 0 && g.inProgress == 0 {
      forall h | h in Scope(rows, p)
        ensures Terminal(Get(rows[h], p))
      {
        assert h !in WithStatus(rows, p, Pending) && h !in WithStatus(rows, p, InProgress);
      }
    }
    if forall h | h in Scope(rows, p) :: Terminal(Get(rows[h], p)) {
      assert WithStatus(rows, p, Pending) == {} && WithStatus(rows, p, InProgress) == {};
    }
  }
}
