/**
 Runs of writes: confluence, idempotence, the equivalence of the two pipelines, and what a partial
 backfill leaves behind for good.
 */
module TwoPass {
  import opened Common
  import opened Chain
  import opened Rows
  import opened Extract
  import opened Ledger
  import opened Backfill
  import opened Confluence
  import opened History

  /** One committed transaction of the extract or the backfill phase. */
  datatype Write = ExtractW(height: int, hasPrevouts: bool) | BackfillW(height: int, hasPrevouts: bool)

  /** An error rolls the transaction back; a height the node does not know is no write at all. */
  function Perform(chain: seq<Block>, db: Tables, w: Write): Tables {
    if !(0 <= w.height < |chain|) then db
    else
      var r := match w
        case ExtractW(h, p) => ExtractBlock(db, chain[h], h, p)
        case BackfillW(h, p) => BackfillBlock(db, chain[h], h, p);
      if r.Some? then r.value else db
  }

  function Run(chain: seq<Block>, db: Tables, ws: seq<Write>, n: nat): Tables
    requires n <= |ws|
  {
    if n == 0 then db else Perform(chain, Run(chain, db, ws, n - 1), ws[n - 1])
  }

  ghost function Extracted(ws: seq<Write>, n: nat): set<int>
    requires n <= |ws|
  {
    if n == 0 then {} else Extracted(ws, n - 1) + if ws[n - 1].ExtractW? then {ws[n - 1].height} else {}
  }

  /** Heights whose inputs were filled in: extracted with inline prevouts, or backfilled. */
  ghost function Filled(ws: seq<Write>, n: nat): set<int>
    requires n <= |ws|
  {
    if n == 0 then {}
    else Filled(ws, n - 1) + if ws[n - 1].hasPrevouts || ws[n - 1].BackfillW? then {ws[n - 1].height} else {}
  }

  /** Every backfill runs after its block is extracted, and finds the out rows it looks for. */
  ghost predicate WellTimed(chain: seq<Block>, ws: seq<Write>) {
    forall n | 0 <= n < |ws| ::
      && 0 <= ws[n].height < |chain|
      && (ws[n].BackfillW? ==>
            && ws[n].height in Extracted(ws, n)
            && (ws[n].hasPrevouts || ws[n].height in Filled(ws, n)
                || Resolvable(chain, OutKeys(chain, Extracted(ws, n)), ws[n].height)))
  }

  /** After a well-timed history the tables are a function of the two height sets. */
  lemma {:induction false} RunIs(chain: seq<Block>, ws: seq<Write>, n: nat)
    requires WellFormed(chain) && WellTimed(chain, ws) && n <= |ws|
    ensures Filled(ws, n) <= Extracted(ws, n)
    ensures Run(chain, EMPTY, ws, n) == LedgerOf(chain, Extracted(ws, n), Filled(ws, n))
  {
    hide LedgerOf, WellFormed, ExtractBlock, BackfillBlock, Resolvable, OutKeys;
    if n == 0 {
      EmptyLedger(chain);
    } else {
      RunIs(chain, ws, n - 1);
      var e, f, w := Extracted(ws, n - 1), Filled(ws, n - 1), ws[n - 1];
      if w.ExtractW? {
        ExtractMeets(chain, e, f, w.height, w.hasPrevouts);
        assert Filled(ws, n) == if w.hasPrevouts then f + {w.height} else f;
      } else {
        BackfillMeets(chain, e, f, w.height, w.hasPrevouts);
        assert Extracted(ws, n) == e;
      }
    }
  }

  lemma EmptyLedger(chain: seq<Block>)
    ensures LedgerOf(chain, {}, {}) == EMPTY
  {
    var l := LedgerOf(chain, {}, {});
    assert l.txs == map[] && l.io == map[] && l.spends == map[];
  }

  /** Confluence: order, interleaving and repetition of the writes do not show in the tables. */
  lemma {:induction false} Confluent(chain: seq<Block>, ws: seq<Write>, ws': seq<Write>)
    requires WellFormed(chain) && WellTimed(chain, ws) && WellTimed(chain, ws')
    requires Extracted(ws, |ws|) == Extracted(ws', |ws'|) && Filled(ws, |ws|) == Filled(ws', |ws'|)
    ensures Run(chain, EMPTY, ws, |ws|) == Run(chain, EMPTY, ws', |ws'|)
  {
    RunIs(chain, ws, |ws|);
    RunIs(chain, ws', |ws'|);
  }

  ghost predicate OnlyExtracts(ws: seq<Write>) {
    forall w | w in ws :: w.ExtractW?
  }

  lemma {:induction false} ExtractsDependOnSet(ws: seq<Write>, n: nat, h: int)
    requires n <= |ws| && OnlyExtracts(ws)
    ensures h in Extracted(ws, n) <==> exists m :: 0 <= m < n && ws[m].height == h
    ensures h in Filled(ws, n) <==> exists m :: 0 <= m < n && ws[m] == ExtractW(h, true)
  {
    if n > 0 {
      ExtractsDependOnSet(ws, n - 1, h);
      assert ws[n - 1] in ws;
    }
  }

  /** For extraction alone: the tables depend only on the set of (height, has_prevouts) writes. */
  lemma {:induction false} ExtractionConfluent(chain: seq<Block>, ws: seq<Write>, ws': seq<Write>)
    requires WellFormed(chain) && OnlyExtracts(ws) && OnlyExtracts(ws') && Elems(ws) == Elems(ws')
    requires forall w | w in ws :: 0 <= w.height < |chain|
    ensures Run(chain, EMPTY, ws, |ws|) == Run(chain, EMPTY, ws', |ws'|)
  {
    forall n | 0 <= n < |ws|
      ensures ws[n] in ws && ws[n] in Elems(ws)
    {
    }
    forall n | 0 <= n < |ws'|
      ensures ws'[n] in Elems(ws') && ws'[n] in ws
    {
    }
    forall h
      ensures h in Extracted(ws, |ws|) <==> h in Extracted(ws', |ws'|)
      ensures h in Filled(ws, |ws|) <==> h in Filled(ws', |ws'|)
    {
      ExtractsDependOnSet(ws, |ws|, h);
      ExtractsDependOnSet(ws', |ws'|, h);
      assert forall w | w in ws' :: w in Elems(ws);
      assert forall w | w in ws :: w in Elems(ws');
    }
    Confluent(chain, ws, ws');
  }

  /** Reprocessing a block that was extracted the same way before changes nothing. */
  lemma ReextractIsNoop(chain: seq<Block>, ws: seq<Write>, w: Write)
    requires WellFormed(chain) && WellTimed(chain, ws) && w in ws && w.ExtractW?
    ensures var db := Run(chain, EMPTY, ws, |ws|); Perform(chain, db, w) == db
  {
    var e, f := Extracted(ws, |ws|), Filled(ws, |ws|);
    RunIs(chain, ws, |ws|);
    PastWrites(ws, |ws|, w);
    ExtractMeets(chain, e, f, w.height, w.hasPrevouts);
    assert e + {w.height} == e;
    assert w.hasPrevouts ==> f + {w.height} == f;
  }

  lemma {:induction false} PastWrites(ws: seq<Write>, n: nat, w: Write)
    requires n <= |ws| && w in ws[..n]
    ensures w.ExtractW? ==> w.height in Extracted(ws, n)
    ensures w.hasPrevouts || w.BackfillW? ==> w.height in Filled(ws, n)
  {
    if w != ws[n - 1] {
      assert w in ws[..n - 1];
      PastWrites(ws, n - 1, w);
    }
  }

  // ----- two passes equal one -----

  /** Once all blocks are extracted, no lookup can fail. */
  lemma {:induction false} AllExtractedResolves(chain: seq<Block>, hs: set<int>, h: int)
    requires WellFormed(chain) && 0 <= h < |chain| && hs >= Below(|chain|)
    ensures Resolvable(chain, OutKeys(chain, hs), h)
  {
    KeyKinds(chain, Below(|chain|));
    forall i, j | InAt(chain[h], i, j)
      ensures PrevKey(chain[h].txs[i].vins[j]) in OutKeys(chain, hs)
    {
      assert InputAt(chain, h, i, j);
      PrevRowIsPrevout(chain, h, i, j);
      assert PrevKey(chain[h].txs[i].vins[j]) in OutKeys(chain, Below(|chain|));
    }
  }

  /** Each write is at a height of the chain, and no height is left out. */
  ghost predicate Covers(chain: seq<Block>, ws: seq<Write>) {
    && (forall n | 0 <= n < |ws| :: 0 <= ws[n].height < |chain|)
    && (forall h | h in Below(|chain|) :: exists n :: 0 <= n < |ws| && ws[n].height == h)
  }

  ghost predicate FirstPass(chain: seq<Block>, ws: seq<Write>) {
    Covers(chain, ws) && forall n | 0 <= n < |ws| :: ws[n].ExtractW? && !ws[n].hasPrevouts
  }

  ghost predicate SecondPass(chain: seq<Block>, ws: seq<Write>) {
    Covers(chain, ws) && forall n | 0 <= n < |ws| :: ws[n].BackfillW?
  }

  ghost predicate SinglePass(chain: seq<Block>, ws: seq<Write>) {
    Covers(chain, ws) && forall n | 0 <= n < |ws| :: ws[n].ExtractW? && ws[n].hasPrevouts
  }

  lemma {:induction false} HeightsOfPass(chain: seq<Block>, ws: seq<Write>, n: nat)
    requires n <= |ws| && forall m | 0 <= m < |ws| :: 0 <= ws[m].height < |chain|
    ensures Extracted(ws, n) <= Below(|chain|) && Filled(ws, n) <= Below(|chain|)
    ensures forall m | 0 <= m < n :: ws[m].ExtractW? ==> ws[m].height in Extracted(ws, n)
    ensures forall m | 0 <= m < n :: ws[m].hasPrevouts || ws[m].BackfillW? ==> ws[m].height in Filled(ws, n)
  {
    if n > 0 {
      HeightsOfPass(chain, ws, n - 1);
    }
  }

  lemma {:induction false} PrefixHeights(ws: seq<Write>, rest: seq<Write>, n: nat)
    requires n <= |ws|
    ensures Extracted(ws + rest, n) == Extracted(ws, n)
    ensures Filled(ws + rest, n) == Filled(ws, n)
  {
    if n > 0 {
      PrefixHeights(ws, rest, n - 1);
    }
  }

  lemma {:induction false} ExtractedOnlyGrows(ws: seq<Write>, m: nat, n: nat)
    requires m <= n <= |ws|
    ensures Extracted(ws, m) <= Extracted(ws, n)
  {
    if m < n {
      ExtractedOnlyGrows(ws, m, n - 1);
    }
  }

  lemma {:induction false} SuffixFilled(first: seq<Write>, second: seq<Write>, n: nat)
    requires n <= |second|
    ensures Filled(second, n) <= Filled(first + second, |first| + n)
  {
    if n > 0 {
      SuffixFilled(first, second, n - 1);
      assert (first + second)[|first| + n - 1] == second[n - 1];
    }
  }

  lemma PassReachesAll(chain: seq<Block>, ws: seq<Write>)
    requires Covers(chain, ws)
    ensures (forall n | 0 <= n < |ws| :: ws[n].ExtractW?) ==> Extracted(ws, |ws|) == Below(|chain|)
    ensures (forall n | 0 <= n < |ws| :: ws[n].hasPrevouts || ws[n].BackfillW?) ==> Filled(ws, |ws|) == Below(|chain|)
  {
    HeightsOfPass(chain, ws, |ws|);
  }

  lemma AllBackfillsWellTimed(chain: seq<Block>, first: seq<Write>, second: seq<Write>)
    requires WellFormed(chain) && FirstPass(chain, first) && SecondPass(chain, second)
    ensures WellTimed(chain, first + second)
  {
    var ws := first + second;
    forall n | 0 <= n < |ws|
      ensures 0 <= ws[n].height < |chain|
      ensures ws[n].BackfillW? ==>
                ws[n].height in Extracted(ws, n) && Resolvable(chain, OutKeys(chain, Extracted(ws, n)), ws[n].height)
    {
      if n < |first| {
        assert ws[n] == first[n];
      } else {
        assert ws[n] == second[n - |first|];
        PassReachesAll(chain, first);
        PrefixHeights(first, second, |first|);
        ExtractedOnlyGrows(ws, |first|, n);
        AllExtractedResolves(chain, Extracted(ws, n), ws[n].height);
      }
    }
  }

  /**
   The old pipeline and the new one end in the same tables: every block extracted without inline
   prevouts and then every block backfilled, each pass in any order and with any repetition, or
   every block extracted once (or more) with inline prevouts.
   */
  lemma {:induction false} TwoPassesEqualOne(chain: seq<Block>, first: seq<Write>, second: seq<Write>,
                                             single: seq<Write>)
    requires WellFormed(chain)
    requires FirstPass(chain, first) && SecondPass(chain, second) && SinglePass(chain, single)
    ensures Run(chain, EMPTY, first + second, |first + second|) == Run(chain, EMPTY, single, |single|)
    ensures Run(chain, EMPTY, single, |single|) == LedgerOf(chain, Below(|chain|), Below(|chain|))
  {
    var ws := first + second;
    hide WellFormed, LedgerOf, Perform, WellTimed;
    AllBackfillsWellTimed(chain, first, second);
    SinglePassWellTimed(chain, single);
    HeightsOfTwoPasses(chain, first, second);
    PassReachesAll(chain, single);
    RunIs(chain, single, |single|);
    Confluent(chain, ws, single);
  }

  lemma SinglePassWellTimed(chain: seq<Block>, single: seq<Write>)
    requires SinglePass(chain, single)
    ensures WellTimed(chain, single)
  {
  }

  lemma HeightsOfTwoPasses(chain: seq<Block>, first: seq<Write>, second: seq<Write>)
    requires FirstPass(chain, first) && SecondPass(chain, second)
    ensures var ws := first + second;
            Extracted(ws, |ws|) == Below(|chain|) && Filled(ws, |ws|) == Below(|chain|)
  {
    hide Extracted, Filled;
    var ws := first + second;
    PassReachesAll(chain, first);
    PassReachesAll(chain, second);
    PrefixHeights(first, second, |first|);
    ExtractedOnlyGrows(ws, |first|, |ws|);
    SuffixFilled(first, second, |second|);
    assert forall m | 0 <= m < |ws| :: 0 <= ws[m].height < |chain| by {
      assert forall m | 0 <= m < |ws| :: ws[m] == if m < |first| then first[m] else second[m - |first|];
    }
    HeightsOfPass(chain, ws, |ws|);
  }

  // ----- a total once written stays, right or wrong -----

  /** Only an extraction with inline prevouts can correct a total. */
  ghost predicate NoInlineExtraction(ws: seq<Write>) {
    forall w | w in ws :: w.ExtractW? ==> !w.hasPrevouts
  }

  lemma {:induction false} UpsertKeepsTotal(t: TxTable, rows: seq<TxRow>, n: nat, k: TxId)
    requires n <= |rows| && k in t && forall r | r in rows :: r.totalIn == 0
    ensures k in UpsertTxs(t, rows, n) && UpsertTxs(t, rows, n)[k].totalIn == t[k].totalIn
  {
    if n > 0 {
      UpsertKeepsTotal(t, rows, n - 1, k);
      assert rows[n - 1] in rows;
    }
  }

  lemma WriteKeepsTotal(chain: seq<Block>, db: Tables, w: Write, k: TxId)
    requires k in db.txs && db.txs[k].totalIn != 0 && !(w.ExtractW? && w.hasPrevouts)
    ensures k in Perform(chain, db, w).txs && Perform(chain, db, w).txs[k].totalIn == db.txs[k].totalIn
  {
    if 0 <= w.height < |chain| && w.ExtractW? && ExtractBlock(db, chain[w.height], w.height, false).Some? {
      var b := chain[w.height];
      var rows := BlockTxRows(b, |b.txs|, false);
      forall r | r in rows
        ensures r.totalIn == 0
      {
        BlockTxRowsAre(b, |b.txs|, false, r);
      }
      UpsertKeepsTotal(db.txs, rows, |rows|, k);
    }
  }

  /**
   On any chain, whatever total_in a transaction got first outlives every later backfill and
   verbosity-2 extraction, so a sum over too few inputs is never completed.
   */
  lemma {:induction false} TotalSticks(chain: seq<Block>, db: Tables, ws: seq<Write>, n: nat, k: TxId)
    requires n <= |ws| && NoInlineExtraction(ws) && k in db.txs && db.txs[k].totalIn != 0
    ensures k in Run(chain, db, ws, n).txs && Run(chain, db, ws, n).txs[k].totalIn == db.txs[k].totalIn
  {
    if n > 0 {
      TotalSticks(chain, db, ws, n - 1, k);
      assert ws[n - 1] in ws;
      WriteKeepsTotal(chain, Run(chain, db, ws, n - 1), ws[n - 1], k);
    }
  }
}
