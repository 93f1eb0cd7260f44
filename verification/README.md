# A verified model of crawlbtc

crawlbtc copies the Bitcoin block chain into three PostgreSQL tables, keeps balances of watched
addresses, and follows money between addresses. This project models its core in Dafny and proves
what the rest of the program relies on. `dafny verify dfyconfig.toml` checks everything.

A chain is a sequence of blocks; a height is an index into it. A table is a map from its unique key
to the other columns, held as a field of a class, and a statement that changes rows is a method that
loops over staged rows. Each `conn.transaction()` block is one atomic step. A chain is *well-formed*
(`Chain.WellFormed`) when blocks have times and distinct hashes, txids are distinct (BIP 30), no
outpoint is spent twice, every input spends an earlier output that is not an OP_RETURN, and the
inline prevout of a verbosity-3 response repeats that output.

| file | content |
|---|---|
| `Common`, `Sums`, `RealSums` | options, sums over keyed rows (SQL aggregates), exact fractions |
| `Chain`, `Extract`, `StagedRows`, `Ledger`, `Backfill` | blocks, what is staged from them and which rows these are, the tables and their conflict rules, the two routes |
| `Confluence`, `History`, `SoundTables`, `TwoPass` | the tables as a function of the heights written; tables no write fails on; equivalence of the pipelines |
| `PartialBackfill`, `Fates` | early backfills, and what any history of writes leaves behind |
| `Watch`, `Clamp`, `ViewAgreement`, `FullLedger` | incremental balances, the clamp, agreement with recomputation |
| `Conservation`, `QueryRewrite` | conservation across tables; the two delta statements |
| `Jobs`, `Protocol`, `Exclusion`, `ExactlyOnce`, `Drain` | the job queue, runs of concurrent workers, and what every run keeps |
| `Runs`, `Live`, `RowPaths`, `RequeueSafety`, `SkipRace` | building runs; the rows they reach; which requeues are safe; which chains keep the phases in order |
| `Scans`, `EndToEnd`, `EarlyScan`, `DoubleScan` | what a scan sees while other heights are missing; the figures at the end of any run; two runs that end wrong |
| `Trace`, `Haircut`, `Incoming`, `Directions`, `Report`, `Entities`, `Risk` | the trace: search, value attribution, merging and what it means by entity, risk |
| `Bits`, `Ripemd160`, `Ripemd160Standard`, `Base58`, `AddressLength`, `Addresses` | signed integers against 32-bit words, the hash, what the standard fixes of it, the encoding, address extraction |

## What was found

Most promises hold as documented. These do not, and each is pinned down exactly.

* A backfill may run before the outputs it looks for are stored: the queue asks only that its own
  block is extracted (`src/crawlbtc/phases/backfill_vins.py:29-31`). On any sound tables it completes
  its block if and only if every missing input row comes inline or is found, and each transaction's
  total is whole already or is 0 and found whole now (`BackfillFillsIff`). When a transaction's inputs
  are found in part, its `total_in` is too low, and since `update_total_in` only replaces 0, no later
  backfill or verbosity-2 extraction corrects it (`PartialTotalStays`, with a chain of three blocks in
  `EarlyBackfillLosesACoin`). For whole histories: order, interleaving and repetition do not show in
  the tables if and only if, for each transaction of a filled height, an inline extraction or the first
  backfill that found anything found everything (`HistoryIsLedgerIff`, `ConfluentIff`).
* An address scan may commit while other heights are unextracted
  (`src/crawlbtc/phases/address_scans.py:20-23`). It changes a row as on the complete ledger if and only
  if each output of the address spent at its height is stored (`ScansTrueIff`); otherwise the debit is
  lost for good and the balance stays too high. For any run `RunEndsOffBy` gives the error of balance
  and UTXO count, and `RunCountsOffBy` that of the transaction count, which lacks the transactions
  seen through missed debits alone; the times are those of the blocks whose scan found the address.
  Scanning behind extraction avoids all this (`ScansBehindMissNothing`). `EarlyScanOvercounts` is a run of three
  blocks without failure or requeue that ends with a wrong balance. `run-all` starts the scan also when
  an extraction has failed (`src/crawlbtc/cli.py:85-91`). Once every height is extracted, recompute-balances
  repairs any watch list, whatever it says (`RecomputeRepairs`, `RecomputeForgets`).
* Skipping a block takes two transactions, one for each column. A backfill claim between them lets
  address work start on a height whose extraction then fails (`SkipRaceBreaksOrder`). Without requeues
  every schedule keeps the phases in order if and only if no block of the chain is skipped
  (`OrderAlwaysKeptIff`). Blocks in which every transaction is a lone coinbase or names a previous txid,
  as consensus demands, never are (`BitcoinBlocksAreKept`), so only a malformed response gets there, such as
  the block without transactions in `BlankChain`.
* A requeue can hand out a height that a worker still holds, and then two workers hold it
  (`RequeueThenClaim`). Call a request safe when it is refused or selects no column that may be held by
  its row alone: extraction in progress or skipped; backfill in progress, or done on a block that is
  skipped now or has features; address work in progress. In every state of a run whose earlier requests
  were all safe, a request can never lead to two holds if and only if it is safe too (`RequeueSafeIff`),
  so an operator who checks each request against the rows keeps exclusion (`SafeRunsExclude`). In such
  runs `--features` is unsafe on rows in progress; `--skipped`, or a height range alone, on skipped
  extractions, which may be between their two marks; a range alone on those done backfills, which
  another extraction may have finished under a running worker; `--failed` alone is safe
  (`WithoutFeatures`). After an unsafe request no row can be trusted: in the five steps of `UnsafeHistory`
  a height reads as failed while a worker holds it, and even `--failed` hands it out again.
* Address deltas are applied exactly once if requests are safe and select no done address row
  (`SafeRunsOnce`). Otherwise they are not: after `--phase address --features` on a row in progress two
  workers apply the same delta, and a coin of 5 shows as 10 (`DoubleScanDoubles`, `DoubleScanOvercounts`).
* The clamp at zero makes incremental balances depend on the scan order. The stored figure is the true
  one minus the lowest prefix sum, exact if and only if no prefix goes negative (`ClampedBounds`).
* The rewritten delta statement in `scripts/01_backfill_vins_deadrecon.py` adds to `tx_count` without
  clamping it. The two statements agree if and only if a touched row's new count is not negative
  (`RewriteAgrees`); the table's CHECK makes that so.
* The class op_return_only is not that of blocks with OP_RETURN outputs: it holds blocks that name no
  previous txid, earn no out row, and have an output outside OP_RETURN above zero, say below one satoshi
  or without an address (`ClassIff`).
* The monitor never stops a process whose phase has no rows in scope (`StopsIffAllTerminal`).
* Incoming trace edges are not weighted: they carry the funders' whole inputs
  (`IncomingIsWholeInputs`). The label "direct" does not make them exact: such an edge is off by exactly
  what its transactions paid elsewhere, and, as none pays out more than it takes in, right if and only if
  each pays all it takes in to the address (`DirectIncomingIff`). With change it is not: 3 received show
  as 5 (`ChangeIsCounted`). Labelled direct or not, the incoming edge of a pair exceeds its outgoing
  estimate by the funder's share of what was paid elsewhere, so under the same premise the two
  directions agree on a pair if and only if nothing was (`DirectionsDifferBy`).
* The report looks back 40 rounds. Risk covers everything behind a node, whatever the types, if and only
  if those rounds reach it all (`RiskIsWholeIff`); behind 40 hops it is lost (`RiskCanFall`).
* Merged report edges are keyed by `from>to`, and entity names may contain `>` (`KeysClashIff`). A
  merged edge carries the flows between its ends if and only if no other pair with its key has any
  (`PairValueIff`); names without `>` are enough (`PlainNamesMergeRight`). In `ClashingEdges` a flow of 1
  shows as 3.
* A `pubkey` script without an address and without a key in its hex makes address extraction raise if
  and only if its asm is not empty and all white space (`RaisesIff`, `BlankAsmRaises`). No well-formed
  response has such a script, since the asm of one of this type starts with the key.

## Model

| member | source | states |
|---|---|---|
| Chain.ToSats | src/crawlbtc/core/addresses.py:26-33 | a non-negative BTC amount becomes the whole satoshis at or below it; non-finite amounts raise |
| Extract.ParseBlock | src/crawlbtc/phases/extract.py:64-132 | the loops over transactions, outputs and inputs stage the rows and features that the next rows characterise; a block without time raises |
| Extract.BlockOutRowsAre | src/crawlbtc/phases/extract.py:83-103 | the out rows are exactly the addressed, positive, non-OP_RETURN outputs of transactions with a valid txid |
| Extract.BlockInRowsAre | src/crawlbtc/phases/extract.py:105-127 | the in rows are exactly the inputs that name an outpoint and whose inline prevout has worth |
| Extract.BlockSpendRowsAre | src/crawlbtc/phases/extract.py:106-113 | the spend edges are exactly the inputs that name an outpoint |
| Extract.BlockTxRowsAre | src/crawlbtc/phases/extract.py:77-81 | one transaction row for every valid txid and no other |
| StagedRows.OutRowIff | src/crawlbtc/phases/extract.py:83-103 | an out row, column by column, is staged exactly when output idx of a transaction of that txid (64 hex digits) has that owner, an asm that does not begin with OP_RETURN, and a BTC value of which amount, above 0, is the whole number of satoshis |
| StagedRows.InRowIff | src/crawlbtc/phases/extract.py:105-127 | the same for in rows over the inline prevout of an input that is no coinbase and names an outpoint by a txid of 64 hex digits; none without prevouts |
| StagedRows.SpendRowIff | src/crawlbtc/phases/extract.py:106-113 | all seven columns of a spend edge: from the outpoint the input names to the input, with the block's height, hash and time |
| StagedRows.TxRowIff | src/crawlbtc/phases/extract.py:77-129 | one row per valid txid with the block's hash and time, total_out the sum of what the outputs add and total_in, with prevouts, that of what the inputs add |
| StagedRows.ClassIff | src/crawlbtc/phases/extract.py:30-61 | all six classes by four questions: does an input name a txid, does an output earn a row, does an output outside OP_RETURN exceed zero, are there only lone coinbases |
| StagedRows.TxidIs | src/crawlbtc/core/addresses.py:15-24 | a txid is valid exactly if it is 64 hex digits, with or without a line feed behind |
| Extract.FeaturesIgnorePrevouts | src/crawlbtc/phases/extract.py:30-61 | a block is classified, so skipped or kept, alike with and without inline prevouts |
| Extract.SkippedBlocksAreEmpty | src/crawlbtc/phases/extract.py:193-199 | a skipped block has no out, in or spend rows |
| Ledger.Store.InsertTxRows | src/crawlbtc/core/ingest.py:50-62 | row by row, totals are refreshed and a total_in of 0 leaves the stored one; a staged row whose txid this statement already wrote raises |
| Ledger.Store.InsertTxioRows | src/crawlbtc/core/ingest.py:78-105 | the first valid row of a key stays |
| Ledger.Store.InsertSpendsRows | src/crawlbtc/core/ingest.py:109-136 | the first edge of an outpoint stays; an input that already spends another outpoint raises |
| Ledger.Store.UpdateTotals | src/crawlbtc/core/ingest.py:139-163 | a total_in of 0 becomes the total given for its txid, every other total, column and row stays |
| Ledger.Store.Extract | src/crawlbtc/phases/extract.py:201-212 | all three tables change, or an error leaves all three as they were |
| Backfill.WalkVins | src/crawlbtc/phases/backfill_vins.py:80-117 | one walk yields inline rows and totals, spend edges, and the list of prevouts still to be looked up |
| Backfill.BackfillVins | src/crawlbtc/phases/backfill_vins.py:119-158 | looks prevouts up in the stored out rows and writes rows, totals and edges together or not at all |
| Backfill.FilledRowsAre | src/crawlbtc/phases/backfill_vins.py:100-151 | the rows filled in are exactly one for every spending input whose inline prevout or stored out row is known |
| Backfill.FilledTotalsAre | src/crawlbtc/phases/backfill_vins.py:117-151 | each transaction's total is the sum of its own inputs' contributions |
| Backfill.FilledTotalsKeys | src/crawlbtc/phases/backfill_vins.py:117-154 | the block's own transactions get a total, and no others |
| History.PrevRowIsPrevout | src/crawlbtc/phases/backfill_vins.py:141-148 | the stored out row an input names says what its inline prevout says, and exists just when that has worth |
| History.ExtractMeets | src/crawlbtc/phases/extract.py:201-212 | extracting a block, first or again, with or without prevouts, turns the tables of a set of heights into those of the set with this height |
| History.BackfillMeets | src/crawlbtc/phases/backfill_vins.py:121-156 | a backfill that finds what it needs, or is repeated, leaves the tables as an extraction with inline prevouts would |
| PartialBackfill.FirstBackfillTotal | src/crawlbtc/phases/backfill_vins.py:149-154 | after a first backfill total_in is 0 just when nothing was found and whole just when nothing was missed |
| PartialBackfill.PartialTotalStays | src/crawlbtc/core/ingest.py:157-163 | a total over part of the inputs stays too low through every later backfill and extraction without inline prevouts |
| PartialBackfill.EarlyBackfillLosesACoin | src/crawlbtc/phases/backfill_vins.py:55-57 | three blocks and five writes, each allowed by the queue, that end with a wrong total_in |
| TwoPass.RunIs | src/crawlbtc/core/ingest.py:50-163 | after any well-timed history the tables are a function of the two sets of heights extracted and filled |
| Fates.BackfillFillsIff | src/crawlbtc/phases/backfill_vins.py:121-156 | on any sound tables, the exact condition under which a backfill completes its block; the queue's gate is weaker |
| Fates.FateShows | src/crawlbtc/core/ingest.py:157-163 | after any history each total is 0, whole or partial as its fate says, which the first backfill that finds anything decides |
| Fates.HistoryIsLedgerIff | src/crawlbtc/core/ingest.py:50-163 | after any history whose backfills follow their extraction, the tables are those of the heights written if and only if everything was found whole |
| Fates.ConfluentIff | src/crawlbtc/core/ingest.py:3-6 | order, interleaving and repetition of the writes do not show in the tables, exactly when everything was found whole |
| Fates.WellTimedIsWhole | src/crawlbtc/phases/backfill_vins.py:29-31 | a history whose backfills find the rows they look for finds everything whole |
| TwoPass.ExtractionConfluent | src/crawlbtc/core/ingest.py:50-62 | for extraction alone the tables depend only on the set of (height, has_prevouts) writes |
| TwoPass.ReextractIsNoop | src/crawlbtc/core/ingest.py:54-61 | writing a block again as before changes nothing, whatever came in between |
| TwoPass.TwoPassesEqualOne | src/crawlbtc/phases/extract.py:3-11 | extracting all blocks without prevouts and then backfilling all, each pass in any order, gives the tables of the single pass |
| TwoPass.TotalSticks | src/crawlbtc/core/ingest.py:158-163 | on any chain a non-zero total_in survives every backfill and every extraction without inline prevouts |
| Watch.DeltaFor | src/crawlbtc/phases/address_scans.py:31-83 | the credits, debits and per_addr subqueries for one address and the updated row |
| Watch.WatchList.ApplyDelta | src/crawlbtc/phases/address_scans.py:91-106 | every touched row is shifted by its delta, the others stay, and the touched rows are counted |
| Clamp.ClampedIsSumMinusLowest | src/crawlbtc/phases/address_scans.py:92-94 | from 0, the clamped fold is the plain sum minus the lowest prefix sum |
| Clamp.ClampedBounds | src/crawlbtc/phases/address_scans.py:92-94 | so it is never below the true figure, and equals it if and only if no prefix goes negative |
| Clamp.ClampFiresIff | src/crawlbtc/phases/address_scans.py:92-94 | some clamp changes a value if and only if the lowest prefix sum is negative |
| ViewAgreement.SumOfDeltas | src/crawlbtc/phases/address_scans.py:61-65 | over all heights in any order the deltas add up to what was created and not spent |
| ViewAgreement.AscendingPrefixes | src/crawlbtc/phases/address_scans.py:31-65 | in height order nothing is spent before it is created, so no prefix sum is negative |
| ViewAgreement.ScanInAnyOrder | src/crawlbtc/phases/address_scans.py:25-107 | every height scanned once in any order: counts and times as recomputed, balance and UTXOs off by exactly the lowest prefix sum |
| ViewAgreement.ScanInOrderAgrees | src/crawlbtc/cli.py:192-234 | in height order the scanned row carries the balance, UTXO count, transaction count and times that recomputing a new row gives, and no clamp fires; `RecomputeForgets` extends this to any row |
| ViewAgreement.ScannedMarks | src/crawlbtc/phases/address_scans.py:99-101 | in any tables, after any scans in any order, the scanned height and time are the highest and the latest of the scanned heights that touch the address |
| FullLedger.CompleteIsAligned | src/crawlbtc/phases/extract.py:102-129 | the tables of a completely extracted chain satisfy what the previous two rows assume |
| FullLedger.ScanEqualsRecompute | src/crawlbtc/cli.py:192-234 | scanning an extracted chain upwards from unseen rows ends where recompute-balances ends from any watch list, whatever its rows say; an address without out rows keeps its row |
| FullLedger.RecomputeForgets | src/crawlbtc/cli.py:224-233 | in any tables recompute-balances gives any two rows of an address with an out row the same balance, UTXO and transaction count, and the same times if a touching transaction is stored; an address without out rows keeps its row |
| Conservation.ReceivedIsBalancePlusSpent | src/crawlbtc/cli.py:243-246 | in any tables an address received what it holds plus what it spent |
| Conservation.TotalsAreRowSums | src/crawlbtc/phases/extract.py:102-129 | total_out and total_in of every stored transaction are the sums of its stored rows |
| Conservation.InputsAreSpentOutputs | src/crawlbtc/phases/extract.py:113-127 | in rows and spent out rows match one to one with equal amounts, each input with the output it names, so their sums agree |
| Conservation.BalancesConserve | src/crawlbtc/cli.py:237-254 | all balances together are all total_out minus all total_in |
| QueryRewrite.OneGroupEach | scripts/01_backfill_vins_deadrecon.py:354-440 | joining repeated events to the sums and grouping gives one row for each touched address and none for others, with the distinct transactions counted |
| QueryRewrite.RewriteAgrees | scripts/01_backfill_vins_deadrecon.py:354-440 | for all table contents and watch lists, exactly when the rewritten delta statement and the original make the same update |
| QueryRewrite.EventsAreTouched | scripts/02_address_scans.py:256-347 | counting distinct events and uniting the two txid arrays give the same transactions |
| Jobs.TakeLowest | src/crawlbtc/core/jobs.py:55-61 | the lowest eligible heights, at most the batch size, and all of them if fewer |
| Jobs.JobTable.ClaimJobs | src/crawlbtc/core/jobs.py:44-68 | claims exactly those pending heights in scope that no other transaction has locked, and marks them |
| Jobs.JobTable.MarkStatus | src/crawlbtc/core/jobs.py:71-94 | changes one column, and features if given, of one row |
| Jobs.JobTable.ResetAbandoned | src/crawlbtc/core/jobs.py:21-41 | no stale row stays in progress, only those change, only in this column and to pending; the count is of the changed rows |
| Jobs.JobTable.PhaseProgress | src/crawlbtc/core/jobs.py:103-125 | the four counts and the highest finished height |
| Jobs.JobTable.TopUpJobs | src/crawlbtc/core/jobs.py:128-143 | adds fresh rows for the heights above the highest up to the tip and keeps all others; a table without gaps stays so |
| Jobs.JobTable.RequeueJobs | src/crawlbtc/cli.py:136-185 | column after column, resets the selected rows; only a request that names neither state, feature nor height is refused, and changes nothing |
| Jobs.CountsPartition | src/crawlbtc/core/jobs.py:109-117 | the four counts add up to the rows in scope |
| Jobs.ClaimMoves | src/crawlbtc/core/jobs.py:109-117 | claiming moves the number of claimed rows from the pending count to that in progress and changes no other count |
| Jobs.FinishMoves | src/crawlbtc/core/jobs.py:109-117 | finishing a row moves one from in progress to done, or to skipped and failed, as its outcome says |
| Jobs.StopsIffAllTerminal | src/crawlbtc/core/runner.py:91-94 | the monitor's test holds if and only if the phase has rows in scope and all are terminal |
| Protocol.RequeuedIs | src/crawlbtc/cli.py:157-185 | a requeue sets pending exactly in the chosen columns of the selected rows, though later columns are selected after earlier ones changed |
| SoundTables.ExtractKeepsSound | src/crawlbtc/phases/extract.py:201-212 | on sound tables an extraction never fails and stores all the block has |
| SoundTables.BackfillKeepsSound | src/crawlbtc/phases/backfill_vins.py:121-158 | on sound tables a backfill never fails and stores all the block's spend edges |
| Protocol.StatusNeverAheadOfData | src/crawlbtc/phases/extract.py:193-212 | in every reachable state, through crashes, resets and requeues: done means stored, skipped means empty, every stored row comes from the chain |
| Exclusion.NeverHeldTwice | src/crawlbtc/core/jobs.py:3-6 | over all runs no height is held twice for one phase, if requeues leave held rows alone |
| RequeueSafety.RequeueThenClaim | src/crawlbtc/cli.py:165-182 | a requeue that selects a held, ready row and the next claim make two workers hold one height |
| RequeueSafety.RequeueSafeIff | src/crawlbtc/cli.py:157-185 | in every state of a run whose earlier requests were safe by flags and rows alone: a request can never lead to a height held twice if and only if it is safe by the same test |
| RequeueSafety.WithoutFeatures | src/crawlbtc/cli.py:165-182 | the same test in terms of the flags, for requests without a feature selector |
| RequeueSafety.SafeRunsExclude | src/crawlbtc/core/jobs.py:3-6 | over all runs whose requests are safe by the rows they find, no height is held twice for one phase, and every held column reads as one that may be held |
| RequeueSafety.UnsafeHistory | src/crawlbtc/cli.py:157-185 | five steps, one of them an unsafe request, after which a request that is safe by the rows leads to two holds |
| RowPaths.HoldAny | src/crawlbtc/core/jobs.py:44-94 | any table of rows in shape is reached by safe steps with just one column held, for every column that may be |
| Exclusion.PhasesInOrder | src/crawlbtc/phases/address_scans.py:20-23 | address work started implies both earlier columns finished, in all runs without requeue and without a backfill claim inside a skip |
| Exclusion.OneHoldPerHeight | src/crawlbtc/phases/address_scans.py:20-23 | in such runs a height is held at most once over all three phases |
| Exclusion.SkipRaceBreaksOrder | src/crawlbtc/phases/extract.py:193-199 | from any state between the two skip marks, four steps that break the phase order |
| SkipRace.SkippedIff | src/crawlbtc/phases/extract.py:30-61 | exactly which blocks are skipped |
| SkipRace.BitcoinBlocksAreKept | src/crawlbtc/phases/extract.py:30-61 | a block whose transactions are lone coinbases or name previous txids is never skipped |
| SkipRace.OrderAlwaysKeptIff | src/crawlbtc/phases/address_scans.py:20-23 | every schedule without requeues keeps the phases in order if and only if the chain has no skipped block |
| SkipRace.BitcoinKeepsOrder | src/crawlbtc/phases/address_scans.py:20-23 | so on chains of Bitcoin's shape address work started implies both earlier columns finished, in all runs without requeue |
| SkipRace.BlankChain | src/crawlbtc/phases/extract.py:193-199 | on one block without transactions some schedule breaks the order |
| ExactlyOnce.DeltasExactlyOnce | src/crawlbtc/phases/address_scans.py:143-157 | in every run whose requests leave held rows and done address rows alone the watch list is the fold, in commit order, of one delta for each height whose address column is done |
| RequeueSafety.SafeRunsOnce | src/crawlbtc/cli.py:157-185 | the same from two checks on each request, both by the rows it finds |
| DoubleScan.DoubleScanDoubles | src/crawlbtc/cli.py:165-182 | on any chain of one kept block, a run in which a request by features selects a held address row and every watched balance ends at twice its true value |
| ExactlyOnce.FoldedBalance | src/crawlbtc/phases/address_scans.py:91-94 | each stored balance is the clamped fold of its deltas in commit order |
| EndToEnd.ExtractedIsComplete | src/crawlbtc/cli.py:85-91 | once every height is extracted the tables show the balance queries the complete ledger |
| Scans.ScansTrueIff | src/crawlbtc/phases/address_scans.py:25-107 | a scan of an extracted height acts as on the complete ledger if and only if each output of the address spent there is stored |
| EndToEnd.RunEndsOffBy | src/crawlbtc/phases/address_scans.py:20-23 | any concurrent run that scans every height once, whatever was extracted when: a watched balance and UTXO count are the true ones plus the missed debits minus the lowest prefix sum, and exactly when they are right |
| EndToEnd.RunCountsOffBy | src/crawlbtc/phases/address_scans.py:66-77 | in the same runs the transaction count is the true one minus the transactions seen through missed debits alone, and right if and only if there are none; first and last seen are those of what the scans saw |
| Scans.SeenTxs | src/crawlbtc/phases/address_scans.py:66-77 | the transactions a scan misses are those that spend a missed output and touch the address in no other way |
| EndToEnd.ScansBehindMissNothing | src/crawlbtc/phases/address_scans.py:20-23 | scans that commit when all heights up to theirs are extracted miss no debit |
| EndToEnd.RunEndsAtRecomputed | src/crawlbtc/cli.py:85-91 | a run whose scans miss nothing ends with the recomputed counts and times, and balances off by exactly the lowest prefix sum |
| EndToEnd.RecomputeRepairs | src/crawlbtc/cli.py:192-234 | in every reachable state with all heights extracted, recompute-balances turns any watch list into the figures of the height-order scan of the complete chain |
| EarlyScan.EarlyScanOvercounts | src/crawlbtc/phases/address_scans.py:20-23 | a run of three well-formed blocks, each extracted and scanned once, that ends with too high a balance |
| Drain.WorkloadFalls | src/crawlbtc/core/runner.py:45-55 | 2 * pending + in_progress falls on every claim and finish and never rises |
| Drain.QueueDrains | src/crawlbtc/core/runner.py:45-55 | from any state, under any schedule, claims and finishes are bounded by that workload |
| Drain.DryIff | src/crawlbtc/core/runner.py:91-94 | when nobody works on a phase, nothing is left to claim if and only if its rows in scope are finished or orphaned; an orphan keeps the monitor from stopping |
| Trace.Tracer.AddNode | src/crawlbtc/trace.py:223-239 | a node is made at the first sight of an address and never replaced |
| Trace.Tracer.Follow | src/crawlbtc/trace.py:268-295 | the rows of one address become edges and nodes up to the cap, which empties the queue |
| Trace.Tracer.ExpandOne | src/crawlbtc/trace.py:256-267 | hubs and timeouts are marked and give no edges; a full page of rows is marked truncated |
| Trace.Tracer.Expand | src/crawlbtc/trace.py:243-295 | terminates; every address is expanded at most once, at its distance; none within the depth is left out unless the cap is reached; edges, nodes and marks are exactly those of the expanded addresses; new nodes' depths are shortest distances |
| Trace.BuildGraph | src/crawlbtc/trace.py:190-300 | a direction is walked exactly when asked for, and no edge has another; each address is expanded once, at its distance in that direction, and below the cap all within the depth and outside the cluster are; below the cap the edges are exactly theirs, outgoing first; every node has its figures and marks; edge endpoints are nodes, no (from, to, dir) repeats, loops are the flagged edges in order; depths are shortest distances; at most max_nodes nodes, one more for two directions |
| Trace.AllEdgesShow | src/crawlbtc/trace.py:256-290 | an edge belongs to a walk exactly if it is a row answered for one of its addresses, not busy, and has that row's ends in payment order, value, count, distance and flags |
| Trace.NodesShow | src/crawlbtc/trace.py:223-267 | a node has the address's totals; it is a hub, timed out or truncated exactly if a walk that expanded it found that |
| Trace.WalkedStays | src/crawlbtc/trace.py:297-300 | the second walk takes nothing from what is said of the first |
| Trace.DistancesAreShortest | src/crawlbtc/trace.py:245-295 | distances that agree along edges, each explained by one, are the lengths of shortest paths |
| Trace.RowKeepsIntegrity | src/crawlbtc/trace.py:271-290 | adding a row of the query keeps endpoints, uniqueness and flags, because rows are grouped by address |
| Trace.RowKeepsWalking | src/crawlbtc/trace.py:291-295 | adding a row keeps the queue in breadth-first order with every address first queued at its distance |
| Trace.ExpandKeepsDistances | src/crawlbtc/trace.py:297-300 | tracing the other direction leaves the distances of the first |
| Haircut.EstimatesConserve | src/crawlbtc/trace.py:84-85 | summed over all senders, the estimates to a recipient are exactly what those transactions paid it |
| Haircut.SenderNeverExceeds | src/crawlbtc/trace.py:63-85 | one sender's estimates never exceed what it spent, if its transactions pay out no more than they take in |
| Haircut.DirectIsExact | src/crawlbtc/trace.py:283-286 | an edge labelled direct has as estimate the real amount |
| Haircut.CompleteIsFunded | src/crawlbtc/phases/extract.py:126-129 | after full extraction every spending transaction's total_in is positive and is what its senders put in, so the three rows above apply |
| Haircut.IncomingIsWholeInputs | src/crawlbtc/trace.py:101-131 | the incoming edges of an address add up to the whole inputs of the transactions that paid it |
| Incoming.DirectIncomingIff | src/crawlbtc/trace.py:283-286 | a direct incoming edge is off by exactly what its transactions paid elsewhere, and, if none pays out more than it takes in, right if and only if they paid nothing elsewhere |
| Incoming.ChangeIsCounted | src/crawlbtc/trace.py:101-131 | two blocks after which an edge labelled direct says 5 where 3 were paid |
| Directions.DirectionsDifferBy | src/crawlbtc/trace.py:79-131 | for every pair the incoming edge exceeds the outgoing estimate by exactly the funder's share of what was paid elsewhere; the two directions agree if and only if nothing was |
| Report.DirectionsCover | src/crawlbtc/trace_template.py:73 | both directions show every node in order; one direction shows its own nodes and the origin |
| Report.FlowsCover | src/crawlbtc/trace_template.py:75 | both directions show every edge in order; the two single directions split them |
| Report.CollapseNodes | src/crawlbtc/trace_template.py:79-81 | merged nodes have the members' sums, the members in order, an origin if any member is one, and the first member's other fields |
| Report.CollapseEdges | src/crawlbtc/trace_template.py:82-83 | merged edges have the sums of value and count of their key and the ends of its first edge; edges inside an entity are dropped |
| Report.CollapseKeepsTotals | src/crawlbtc/trace_template.py:81 | merging keeps everything received and everything sent |
| Report.CollapseKeepsValue | src/crawlbtc/trace_template.py:82 | total edge value is the merged value plus the value of dropped edges |
| Report.PairValueIff | src/crawlbtc/trace_template.py:82 | a merged edge carries exactly the flows between its ends if and only if no other pair that shares its key has any |
| Report.PlainNamesMergeRight | src/crawlbtc/trace_template.py:80-82 | with no `>` in any name every merged edge is right |
| Report.KeysClashIff | src/crawlbtc/trace_template.py:82 | two pairs share a key if and only if they are equal or the separator can be read in two places |
| Report.NamesNeverClashIff | src/crawlbtc/trace_template.py:80-82 | exactly which sets of names give every pair its own key |
| Report.ClashingEdges | src/crawlbtc/trace_template.py:80-82 | two edges between different entities that are merged into one with a wrong value |
| Risk.Round | src/crawlbtc/trace_template.py:89 | a round looks at the new addresses once, keeps the worst type, and collects exactly their sources |
| Risk.RiskOf | src/crawlbtc/trace_template.py:88-90 | risk is the worst rank within 39 edges, and the reported type has that rank |
| Risk.Shaped | src/crawlbtc/trace_template.py:72-94 | the shown graph, or for plain ids the graph merged by entity as the next rows say, with every node's risk over that same graph |
| Entities.MergesByEntity | src/crawlbtc/trace_template.py:79-83 | for distinct ids that do not start with `ent:`: two shown nodes share a merged node exactly if they are the same or have the same non-empty entity; it is named `ent:` and the entity and has its members' sums; a node without entity stays alone under its id; every merged edge joins two merged nodes of a flow and none has both ends in one entity |
| Entities.MergesFlows | src/crawlbtc/trace_template.py:82-83 | if also no id or entity contains `>`: two merged nodes have one edge exactly if there is a flow between their members, and it carries the sum of these flows' values and counts |
| Risk.RiskIsWholeIff | src/crawlbtc/trace_template.py:85-90 | risk bounds everything that reaches the node, for all types, if and only if one more hop adds no address |
| Risk.RiskKeepsUpIff | src/crawlbtc/trace_template.py:85-90 | risk never falls from one node to another, for all types, if and only if the second sees all the first sees |
| Risk.RiskNeverFalls | src/crawlbtc/trace_template.py:85-90 | along an edge into a node that sees everything behind it, risk never falls |
| Risk.RiskCanFall | src/crawlbtc/trace_template.py:89 | a line of 40 edges behind a sanctioned address: the 39th hop has risk 3, the 40th has 0 |
| Base58.Base58CheckEncode | src/crawlbtc/core/addresses.py:116-131 | the loops over digits and leading zero bytes compute the encoding |
| Base58.DecodeEncode | src/crawlbtc/core/addresses.py:120-131 | decoding as in section 4 of draft-msporny-base58 inverts the encoder on every byte string, and leading zero bytes match leading '1's one for one |
| Base58.EncodeDecode | src/crawlbtc/core/addresses.py:120-131 | the encoder inverts the decoder on every string of base58 digits |
| Base58.CheckRoundTrip | src/crawlbtc/core/addresses.py:116-131 | version and payload come back from the checked string, for every version, payload and hash |
| Base58.CheckIsCanonical | src/crawlbtc/core/addresses.py:116-131 | a string that passes the check is the encoding of what it decodes to |
| AddressLength.AddressShape | src/crawlbtc/core/addresses.py:116-131 | a version-0 address of 20 bytes starts with '1' and has 25 to 34 characters |
| Ripemd160.Ripemd160Py | src/crawlbtc/core/addresses.py:38-100 | the Python loops on unbounded signed integers compute the function of the next rows; a bit length beyond eight bytes raises |
| Ripemd160.Lines | src/crawlbtc/core/addresses.py:87-93 | eighty steps of both lines side by side |
| Ripemd160.Padded | src/crawlbtc/core/addresses.py:78-83 | the padding loop appends 0x80, zeros and the length |
| Ripemd160.BlocksBounded | src/crawlbtc/core/addresses.py:85-99 | all chaining words stay in 0 to 2^32 - 1, for every message and block |
| Ripemd160.PythonIsRipemd160 | src/crawlbtc/core/addresses.py:38-100 | late masking on signed integers equals, for all messages under 2^61 bytes, the 32-bit function that the next rows tie to Appendix A of "RIPEMD-160: A Strengthened Version of RIPEMD" |
| Ripemd160Standard.MessageOrder | src/crawlbtc/core/addresses.py:40-49 | the first rounds take word i and word 9i + 5 mod 16, and each later round is the permutation rho of the one before |
| Ripemd160Standard.RotationsByWord | src/crawlbtc/core/addresses.py:50-59 | both lines rotate by one table, indexed by round and message word and written out |
| Ripemd160Standard.ConstantsAreRoots | src/crawlbtc/core/addresses.py:60-61 | the constants are the square and cube roots of 2, 3, 5 and 7, scaled by 2^30, and the two zeros |
| Ripemd160Standard.StartBytes | src/crawlbtc/core/addresses.py:77 | the start value is the bytes 01 23 45 67 89 AB CD EF FE DC BA 98 76 54 32 10 F0 E1 D2 C3 |
| Ripemd160Standard.FunctionTables | src/crawlbtc/core/addresses.py:66-75 | the five boolean functions, bit by bit, as truth tables |
| Ripemd160Standard.LineRecurrence | src/crawlbtc/core/addresses.py:87-93 | each word of a line comes from the five before it, three of them rotated by 10, with the round's message word, constant, shift and function; the right line takes the functions in reverse |
| Ripemd160Standard.Combination | src/crawlbtc/core/addresses.py:94-99 | each new chaining word is the sum of the old one next to it, the left line's next but one, and the right line's after that |
| Ripemd160Standard.Padding | src/crawlbtc/core/addresses.py:78-83 | the message, 0x80, zeros, and the bit length from the low byte on, in whole blocks |
| Ripemd160Standard.BlockByBlock | src/crawlbtc/core/addresses.py:85-99 | blocks are taken in order, each combined with the words the earlier ones left |
| Ripemd160Standard.DigestBytes | src/crawlbtc/core/addresses.py:100 | the digest is the five chaining words after the last block, low byte first |
| Ripemd160.PadInjective | src/crawlbtc/core/addresses.py:78-83 | different messages are padded differently |
| Addresses.ScriptRoundTrip | src/crawlbtc/core/addresses.py:144-153 | taking the key out of a raw-key script in digits of either case gives its lower-case form |
| Addresses.LowerKeepsBytes | src/crawlbtc/core/addresses.py:137-148 | lower-casing a key keeps it a key of the same bytes |
| Addresses.RawKeyGetsItsAddress | src/crawlbtc/core/addresses.py:185-216 | a raw-key output reported without an address gets the "1..." address that decodes to version 0 and the hash of that key, whether the key is in the hex or in the asm |
| Addresses.KeyAddressBytes | src/crawlbtc/core/addresses.py:112-141 | the address of a key decodes to a zero byte, the RIPEMD-160 of the SHA-256 of its bytes, and four bytes of the double SHA-256 of these; a line feed behind the key does not matter |
| Addresses.HexRoundTrip | src/crawlbtc/core/addresses.py:141 | each byte of a key is written by its two digits, in either case, the higher one first |
| Addresses.KeyShape | src/crawlbtc/core/addresses.py:134-140 | a key is 02 or 03 and 64 digits, or 04 and 128 |
| Addresses.ReportedComesBack | src/crawlbtc/core/addresses.py:192-203 | a reported address comes back unchanged, with the label asked for on a raw-key script, else that of the script type, else that of the address's first characters |
| Addresses.OwnerIff | src/crawlbtc/core/addresses.py:185-216 | an output has an owner exactly when an address is reported or the script is a raw-key script with a public key in its hex, or, without one there, as first word of its asm |
| Addresses.NoWordIff | src/crawlbtc/core/addresses.py:208-211 | splitting yields no word if and only if every character is white space |
| Addresses.RaisesIff | src/crawlbtc/core/addresses.py:205-212 | exactly which script objects make extraction raise |
| Addresses.AddressesDiffer | src/crawlbtc/core/addresses.py:137-141 | different key hashes get different addresses |

## Left out

- RPC client, retries, pooling, signals, sleeping and process start: only the transactions they trigger are steps; a cancelled write either commits or does not.
- PostgreSQL itself: transaction atomicity, unique keys, row locks and SKIP LOCKED are taken as given; a claim may find any set of rows locked.
- The 15-minute staleness of `reset_abandoned`: resets of rows nobody holds are a premise of the protocol theorems.
- A commit whose answer is lost: the model's worker knows whether its transaction committed.
- The digest of a concrete message: none is worked out; `Ripemd160Standard` fixes each part of the function instead.
- SHA-256 is any function to 32 bytes; RIPEMD-160 by OpenSSL, where it exists, is assumed equal to the function proved here.
- Integer widths of the database (bigint, integer, int4 indices): amounts and heights are unbounded.
- JSON beyond what is read: amounts given as strings, inputs that are not objects, and times as floats; a script on which address extraction raises (`Addresses.RaisesIff`) does not occur inside `Chain.Block`, so its effect on `parse_block` is not modelled.
- `total_in` NULL from databases older than the current schema: nothing modelled writes NULL.
- `last_scanned_txid`, `updated_at`, `address_type` of `address_balances`, and the p2pk label of databases without that enum value.
- `lower()` on characters outside ASCII, which no hex digit or opcode contains.
- The order in which the lookup query of a backfill returns rows: the staged order is used; no contract depends on it.
- `requeue --phase address` on finished heights and watch addresses added during a scan: excluded from `DeltasExactlyOnce`, `RunEndsOffBy`, `RunCountsOffBy` and `RunEndsAtRecomputed`, as the program's own advice to recompute afterwards suggests.
- Haircut.EstimatesConserve: exact fractions with the limits on outputs and fan-out not binding; the rounding of the final sum to whole satoshis is not modelled.
- Haircut.SenderNeverExceeds: the same limits and rounding are outside it.
- Directions.DirectionsDifferBy: the same, and the limit on received transactions.
- Haircut.DirectIsExact: outgoing edges only; for incoming ones see `DirectIncomingIff`.
- The trace's query-timeout counter, signed level, confidence and first/last-seen times of edges, the origin's funder panel, and entity labels: derived values or display.
- Risk.Shaped: `Object.values` lists merged nodes in insertion order; the model lists them in some order.
- Report amounts are rounded to six decimals of a bitcoin before they are summed; the model sums integers.
- The progress counters and fast-path probe of `scripts/01_backfill_vins_deadrecon.py`, the older scripts, backups, configuration, tags, logging, HTML, spreadsheets and drawing.
