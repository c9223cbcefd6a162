# RelayForge money ledger and launch protocols: model and proofs

RelayForge is a parent-owned control plane for agent runs. This project models its hard core in Dafny and proves
what the rest of the program relies on: the durable money ledger with its write-ahead log, the publication and
migration protocols around it, the stream machines whose verdict decides what a call cost, the turn that spends
the money, the gate that keeps orphaned providers from being doubled, the task board, and the teardown of a scope.

`dafny verify dfyconfig.toml` checks everything. Module by module:

- **Files** (`LineLog`, `Files`, `Journal`, `Wal`): a file is its bytes; a write may be torn at any byte, and beside its
  bytes a file has every content a power cut may leave of it. `Files` is a host on which any I/O call can fail, fall
  short, or be the last one. The hash is taken as collision free (a digest *is* the chain it was computed over). Text
  is a printer and a parser with stated laws.
- **The handle** (`LedgerSteps`, `LedgerHandle`, `CrashSafety`, `Markers`, `Durability`, `Answers`): `LedgerHandle` is a
  class over two mutable files. Its methods are proved to make only the steps of `LedgerSteps`; `CrashSafety` proves
  safety over all runs of those steps by any number of handles, `Markers` which log lines stand behind each record
  there, `Durability` safety over all runs in which the power may also go at any moment, and `Answers` when what a read
  was answered with stays.
- **Money** (`Money`, `Attest`, `Ledger`, `Budget`, `Accounts`, `LedgerCalls`): exact nano-USD arithmetic, the canonical
  encoding under a symbolic MAC, the fold of reservations, and budget safety over all runs. `Accounts` says of the
  records alone, without the fold, what a journal owes and exactly which record each call proposes on it.
- **Publication and migration** (`Publish`, `Legacy`, `Migration`, `Rerun`, `LedgerDirectory`): openers racing to publish
  by hard link; the strict version 1 fold; the resumable migration, as steps of a directory and as a class whose
  methods make those steps, and from where a re-run finishes. A hard link is a second reference to one file object.
- **Streams** (`Json`, `ClaudeStream`, `ClaudeRecords`, `ClaudeRule`, `CodexStream`, `CodexItems`): the two normalizer
  classes, each proved against a declarative rule over the whole stream, every field of the verdict included; and the
  schemas of the records they validate.
- **The turn** (`Turn`): reserve, run, settle, fall back, on every exit. Its ledger calls, and those parallel turns make
  in between, are events of one run of the ledger, and what the turn leaves is stated of every continuation of it; with
  nothing failing, what it comes to is stated exactly.
- **The board** (`Board`, `BoardRun`, `BoardProgress`): the event fold and the loop's passes, whole runs with crashes, and
  that such runs can always go on.
- **Launch and teardown** (`OrphanGate`, `Teardown`, `ScopeText`): the journal-before-exec handshake and recovery over
  incarnations, the removal of a scope, and the text a scope is known by.

## What the proofs found

Each of these is proved of the code as it is: an input or a run that shows it, and the exact condition under which the
promise behind it holds.

1. *A reconciliation can drop an accepted record.* A final record that lacks only its newline is accepted and the
   absent newline is counted, so the next write leaves a hole. If that write is torn, the unterminated record
   becomes garbage and a second reconciliation accepts the journal without it. After an interrupted transaction
   adding `r` to `P`, every reconciliation accepts `P` or `P` then `r` **if and only if** `P` did not end in such a
   record (or the log itself ends in one). `CrashSafety.ReconcileExactly`, `CrashSafety.OverhangLosesARecord`,
   `CrashSafety.OverhangIsReachable`. A record whose transaction returned is never lost.
2. *A reconciliation accepts a journal it does not sync.* A transaction killed after writing its record and before syncing
   it, then a reconciliation, then a power cut: the record is gone, the log vouches for it, and reads are answered
   without it. A successful reconciliation is safe against a power cut **if and only if** every content the journal
   may be found to have folds to the same tip (or the log itself overhangs); a sync of the journal before it would be
   enough. `Durability.UnsyncedAcceptanceIsLost`, `Durability.ReconcileSafeExactly`,
   `Durability.SyncedReconcileIsSafe`. Records whose transaction returned, or reached its commit, survive all the same.
3. *The log fold counts an ill-formed last marker.* An unterminated last line is counted, with the newline it lacks,
   **if and only if** it parses, well-formed marker or not, because the `break` inside the `switch` leaves the
   `switch` only (`src/ledger.ts:819-845`); and exactly then no marker can be appended to the log any more.
   `CrashSafety.LastLineCountedExactly`, `CrashSafety.UnknownLastLineIsCounted`.
4. *The payload shape check alone would allow a record that both lowers the bill and authorizes a second provider.*
   Only the two mints exclude it. `Budget.ShapeAloneAllowsBoth`, `Budget.RouteAndMoneyAreExclusive`.
5. *Some migrations can never be finished.* A re-run can finish **if and only if** its nonce is well formed, is the one the
   migration began with, and the new generation, if there is one, can be read. `Rerun.FinishesExactly`. A first run
   with a malformed nonce is not refused until its intent is published and the leaf archived, and then no run ever
   finishes (`Migration.MalformedNonceIsReached`, `Migration.MalformedNonceIsForever`). A run that dies inside its
   carry transaction leaves a generation that cannot be read, and an ordinary open, from which a reconciliation
   could be made, refuses while the migration is in progress (`Rerun.StuckIsReached`, `Migration.StuckStays`,
   `Migration.StuckOnlyInTheWindow`).
6. *A crash during a repair is not counted as a failed attempt*, because a second claim does not change the status. A task
   is launched at most `1 + maxRepairs` times plus once for each crash that hit it under repair, and with repairs
   allowed there are runs that attain this for every number of crashes. `BoardRun.LaunchesAreBounded`,
   `BoardRun.CrashesBuyLaunches`, `BoardRun.ReclaimedIffFirstClaim`.
7. *A torn scope line garbles the next one*: that launch goes ahead, and every later resume is blocked until the record is
   edited by hand. A recovery can go on **if and only if** every entry of the journal can be read
   (`OrphanGate.ResumeExactly`); a whole line keeps a readable journal readable **if and only if** it starts on a fresh
   line, which the caller could check (`OrphanGate.RecordReadableExactly`); one durable line that cannot be read
   blocks for ever (`OrphanGate.UnreadableIsForever`), and a run reaches one (`OrphanGate.TornLineIsReached`).
8. *A scope journal that cannot be read counts as absent*, whatever the read failed with. Going on unread never leaves an
   orphan **if and only if** the journal names nothing: only an absent or empty one may be taken for absent. From every
   other journal of whole lines some run recovers with a provider alive. `OrphanGate.UnreadRecoveryExactly`,
   `OrphanGate.UnreadNothingIsSafe`, `OrphanGate.UnreadOrphans`.
9. *An enrolment line with a byte-order mark before it is accepted*, since the decoder drops the mark: a stream is accepted
   **if and only if** it is the expected line, with the mark or without. `ScopeText.EnrolledExactly`.
10. *What a read saw can be lost.* A read is answered from a journal that a reconciliation accepted unsynced, or without its
    last newline (items 1 and 2), so a settlement a turn only *saw* may be gone from a later journal, where one it
    *made* never is. Everything a read was answered with is in every later answer **if and only if** every content the
    journal may be found to have keeps it, newline and all; a synced journal that ends in a newline is one, and so is
    every journal of a run whose reconciliations accepted only such. `Answers.AnswersStayExactly`,
    `Answers.SyncedAnswersStay`, `Answers.CarefulAnswersStay`.
11. *The removal of a scope can take another object of the same name.* The name is compared with the recorded inode once,
    and after that only the device is. Nothing but the pinned object is listed or removed under the name as long as
    the name is not made again; an empty cgroup made there on the device, after the comparison and before the walk, is
    removed in its place.
    `Teardown.Settle`, `Teardown.ReplacementIsRemoved`.

## Model

| member | source | states |
|---|---|---|
| `LineLog.FoldIsSettledThenTail` | src/ledger.ts:668-710 | A file folds to what its terminated lines fold to, then at most its unterminated tail; a rejected terminated line corrupts the file. |
| `LineLog.PutClean` | src/ledger.ts:1198-1209 | A write cut anywhere, at the durable offset of a file that does not overhang, changes the fold only if the whole line (or all but its newline) got out. |
| `LineLog.PutOverhang` | src/ledger.ts:707 | Over a final line accepted without its newline, a torn write loses that line and a whole one corrupts the file for good. |
| `Journal.FoldContent` | src/ledger.ts:668-710 | The loop over lines computes the fold of the bytes: records, tip and the offset to append at, or corruption. |
| `Journal.FoldChained` | src/ledger.ts:657-710 | Whatever the bytes, the folded records are exactly the chain the tip names. |
| `Journal.SameTipSameRecords` | src/ledger.ts:657-710 | Two accepted journals of one generation with the same tip hold the same records. |
| `Journal.WriterAndReaderAgree` | src/ledger.ts:1261-1276 | Folding a printed journal returns exactly the printed records, to the last byte; one invalid payload makes all of it unreadable. |
| `Wal.FoldWal` | src/ledger.ts:797-848 | The log's loop computes pending intent, poison and durable offset, accepting a commit only for the pending intent. |
| `Wal.MarkersExactly` | src/ledger.ts:797-848 | A log of whole lines is read exactly when every line is a well-formed marker and every commit is that of the one intent open at its place; then an open intent is pending, a poison mark no recovery followed poisons, and the tip is that of the last commit or recovery. |
| `Files.File.WriteAll` | src/ledger.ts:1198-1209 | Whatever stops the loop of short writes, a prefix of the text is in the file at its offset, and until a sync a power cut may leave any prefix of it. |
| `LedgerHandle.LedgerHandle.WalAppend` | src/ledger.ts:1198-1209 | Appends one marker at the log's durable offset, or some prefix of it, or nothing; success means all of it. |
| `LedgerHandle.LedgerHandle.Poison` | src/ledger.ts:1228-1239 | The failure is remembered in memory always and on disk if the disk takes it. |
| `LedgerHandle.LedgerHandle.Txn` | src/ledger.ts:1243-1319 | Every way a transaction can end is one of the allowed steps on the two files and on what a power cut may leave of them; one that throws after touching the journal has poisoned the handle; with no fault it commits what the decision proposed on the folded journal. |
| `LedgerHandle.LedgerHandle.Read` | src/ledger.ts:1353-1384 | A read changes nothing and returns the fold, only when the log is clear and the handle usable. |
| `LedgerHandle.LedgerHandle.Reconcile` | src/ledger.ts:1767-1824 | Accepts what the journal folds to, without syncing it, writes only the log, and clears the poison only after the receipt is durable: a reconciliation that fails leaves it. |
| `CrashSafety.SuccessfulFoldIsTrusted` | src/ledger.ts:1243-1384 | In every run of any handles with crashes and torn writes, a successful read or transaction folds exactly the records the log vouches for. |
| `Markers.AnsweredRecordsHaveMarkers` | src/ledger.ts:797-848 | In every run, each record a successful read or transaction is answered with has its own commit marker in the log, or lies under a tip a reconciliation accepted. |
| `CrashSafety.ReturnedRecordsSurvive` | src/ledger.ts:1243-1319 | A record whose call returned is in everything any later call is answered from, in its place. |
| `CrashSafety.AnsweredJournalsAreJustified` | src/ledger.ts:1256-1276 | Every journal a call is answered from was built record by record by the callers' decisions. |
| `CrashSafety.NothingSucceedsUntilReconcile` | src/ledger.ts:1253-1259 | After an interruption between a durable intent and a whole commit, torn anywhere, no ordinary call on any handle succeeds before a reconciliation and no byte changes; the one exception is a commit whose text is all in the log. |
| `CrashSafety.CommitCut` | src/ledger.ts:1296-1312 | A commit cut before its last body byte blocks the ledger; from that byte on the record counts as committed. |
| `CrashSafety.LastLineCountedExactly` | src/ledger.ts:797-848 | An unterminated last line of the log is counted exactly when it parses, and exactly then the next marker makes the log unreadable. |
| `CrashSafety.UnknownLastLineIsCounted` | src/ledger.ts:838-845 | The input: a last line of JSON that is no marker. |
| `CrashSafety.ReconcileExactly` | src/ledger.ts:1767-1824 | A reconciliation after an interrupted transaction accepts the old journal or old plus new, for every interruption, if and only if the journal did not overhang at its start (or the log did). |
| `CrashSafety.OverhangLosesARecord` | src/ledger.ts:707 | Otherwise there is an interruption after which it accepts the old journal without its last record. |
| `CrashSafety.OverhangIsReachable` | src/ledger.ts:1767-1824 | A journal that overhangs, over a clear log, is reached by one torn transaction and one reconciliation. |
| `CrashSafety.CommitOverOverhangIsFinal` | src/ledger.ts:707 | A committed append over an overhang leaves a journal nothing ever reads again: it fails closed. |
| `CrashSafety.CommitIsReadExactly` | src/ledger.ts:1277-1319 | After a commit readers find the record at the end of the journal if and only if neither file overhung and the payload passes the schema; otherwise they find nothing. |
| `CrashSafety.ReconcileUnblocksExactly` | src/ledger.ts:1767-1824 | After a successful reconciliation ordinary calls read exactly the accepted journal, whatever blocked them, if and only if the log did not overhang; otherwise nothing. |
| `CrashSafety.PoisonBlocks` | src/ledger.ts:1228-1239 | Once a poison mark is durable no ordinary call succeeds or changes a byte before a reconciliation, even with the whole text of a commit in the log before it. |
| `Durability.ReturnedRecordsSurvivePowerCuts` | src/ledger.ts:1277-1312 | In every run with power cuts, a record whose call returned is in everything any later call is answered from, in its place. |
| `Durability.WrittenRecordsSurvivePowerCuts` | src/ledger.ts:1278-1297 | So is a record that was on disk when its commit was being written, though its call died and the commit may never have been. |
| `Durability.AnsweredJournalsAreJustifiedAcrossPowerCuts` | src/ledger.ts:1256-1276 | In every run with power cuts, an answered journal was built record by record by the callers' decisions. |
| `Durability.SuccessfulFoldIsTrustedAcrossPowerCuts` | src/ledger.ts:1243-1384 | In every run with power cuts whose reconciliations accepted stable journals, a successful call folds exactly what the log vouches for. |
| `Durability.ReconcileSafeExactly` | src/ledger.ts:1767-1824 | A successful reconciliation leaves nothing a power cut can falsify if and only if the journal it accepted was stable (or the log overhangs). |
| `Durability.SyncedReconcileIsSafe` | src/ledger.ts:1767-1824 | It is safe whenever the journal is synced when it is accepted. |
| `Durability.UnsyncedAcceptanceIsLost` | src/ledger.ts:1767-1824 | A run in which it does: an unsynced record is accepted, cut, and the next read is answered without it. |
| `Durability.NothingSucceedsAcrossPowerCuts` | src/ledger.ts:1271-1297 | After an interruption between a durable intent and its commit, inside the commit too, no call succeeds or changes a byte before a reconciliation, whatever power cuts leave; the one exception is that the interruption or a cut left the whole text of the commit in the log. |
| `Durability.OldOrNewAcrossPowerCuts` | src/ledger.ts:1767-1824 | A transaction interrupted, a power cut, a reconciliation: the old journal or the old and the new record, whatever happens, if and only if every content the last sync left open folds to one of the two and the journal does not overhang (or the log does). |
| `Durability.StableOldOrNewExactly` | src/ledger.ts:1767-1824 | From a stable journal, a synced one among them, that holds exactly when it holds without power cuts. |
| `Answers.AnswersStayExactly` | src/ledger.ts:1353-1384 | All a read was answered with is in every later answer, whatever crashes, reconciliations and power cuts follow, if and only if every content the journal may be found to have keeps it, newline and all. |
| `Answers.SyncedAnswersStay` | src/ledger.ts:1353-1384 | A synced journal that ends in a newline is such a one, which a caller could check. |
| `Answers.CarefulAnswersStay` | src/ledger.ts:1767-1824 | So is every journal answered from in a run whose reconciliations accepted only journals no power cut can change and that end in a newline. |
| `Money.ParseAfterFormat` | src/money.ts:81-104 | Reading back a printed amount is the identity up to the maximum and refused exactly above it. |
| `Money.FormatAfterParseDropsZeros` | src/money.ts:81-104 | The other composition is not an identity. |
| `Money.ParsedIsWritten` | src/money.ts:33-62 | A parsed decimal is the text it was parsed from. |
| `Money.DecimalReadsBack` | src/money.ts:33-62 | Every well-formed decimal parses back from its text. |
| `Money.ConversionIsExact` | src/money.ts:40-62 | A text converts to n exactly when the value it writes, times 10^9, is the integer n in range. |
| `Money.SpellingsAgree` | src/money.ts:40-62 | Two spellings of one value convert to the same result or are both refused. |
| `Money.UsdIsExact` | src/money.ts:69-79 | A value converts to n exactly when it is zero or a finite positive number whose text writes n whole nano-USD, within the maximum. |
| `Attest.EncodeInjective` | src/attest.ts:211-252 | The length-prefixed encoding of named values determines every value, an absent one differing from an empty one. |
| `Attest.CanonicalInjective` | src/attest.ts:211-252 | Two payloads with one canonical encoding are the same payload. |
| `Attest.TagFixesEveryField` | src/attest.ts:269-284 | Under a symbolic MAC, two attestations that verify with one tag carry the same payload under the same key. |
| `Ledger.FoldReservations` | src/ledger.ts:729-768 | The loop over records computes the per-call state, or refuses a conflicting journal. |
| `Ledger.Spend` | src/ledger.ts:770-774 | The loop sums each call at its trusted cost if settled with one and at its worst case otherwise. |
| `Budget.ReserveProposal` | src/ledger.ts:1399-1428 | A reservation is proposed only for an unused id and nonce, is accepted by the fold, and fits a positive budget. |
| `Budget.SettleProposal` | src/ledger.ts:1449-1478 | A settlement is proposed only for an open call of the same binding, and the fold applies exactly it. |
| `Budget.BuiltJournalsAreAccepted` | src/ledger.ts:575-651 | Whatever the ledger's own calls append keeps the journal acceptable: it folds, and prints and reads back. |
| `Budget.BudgetHoldsInEveryRun` | src/ledger.ts:1399-1428 | In every run under one positive budget, spend exceeds it by at most what trusted costs ran over their worst cases. |
| `Budget.BudgetHoldsAcrossPowerCuts` | src/ledger.ts:1399-1428 | The same in every run with power cuts, and spend within the budget there while no call is flagged as a violation. |
| `Budget.UnflaggedStaysWithinBudget` | src/ledger.ts:1701-1706 | While no call is flagged as a violation, spend stays within the budget, at every answer of every run. |
| `Budget.AdmittedReserveFits` | src/ledger.ts:1399-1428 | An admitted reservation raises spend by exactly its worst case and leaves it within the budget. |
| `Budget.SettlementConservesSpend` | src/ledger.ts:1439-1478 | An uncertain or fallback settlement leaves spend unchanged; a trusted one moves it by actual minus worst case. |
| `Budget.RouteAndMoneyAreExclusive` | src/ledger.ts:1581-1679 | In every reachable journal a settlement that authorizes a fallback costs the worst case, and one that costs less authorizes none. |
| `Budget.ShapeAloneAllowsBoth` | src/attest.ts:322-338 | A record passing every fold-time check could do both, so this rests on the two mints. |
| `Budget.AttestationIsNotTransferable` | src/ledger.ts:526-552 | Two accepted settlements with one tag are of one generation, run and key, and name the same call, reservation, attempt, route epoch, adapter and amount. |
| `Budget.CallsHaveOneLife` | src/ledger.ts:729-768 | In every accepted journal an id is reserved once, settled at most once and after that, and no nonce is reused. |
| `Accounts.FoldsExactly` | src/ledger.ts:729-768 | A journal folds if and only if its calls have one life each and the amounts that count parse; the table then says of each reservation what the records say: settled, proven cost, authority, overrun, each both ways. |
| `Accounts.SpendExactly` | src/ledger.ts:770-774 | The spend is what the records owe: each reservation once, at the proven cost some settlement of it carries and otherwise at its worst case. |
| `Accounts.ReserveExactly` | src/ledger.ts:1399-1428 | A reservation raises if and only if its binding is malformed, the journal conflicts, or some record has its call id or nonce; it is denied if and only if a positive budget has no room for it; otherwise exactly that record is proposed. |
| `Accounts.UncertainExactly` | src/ledger.ts:1439-1478 | An uncertain settlement is proposed if and only if the binding is well formed and its call open, and carries nothing. |
| `Accounts.MintsExactly` | src/ledger.ts:1521-1679 | A mint proposes a settlement if and only if the binding is well formed and of this run, its call open, its scope empty and of the strongest kind the host has, the adapter the reservation's, the evidence well formed and the amount parses; and what it proposes carries an authentic attestation of just that evidence. |
| `Accounts.SettlementEffect` | src/ledger.ts:1449-1478 | A settlement settles its call, gives it a proven cost exactly when the money mint made it, and authority exactly when the route mint did. |
| `LedgerCalls.ReserveCall` | src/ledger.ts:1399-1428 | A malformed input changes nothing; a denial wrote nothing and would not have fitted; an admission is a committed step of the runs. On a ledger that can be read, with nothing failing, it is refused exactly when a record has its id or nonce, denied exactly when what the records owe leaves no room, and admitted otherwise. |
| `LedgerCalls.SettleUncertain` | src/ledger.ts:1439-1443 | Settles with no attestation: the committed record trusts no cost; with nothing failing it settles exactly when the records hold this reservation and no settlement of it. |
| `LedgerCalls.EffectiveSpend` | src/ledger.ts:1681-1689 | The answer is what the records of the journal owe; with nothing failing it is given whenever the journal can be read and has no conflict. |
| `LedgerCalls.BudgetReached` | src/ledger.ts:1693-1697 | A positive budget is reached exactly when what the records owe is at least it; no budget never is. |
| `LedgerCalls.BudgetViolation` | src/ledger.ts:1701-1706 | Names the first reservation under a budget whose proven cost exceeds its worst case, and none exactly when there is none. |
| `Publish.ManifestImpliesKey` | src/ledger.ts:2082-2106 | For any openers and deaths, a visible manifest has a visible key at every step, and neither ever changes once visible. |
| `Publish.AllOpensAgree` | src/ledger.ts:1971-2038 | All opens that succeed hold the same manifest and key, and were for the run it names. |
| `Publish.SweepSparesTheRace` | src/ledger.ts:1841-1901 | The sweep of leftovers never removes a temporary that is still to be linked. |
| `Publish.LostKeyIsNeverReplaced` | src/ledger.ts:2001-2008 | A generation whose key is gone is never opened and never given another key. |
| `Publish.UnownedLeafIsRefused` | src/ledger.ts:2169-2186 | Bytes in a leaf no manifest owns are neither adopted nor reset. |
| `Publish.OpensExactly` | src/ledger.ts:2040-2134 | From any state an opener can be in, whatever others did before, its remaining calls end, and they open the published generation if and only if it is of its run and has its key, and one still to be made finds no bytes in the leaf. |
| `Legacy.FoldLegacyV1Bytes` | src/ledger.ts:2505-2570 | The loops answer with a count and a balance exactly when the file holds a strict list of records of that count and balance, and refuse otherwise. |
| `Legacy.FoldsExactly` | src/ledger.ts:2493-2570 | The fold answers with a count and a balance if and only if the lines of the file are, one for one and in order, the chained records of a list (what follows the last newline being one more record or no JSON) in which no id is reserved twice, none settled early or twice and every amount is exact; the count is its length, and the balance what it owes, each reservation once, exactly representable. |
| `Legacy.PrintedFileFolds` | src/ledger.ts:2505-2570 | Every such list, printed, folds to its length and its balance. |
| `Migration.OpenNeverFindsAnEmptyBudget` | src/ledger.ts:2071-2080 | From any valid version 1 board, with crashes and re-runs, an ordinary open refuses or finds the migration complete. |
| `Migration.EveryAnswerCarriesTheBalance` | src/ledger.ts:2793-2814 | Every ledger call of such a board is answered from a journal that starts with the carry, reserved once, and the first sees spend equal to the legacy balance. |
| `Migration.MigrateKeepsPhase` | src/ledger.ts:2689-2842 | Every durable step a migration may take, from any crash point, keeps the legacy bytes, the committed balance and the order of publication. |
| `Migration.CarryTxnFills` | src/ledger.ts:2797-2814 | Wherever the carry transaction stops, the balance is not reserved, reserved exactly once, or the ledger cannot be read. |
| `Migration.HeldCarryIsFound` | src/ledger.ts:1760-1762 | A reserved carry that can be read is found, so it is not reserved again. |
| `Migration.CarryAdmitted` | src/ledger.ts:2793-2814 | On an empty journal the carry is admitted against a budget of exactly itself. |
| `Migration.StuckStays` | src/ledger.ts:2797 | A migration whose new ledger cannot be read makes no further step, whoever re-runs it. |
| `Migration.StuckOnlyInTheWindow` | src/ledger.ts:1362-1366 | That happens only behind an intent without a commit, a poison mark, or a commit that lacks its newline under a whole poison mark. |
| `Rerun.FinishesExactly` | src/ledger.ts:2689-2842 | From every state a migration can be left in, some re-run finishes it if and only if the nonce is well formed and its own and the new generation is not stuck. |
| `Rerun.StuckIsReached` | src/ledger.ts:2793-2814 | From every board with a balance the stuck state is reached, by a carry that dies once its intent is durable. |
| `Migration.MalformedNonceIsReached` | src/ledger.ts:2731-2781 | A first migration with a malformed run nonce reaches a board with no leaf and an unresumable intent. |
| `Migration.MalformedNonceIsForever` | src/ledger.ts:2844-2868 | From there no open succeeds and no migration finishes, in any run. |
| `LedgerDirectory.Directory.EnsureAttestKey` | src/ledger.ts:1971-2038 | Keeps an existing key, publishes one only for a fresh generation, and never both. |
| `LedgerDirectory.Directory.InitLedger` | src/ledger.ts:2169-2247 | Makes the two files, refuses a leaf with bytes in it, and publishes the manifest last. |
| `LedgerDirectory.Directory.Open` | src/ledger.ts:2040-2134 | An ordinary open makes only the steps of a fresh generation, none at all while a migration is in progress, and its handle serves the published one; with nothing failing it succeeds if and only if the nonce is well formed, no migration is in progress, and the directory is fresh or holds a generation of this run with its key. |
| `LedgerDirectory.Directory.CommitIntent` | src/ledger.ts:2701-2753 | Touches nothing unless the strict fold succeeds, and commits to that balance or finds the same commitment. |
| `LedgerDirectory.Directory.ArchiveLeaf` | src/ledger.ts:2757-2787 | Removes the leaf only once the archive is the same file, and proves the archive holds the committed bytes. |
| `LedgerDirectory.Directory.CarryForward` | src/ledger.ts:2793-2814 | Reserves the balance through the ordinary money path unless it is reserved already. |
| `LedgerDirectory.Directory.Migrate` | src/ledger.ts:2689-2842 | Wherever it stops, only migration steps were made; with nothing failing it finishes from every phase that is not stuck or complete. |
| `ClaudeStream.StreamingClaudeNormalizer.PushLine` | src/normalize.ts:378-448 | One line moves the fields exactly as the specification state moves. |
| `ClaudeStream.StreamingClaudeNormalizer.Finish` | src/normalize.ts:450-520 | The verdict is the verdict of the specification state. |
| `ClaudeRule.AcceptsExactlyTheRule` | src/normalize.ts:378-520 | A terminal is accepted exactly when the whole sequence meets the declarative rule: known records, one init with a session, nothing authoritative before it, one session, valid rate events, one well-formed result that is last. |
| `ClaudeRule.LinesSpelledOut` | src/normalize.ts:298-330 | What an init, a result, a rate event, an authoritative and a known record and a session are, said of the JSON of a line. |
| `ClaudeRule.NormalizeClaude` | src/normalize.ts:525-530 | The batch entry is the machine on every line: its verdict has a terminal exactly when the whole text meets the rule, and reports what the result of a concluded text says, and of any other text nothing but what the session last said. |
| `ClaudeRule.MachineFollowsRule` | src/normalize.ts:378-448 | At every prefix the machine is undrifted exactly when the prefix can still be accepted, and remembers what the rule is about. |
| `ClaudeRule.LimitComesFromTheLastRateEvent` | src/normalize.ts:450-520 | An accepted stream reports a limit exactly when its result is a clean failure and its last rate event is a rejection, with that event's frame. |
| `ClaudeRule.LimitNeedsAcceptance` | src/normalize.ts:450-520 | Nothing but an accepted, unsuccessful stream reports a limit. |
| `ClaudeRule.TrailingLineUnsettles` | src/normalize.ts:378-448 | Any further nonblank line turns an accepted stream uncertain. |
| `ClaudeRule.ReportsTheResult` | src/normalize.ts:450-520 | The verdict field by field: on a clean stream that ends in its result, the cost is the result's `total_cost_usd` when its accounting is well formed and none otherwise, both counts are its usage's, the subtype its own; on any other stream all are none. |
| `ClaudeRecords.SnapshotFits` | src/normalize.ts:205-270 | A rate snapshot validates exactly when it fits the pinned schema, member by member, and has no other member. |
| `ClaudeRecords.TextOfBlocks` | src/normalize.ts:176-190 | The text of a message is that of its text blocks, in order, and none when it has none. |
| `CodexStream.StreamingCodexNormalizer.PushLine` | src/normalize.ts:647-728 | One line moves the fields exactly as the specification state moves. |
| `CodexStream.StreamingCodexNormalizer.Finish` | src/normalize.ts:730-754 | The verdict is the verdict of the specification state. |
| `CodexStream.MachineFollowsLanguage` | src/normalize.ts:630-754 | At every prefix the lifecycle is valid exactly when the prefix is open or complete in the language. |
| `CodexStream.AcceptsExactlyTheLanguage` | src/normalize.ts:568-754 | A clean terminal exactly on the lifecycle language, success exactly on its words ending in a completed turn with usage and an agent message; never a limit. |
| `CodexStream.NormalizeCodex` | src/normalize.ts:757-762 | The batch entry: a clean terminal and success exactly on the language, and every other field as the text has it. |
| `CodexStream.ReportsTheStream` | src/normalize.ts:647-754 | The verdict field by field, for every text: both counts are those of the record that ended the stream if it is a metered completion, and none otherwise; the text is the last said inside a turn before that; the frame is the last line's; no cost, subtype or limit is ever reported. |
| `CodexItems.ItemsFitTheSchema` | src/normalize.ts:568-612 | An item is valid exactly when it has a nonempty id and fits the schema of its kind. |
| `CodexItems.EventsSpelledOut` | src/normalize.ts:660-728 | What the events of the lifecycle and an agent's text are, said of the JSON of a record. |
| `Turn.RoutedTurn.SettleCompleted` | src/settlement-kernel.ts:396-417 | One mint; if the ledger refuses it, the worst case, and only after the journal said there is no settlement. With nothing failing an open call is always settled: as it was judged if the proof is good, and at the worst case otherwise. |
| `Turn.RoutedTurn.EnsureSettled` | src/orchestrator.ts:3528-3550 | Whatever escaped, the reservation is settled, found settled by a settlement record in the journal, or left outstanding because the ledger refused; with nothing failing an open call is settled at its worst case. |
| `Turn.RoutedTurn.RunWith` | src/orchestrator.ts:3363-3551 | Every path makes one reservation; an admitted one is settled first by what was judged and otherwise at the worst case, never again after a settlement that returned, and is left only resolved. What closed it is a settlement record: the one it made, which is in every later answered journal, or one it read, which stays if that journal could not lose it. From every exit on, every answered journal accounts for an admitted reservation. With nothing failing, the result and what the journal then says of the call are exactly those of the fresh, fitting reservation and the judged child. |
| `Turn.RoutedTurn.RunRoutedTurn` | src/orchestrator.ts:3555-3604 | At most two reservations; the second exactly when the primary hit a limit, a fallback exists, a durable read authorizes it and the route change is recorded; both resolved on every exit that is not a death; in every continuation of the ledger's run, parallel turns and power cuts included, every answered journal holds each admitted reservation, settled at most once and at its worst case unless a settlement with a proven cost is there, and what closed a call is a settlement record. With nothing failing, the second provider is billed if and only if the primary was admitted, hit a limit, was returned and its proof of that is good, on the route that may fall back. |
| `Turn.StatusExactly` | src/ledger.ts:1708-1714 | What a journal is read to say of a call: settled exactly when a record settles it, with a trusted cost exactly when one carries it, authorized exactly when one carries that. |
| `Turn.SecondProviderNeedsDurableAuthority` | src/orchestrator.ts:3562-3573 | In every run of the ledger, that read found, in the journal, a settlement carrying a verified fallback attestation, and the first call still counts at its worst case. |
| `Turn.AdmittedIsAccounted` | src/ledger.ts:770-774 | In every run with crashes, reconciliations and power cuts, a reservation whose transaction returned is in every later answered journal, settled at most once, and costs its worst case unless a settlement with a verified cost is there. |
| `Turn.SettlementIsKept` | src/orchestrator.ts:3382-3387 | In every such run, every later answered journal has a record of a settlement that returned. |
| `Board.BoardLog.FoldBoard` | src/board.ts:533-568 | The loop gives each known task the view of its events, the first claim winning and every failure counting. |
| `Board.ViewExactly` | src/board.ts:546-565 | The view of a task, read off the events: its status is what its last event that is not a repeated claim set, its claimant the first, its attempts the number of its failures. |
| `Board.EligibleExactly` | src/board.ts:571-593 | A task may go exactly when nobody spoke of it, or it is failed with no more failures than repairs, and each dependency is a known task that is done; it is escalated exactly when it is failed with more. |
| `Board.AwaitsReviewExactly` | src/orchestrator.ts:4459-4462 | A role waits exactly when a task it claimed first, or was assigned and nobody claimed, needs review. |
| `Board.BoardLog.NextFor` | src/orchestrator.ts:4463-4466 | An open or retryable task of the role whose dependencies are done, of the highest priority there is and a repair if one has it, or none if there is no such task. |
| `Board.BoardLog.Select` | src/orchestrator.ts:4459-4467 | One task a role, none for a role whose work awaits review, and no role with eligible work left out. |
| `Board.BoardLog.ReclaimStaleClaims` | src/orchestrator.ts:5113-5124 | Every claimed task gets one failure and no other task moves. |
| `Board.BoardLog.EscalateExhausted` | src/orchestrator.ts:5127-5146 | Exactly the tasks out of repairs are escalated. |
| `BoardRun.LaunchesAreBounded` | src/orchestrator.ts:4442-4590 | Over any run with resumes a task is launched at most 1 + maxRepairs times, and once more for each crash that hit it under repair. |
| `BoardRun.CrashesBuyLaunches` | src/orchestrator.ts:4442-4590 | With repairs allowed there is, for every number of crashes, a run that attains the bound. |
| `BoardRun.TerminalIsFinal` | src/orchestrator.ts:4675-4840 | A done or escalated task keeps its view and is never launched again. |
| `BoardRun.LaunchesRespectDependencies` | src/orchestrator.ts:1326-1330 | At a launch all dependencies are done, and each was itself launched before. |
| `BoardRun.CyclesNeverLaunch` | src/orchestrator.ts:1326-1330 | Tasks on or behind a dependency cycle, or behind an unknown task, are never launched. |
| `BoardRun.ReclaimedIffFirstClaim` | src/board.ts:550-554 | A dispatch that dies is reclaimed as a failure exactly when its claim was the first; under repair its view does not change. |
| `BoardRun.StepKeepsTask` | src/orchestrator.ts:4442-4840 | Every step keeps, for every task, at most one launch for each failure and each crash that hit it under repair, and one more while the last is unaccounted for. |
| `BoardProgress.BackToTop` | src/orchestrator.ts:5097-5124 | From every state of every run, a crash and a resume lead back to the top of the loop: each known task left claimed has failed once more, every other one is as it was, and nothing is in flight. |
| `BoardProgress.NeverStuck` | src/orchestrator.ts:4442-4840 | At the top of the loop in any run, a role with a task that may go and nothing awaiting review can have a task done that was not. |
| `BoardProgress.SelectedIsRejected` | src/orchestrator.ts:4692-4840 | Any selected task can also be rejected: it has then failed once more, and is escalated in the same iteration exactly when that is more than its repairs. |
| `OrphanGate.RecordLaunchedScope` | src/orchestrator.ts:4973-5005 | Whatever call fails, some piece of the line is in the file and no more may be found there; success means the whole line is durable under its name, and with nothing failing exactly the one-line records succeed. |
| `OrphanGate.Launch.JournalAndRelease` | src/orchestrator.ts:2162-2221 | Only the first call acts, by at most two steps of the run: the scope is recorded, and only if its line is durable and every other precondition held is the provider released; otherwise the launch is refused. |
| `OrphanGate.RecoverAbandonedScopes` | src/scope.ts:625-665 | Keeps exactly the lines whose scope is not reaped or gone, unreadable ones and verifiers' lines among them, and reports each with why. |
| `OrphanGate.ReapAbandonedScopes` | src/orchestrator.ts:5025-5089 | One recovery step of the run: the record becomes exactly what is not proven dead, or stays as it was; it goes on only when nothing is kept, or when the journal could not be read. |
| `OrphanGate.NoOrphanWhileDispatching` | src/orchestrator.ts:4156-4176 | Over all crashes, power cuts, resumes, torn lines and failed rewrites: while an incarnation may dispatch, every live provider is its own; and everything the journal may be found to hold names every provider alive or about to be released, or has a line that cannot be read. |
| `OrphanGate.LinesLeaveOnlyWhenDead` | src/orchestrator.ts:5076-5088 | In any run, power cuts included, a durable line leaves the journal only in a recovery after which nothing of its scope is alive. |
| `OrphanGate.UnreadRecoveryExactly` | src/orchestrator.ts:5026-5031 | For every journal of whole lines, a recovery that did not read it leaves no orphan in any run if and only if it names nothing. |
| `OrphanGate.UnreadNothingIsSafe` | src/orchestrator.ts:5026-5031 | In every run, going on unread from a journal that names nothing finds nothing alive and nothing about to be released, and keeps the invariant. |
| `OrphanGate.UnreadOrphans` | src/orchestrator.ts:5026-5031 | For any scopes there is a run that recovers from exactly their lines with the last one's provider alive, which going on unread orphans. |
| `OrphanGate.ResumeExactly` | src/scope.ts:634-657 | A recovery can go on, whatever is proven dead, if and only if every entry of the journal can be read. |
| `OrphanGate.ReadableResumes` | src/orchestrator.ts:4159-4176 | When everything named is proven dead it goes on exactly then. |
| `OrphanGate.RecordReadableExactly` | src/orchestrator.ts:4986 | A whole line keeps a readable journal readable exactly when it starts on a fresh line, a torn one exactly when its piece, joined to what was there, parses. |
| `OrphanGate.TidyRunsResume` | src/orchestrator.ts:4973-5005 | A run whose appends start on a fresh line and are never torn can be resumed from every recovery. |
| `OrphanGate.UnreadableIsForever` | src/scope.ts:648-657 | Behind one durable line that cannot be read no recovery of the run ever goes on. |
| `OrphanGate.TornLineIsReached` | src/orchestrator.ts:4986 | A run reaches such a line, with a provider alive behind it: a torn append, a whole one, a kill, a resume. |
| `Teardown.CgroupFs.RemoveDescendants` | src/cgroup-delegation-linux.ts:665-685 | Terminates while others make, remove and replace cgroups; touches only directories at or below the path, none below it on another device unless its name was made again; true only if the path is gone; and once the others are done it removes exactly the subtree. |
| `Teardown.Settle` | src/cgroup-delegation-linux.ts:687-744 | True only if the scope was last seen unpopulated or gone, its path absent (or a link to nowhere) and the process group dead; nothing is touched unless the name was the pinned object, and nothing else under it unless it was made again; true whenever the scope is dead and nobody interferes. |
| `Teardown.ReplacementIsRemoved` | src/cgroup-delegation-linux.ts:719-733 | A run in which the name is made again after it was looked at: the object in its place is listed and removed. |
| `Teardown.BelowIsSmaller` | src/cgroup-delegation-linux.ts:672-678 | Once nobody else acts, each child has fewer entries at or below it than its parent had: why the recursion ends. |
| `ScopeText.ScopeIdReadsBack` | src/cgroup-delegation.ts:486-507 | Printing and parsing a scope id are inverse on all valid identities and all accepted strings. |
| `ScopeText.IdentityExactly` | src/cgroup-delegation.ts:486-507 | A valid identity is three canonical 64-bit numbers, a process id that is a safe integer, and a name of a fixed prefix and sixteen hexadecimal digits. |
| `ScopeText.EnrolledExactly` | src/cgroup-delegation.ts:575-593 | A status stream is accepted exactly when it is the one expected line, with or without a byte-order mark. |
| `ScopeText.OthersLine` | src/cgroup-delegation.ts:575-593 | A well-formed line that is not the expected one is told from noise: it names another process, or another launch. |
| `ScopeText.StatusBuffer.NoteStatus` | src/cgroup-delegation-linux.ts:1246-1250 | The buffer keeps the first 129 bytes of what it was given. |
| `ScopeText.VerdictIgnoresChunking` | src/cgroup-delegation-linux.ts:1246-1257 | However the pipe splits the stream, the bounded buffer gives the verdict of the whole one. |

## Left out

- Real file identity work: ancestor walks, inode, mode and owner checks, `/proc/self/fd`, and the `flock` helper; an exclusive lock and stable files are taken as given, so calls on one ledger interleave as whole steps.
- What a power cut leaves of unsynced bytes: one of the contents the file has held since its last sync, so writes survive in the order they were made; blocks of one write that survive out of order are not modelled, nor a sync that fails and drops the dirty pages.
- Directory entries: one made before its directory sync is either there or not after a crash; that several made by one call survive out of order is not modelled.
- The lexical level of JSON, real hashing and HMAC bytes, wall-clock time, and the 64 MiB size limits.
- Floating point: rounding to the nearest double is a parameter, checked where the code checks it; `costs.jsonl` is not modelled.
- Grok egress fields, the adapter identity (only its digest is bound), and the grammar of scope ids inside an attestation payload.
- The receipt file of a reconciliation and the text of a poison reason.
- Attest.TagFixesEveryField: takes the MAC as symbolic, so an unforged tag is the only one that verifies.
- Migration.EveryAnswerCarriesTheBalance: takes one ordinary open as one step; an open that read "no migration" and then raced one between its calls is not modelled.
- LedgerDirectory.Directory.Migrate: promises its steps and its completion for boards reached from a version 1 board; on other boards only that a completed or foreign one is refused untouched.
- Board: the canonical control store replaces the JSONL files after cutover; the fold modelled is the JSONL one, `compactBoard` (which forgets attempts) is not called by the loop and is not modelled, and the order of equal priorities is left open.
- BoardRun.LaunchesAreBounded: takes every append to the board as successful.
- OrphanGate.NoOrphanWhileDispatching: is about runs whose recoveries can read the journal; a recovery that cannot is `OrphanGate.UnreadRecoveryExactly`. A directory sync the file system does not support, which the code tolerates, counts as done. Blank space around a line is not modelled.
- OrphanGate.RecoverAbandonedScopes: what kills a recorded scope is a parameter that answers per scope; that an answer of reaped or gone means nothing is alive is the kernel's word, which `Teardown.Settle` is about.
- Teardown.Settle: deadlines are bounds on the number of polls, and a link leads to no directory.
- Turn: routing, cooldowns and provider arguments; what a provider call came to is a parameter, and the settlement kernel's evidence checks are the choice between its mints and the worst case.
- Multi-repository runs, the planner, review verdicts, prompts, tmux, CLI and monitoring.
