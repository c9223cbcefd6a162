/** Migrating a version 1 board: the durable steps a migration and an ordinary open may take, and what every
    interleaving of them with crashes keeps. */
module Migration {
  import opened Wrappers
  import opened Money
  import opened Attest
  import opened LineLog
  import opened Journal
  import opened Wal
  import opened LedgerSteps
  import opened CrashSafety
  import opened Ledger
  import opened Budget
  import opened Legacy
  import opened Publish

  /** What a host fixes: how text is parsed and printed, how bytes are digested, and whether it has cgroups. */
  datatype Setup = Setup(
    parse: V1Parser, asUsd: NanoToUsd, sha: bytes -> string,
    leaf: Codec<JournalRecord<Data>>, wal: Codec<WalLine<Data>>, strong: bool)

  ghost predicate Fair(s: Setup) {
    Lawful(s.leaf) && Lawful(s.wal) && forall raw :: IsSha256(s.sha(raw))
  }

  /** What a migration commits to do before it touches anything. */
  datatype V1Intent = V1Intent(
    runNonce: string, sha: string, bytes: nat, records: nat, nano: nat, callNonce: string, reservationId: string)

  datatype V1Receipt = V1Receipt(runNonce: string, epoch: string, sha: string, nano: nat)

  /** The ledger directory. `linked` says that the archive and the leaf are two names of one inode. */
  datatype Dir = Dir(
    leaf: Option<bytes>, archive: Option<bytes>, linked: bool, wal: Option<bytes>,
    key: Option<Key>, manifest: Option<Manifest>, intent: Option<V1Intent>, receipt: Option<V1Receipt>)

  predicate InProgress(d: Dir) { d.intent.Some? && d.receipt.None? }

  /** A directory that holds a whole generation. */
  predicate HasLedger(d: Dir) { d.manifest.Some? && d.key.Some? && d.leaf.Some? && d.wal.Some? }

  function ContextOf(s: Setup, d: Dir): Context
    requires HasLedger(d)
  {
    Context(d.manifest.value.epoch, d.manifest.value.runNonce, d.key.value, s.strong)
  }

  function LedgerOf(s: Setup, d: Dir): Generation<Data>
    requires HasLedger(d)
  {
    var ctx := ContextOf(s, d);
    Generation(Genesis(d.manifest.value.genesis), s.leaf, s.wal, x => SchemaOk(ctx, x))
  }

  function FilesOf(d: Dir): Disk
    requires HasLedger(d)
  {
    Disk(d.leaf.value, d.wal.value)
  }

  function WithFiles(d: Dir, files: Disk): Dir { d.(leaf := Some(files.leaf), wal := Some(files.wal)) }

  // ---- the carry ----

  const CARRY := "legacy-v1-carry-forward"

  /** The carry reservation's identity is pinned by the intent. */
  function CarryBinding(i: V1Intent): CallBinding {
    CallBinding(i.runNonce, i.callNonce, CARRY, i.reservationId, 0, "legacy-v1", "migration", 0, i.sha, i.sha, i.bytes, None)
  }

  predicate IsCarry(ctx: Context, i: V1Intent, d: Data) {
    d.Reserve? && d.ts != "" && d == Reserve(CARRY, FormatNano(i.nano), true, d.ts, ctx.epoch, CarryBinding(i))
  }

  /** Reserved against a budget of exactly itself. */
  function CarryOp(i: V1Intent): Op { ReserveOp(CarryBinding(i), i.nano, i.nano) }
  ghost function CarryOps(i: V1Intent): Op -> bool { op => op == CarryOp(i) }

  function HasReservation(ctx: Context, f: Folded<Data>, callId: string): Option<bool> {
    match FoldCalls(ctx, f.datas)
    case None => None
    case Some(calls) => Some(Has(calls.entries, callId))
  }

  // ---- the steps of a migration for run `run` ----

  /** The legacy bytes: the leaf while no generation is published, else the archive. */
  function Source(d: Dir): bytes {
    if d.manifest.None? && d.leaf.Some? && d.leaf.value != [] then d.leaf.value
    else if d.archive.Some? then d.archive.value
    else []
  }

  predicate Commits(s: Setup, run: string, raw: bytes, i: V1Intent) {
    var f := FoldLegacy(s.parse, s.asUsd, raw);
    && f.Some? && f.value.records > 0
    && i == V1Intent(run, s.sha(raw), |raw|, f.value.records, f.value.nano, i.callNonce, i.reservationId)
    && IsNonce(i.callNonce) && IsNonce(i.reservationId)
  }

  ghost predicate PublishesIntent(s: Setup, run: string, d: Dir, e: Dir) {
    && d.intent.None? && d.receipt.None? && d.manifest.None? && Source(d) != []
    && exists i :: Commits(s, run, Source(d), i) && e == d.(intent := Some(i))
  }

  /** The migration in progress is this run's, and still finds the balance it committed to. */
  predicate Resumes(s: Setup, run: string, d: Dir) {
    && InProgress(d) && d.intent.value.runNonce == run
    && var f := FoldLegacy(s.parse, s.asUsd, Source(d));
       f.Some? && d.intent.value.sha == s.sha(Source(d)) && d.intent.value.nano == f.value.nano
  }

  predicate LinksArchive(s: Setup, run: string, d: Dir, e: Dir) {
    && Resumes(s, run, d) && d.manifest.None? && d.leaf.Some? && d.leaf.value != [] && d.archive.None?
    && e == d.(archive := d.leaf, linked := true)
  }

  /** The leaf goes only once the archive is the same inode. */
  predicate UnlinksLeaf(s: Setup, run: string, d: Dir, e: Dir) {
    && Resumes(s, run, d) && d.manifest.None? && d.linked
    && e == d.(leaf := None, linked := false)
  }

  /** The archive stands alone with the bytes the migration committed to. */
  predicate Archived(s: Setup, run: string, d: Dir) {
    && Resumes(s, run, d) && !d.linked && d.archive.Some? && s.sha(d.archive.value) == d.intent.value.sha
    && (d.manifest.Some? || d.leaf.None? || d.leaf.value == [])
  }

  predicate PublishesKey(d: Dir, e: Dir) {
    d.manifest.None? && d.key.None? && e.key.Some? && e == d.(key := e.key)
  }

  predicate MakesLeaf(d: Dir, e: Dir) {
    d.manifest.None? && d.key.Some? && d.leaf.None? && e == d.(leaf := Some([]))
  }

  predicate MakesWal(d: Dir, e: Dir) {
    d.manifest.None? && d.key.Some? && d.leaf == Some([]) && d.wal.None? && e == d.(wal := Some([]))
  }

  predicate PublishesManifest(run: string, d: Dir, e: Dir) {
    && d.manifest.None? && d.key.Some? && d.leaf == Some([]) && d.wal.Some?
    && e.manifest.Some? && e.manifest.value.runNonce == run && e == d.(manifest := e.manifest)
  }

  /** A fresh generation: the key, the two files, and only then the manifest. */
  predicate Initializes(run: string, d: Dir, e: Dir) {
    IsNonce(run) && (PublishesKey(d, e) || MakesLeaf(d, e) || MakesWal(d, e) || PublishesManifest(run, d, e))
  }

  ghost predicate CarryTxn(s: Setup, d: Dir, out: Outcome<Data>, files: Disk)
    requires HasLedger(d) && d.intent.Some?
  {
    TxnStep(LedgerOf(s, d), May(ContextOf(s, d), CarryOps(d.intent.value)), FilesOf(d), out, files)
  }

  /** The balance is not reserved yet: a transaction reserves it. */
  ghost predicate Carries(s: Setup, run: string, d: Dir, e: Dir) {
    && Archived(s, run, d) && IsNonce(run) && HasLedger(d) && d.manifest.value.runNonce == run && d.intent.value.nano > 0
    && var g, ctx := LedgerOf(s, d), ContextOf(s, d);
       && Readable(g, FilesOf(d)).Some?
       && HasReservation(ctx, Readable(g, FilesOf(d)).value, CARRY) == Some(false)
       && exists out, files :: CarryTxn(s, d, out, files) && e == WithFiles(d, files)
  }

  predicate Completes(s: Setup, run: string, d: Dir, e: Dir) {
    && Archived(s, run, d) && IsNonce(run) && HasLedger(d) && d.manifest.value.runNonce == run
    && (d.intent.value.nano > 0 ==>
          var f := Readable(LedgerOf(s, d), FilesOf(d));
          f.Some? && HasReservation(ContextOf(s, d), f.value, CARRY) == Some(true))
    && e == d.(receipt := Some(V1Receipt(run, d.manifest.value.epoch, d.intent.value.sha, d.intent.value.nano)))
  }

  ghost predicate Migrates(s: Setup, run: string, d: Dir, e: Dir) {
    || PublishesIntent(s, run, d, e) || LinksArchive(s, run, d, e) || UnlinksLeaf(s, run, d, e)
    || (Archived(s, run, d) && Initializes(run, d, e))
    || Carries(s, run, d, e) || Completes(s, run, d, e)
  }

  /** The durable steps of one call, which may stop after any of them. */
  ghost predicate Reaches(s: Setup, run: string, d: Dir, e: Dir, n: nat)
    decreases n
  {
    if n == 0 then e == d else exists m :: Reaches(s, run, d, m, n - 1) && Migrates(s, run, m, e)
  }

  ghost predicate Opens(run: string, d: Dir, e: Dir, n: nat)
    decreases n
  {
    if n == 0 then e == d else exists m :: Opens(run, d, m, n - 1) && Initializes(run, m, e)
  }

  // ---- runs of a board ----

  datatype BoardEvent =
    | MigrateCall(run: string, finished: bool)
    | OpenCall(run: string, ok: bool)
    | LedgerCall(call: CrashSafety.Event<Data>)

  ghost predicate MigrateStep(s: Setup, run: string, finished: bool, d: Dir, e: Dir) {
    && (exists n :: Reaches(s, run, d, e, n))
    && (finished ==> d.receipt.None? && e.receipt.Some?)
  }

  /** An ordinary open refuses while a migration is in progress. */
  ghost predicate OpenStep(run: string, ok: bool, d: Dir, e: Dir) {
    && (InProgress(d) ==> e == d && !ok)
    && (exists n :: Opens(run, d, e, n))
    && (ok ==> IsNonce(run) && HasLedger(e) && e.manifest.value.runNonce == run)
  }

  ghost predicate LedgerStep(s: Setup, call: CrashSafety.Event<Data>, d: Dir, e: Dir) {
    && HasLedger(d)
    && exists files ::
         && CrashSafety.Step(LedgerOf(s, d), May(ContextOf(s, d), OwnRunOps(ContextOf(s, d))), FilesOf(d), call, files)
         && e == WithFiles(d, files)
  }

  ghost predicate BoardStep(s: Setup, d: Dir, ev: BoardEvent, e: Dir) {
    match ev
    case MigrateCall(run, finished) => MigrateStep(s, run, finished, d, e)
    case OpenCall(run, ok) => OpenStep(run, ok, d, e)
    case LedgerCall(call) => LedgerStep(s, call, d, e)
  }

  /** Calls on a ledger are made through a handle some earlier open returned. */
  ghost predicate BoardRun(s: Setup, dirs: seq<Dir>, evs: seq<BoardEvent>) {
    && |dirs| == |evs| + 1
    && (forall i :: 0 <= i < |evs| ==> BoardStep(s, dirs[i], evs[i], dirs[i + 1]))
    && (forall i :: 0 <= i < |evs| && evs[i].LedgerCall? ==> OpenedBefore(evs, i))
  }

  predicate OpenedBefore(evs: seq<BoardEvent>, i: nat)
    requires i <= |evs|
  {
    exists j :: 0 <= j < i && evs[j].OpenCall? && evs[j].ok
  }

  predicate ServedBefore(evs: seq<BoardEvent>, i: nat)
    requires i <= |evs|
  {
    exists j :: 0 <= j < i && evs[j].LedgerCall?
  }

  /** A board with version 1 accounting and nothing else, except perhaps a key a refused open left. */
  predicate LegacyBoard(s: Setup, raw: bytes, d: Dir) {
    && raw != [] && FoldLegacy(s.parse, s.asUsd, raw).Some? && FoldLegacy(s.parse, s.asUsd, raw).value.records > 0
    && d == Dir(Some(raw), None, false, None, d.key, None, None, None)
  }

  // ---- the invariant ----

  ghost predicate CarriedIs(ctx: Context, i: V1Intent, carried: seq<Data>) {
    if i.nano == 0 then carried == [] else |carried| == 1 && IsCarry(ctx, i, carried[0])
  }

  /** Nothing is carried yet; a log that is not blocked is clean. */
  ghost predicate NotCarried(g: Generation<Data>, files: Disk) {
    files.leaf == [] && (Readable(g, files).Some? ==> !LogOverhang(g, files))
  }

  ghost predicate Holds(g: Generation<Data>, ctx: Context, i: V1Intent, files: Disk, only: bool) {
    exists carried ::
      && CarriedIs(ctx, i, carried) && Keeps(g, files.leaf, carried)
      && (only && FoldLeaf(g, files.leaf).Good? ==> FoldLeaf(g, files.leaf).state.datas == carried)
  }

  /** What the new generation's files can be before the receipt. */
  ghost predicate Filling(g: Generation<Data>, ctx: Context, i: V1Intent, files: Disk) {
    || NotCarried(g, files)
    || (i.nano > 0 && (Holds(g, ctx, i, files, true) || Readable(g, files).None?))
  }

  ghost predicate IntentOk(s: Setup, raw: bytes, i: V1Intent) {
    raw != [] && Commits(s, i.runNonce, raw, i)
  }

  /** `served`: a ledger call has been made. */
  ghost predicate Phase(s: Setup, raw: bytes, d: Dir, served: bool) {
    if d.intent.None? then LegacyBoard(s, raw, d)
    else
      var i := d.intent.value;
      && IntentOk(s, raw, i)
      && if d.manifest.None? then
           && d.receipt.None?
           && ((d.leaf == Some(raw) && d.wal.None? && d.archive == (if d.linked then Some(raw) else None))
               || (d.archive == Some(raw) && !d.linked && (d.leaf.None? || d.leaf == Some([])) && (d.wal.None? || d.wal == Some([]))))
         else
           && d.archive == Some(raw) && !d.linked && HasLedger(d) && d.manifest.value.runNonce == i.runNonce && IsNonce(i.runNonce)
           && var g, ctx := LedgerOf(s, d), ContextOf(s, d);
              && LeafJustified(g, May(ctx, OwnRunOps(ctx)), d.leaf.value)
              && if d.receipt.None? then Filling(g, ctx, i, FilesOf(d)) else Holds(g, ctx, i, FilesOf(d), !served)
  }

  // ---- the carry transaction ----

  lemma FoldsToOneEntry(ctx: Context, d: Data, n: nat)
    requires d.Reserve? && ParseNano(d.worstCaseNano) == Ok(n)
    ensures FoldCalls(ctx, [d]) ==
            Some(Calls([Reservation(d.callId, n, d.enforced, false, None, false, false, d.bind)], {d.bind.callNonce}))
  {
    hide ParseNano;
    FoldNothing(ctx);
    assert [] + [d] == [d];
    FoldOneMore(ctx, [], d);
    var e := Reservation(d.callId, n, d.enforced, false, None, false, false, d.bind);
    assert [] + [e] == [e] && {} + {d.bind.callNonce} == {d.bind.callNonce};
  }

  lemma CarryIsOneReservation(ctx: Context, i: V1Intent, carried: seq<Data>)
    requires CarriedIs(ctx, i, carried) && i.nano <= MAX_NANO
    ensures FoldCalls(ctx, carried).Some? && SpendOf(FoldCalls(ctx, carried).value.entries) == i.nano
    ensures Has(FoldCalls(ctx, carried).value.entries, CARRY) <==> i.nano > 0
  {
    hide ParseNano, FormatNano, ApplyRecord, FoldCalls;
    FoldNothing(ctx);
    if i.nano > 0 {
      assert carried == [carried[0]];
      ParseAfterFormat(i.nano);
      FoldsToOneEntry(ctx, carried[0], i.nano);
      var e := FoldCalls(ctx, carried).value.entries[0];
      SpendOfAppend([], e);
      assert [] + [e] == [e];
    }
  }

  lemma CarryProposes(ctx: Context, i: V1Intent, datas: seq<Data>, data: Data)
    requires May(ctx, CarryOps(i))(datas, data) && i.nano > 0
    ensures IsCarry(ctx, i, data)
  {
    var op, ts :| CarryOps(i)(op) && ts != "" && Decide(ctx, op, ts, datas) == Proposes(data);
  }

  lemma EmptyLeafFolds(g: Generation<Data>)
    ensures FoldLeaf(g, []) == Good(EmptyJournal(g), 0)
  {
  }

  /** A torn intent over a log without an overhang leaves no overhang. */
  lemma TornIntentIsClean(g: Generation<Data>, d: Disk, f: Folded<Data>, data: Data, e: Disk)
    requires Sound(g) && Readable(g, d) == Some(f) && !LogOverhang(g, d) && InIntent(g, d, f, data, e)
    ensures Readable(g, e).Some? ==> !LogOverhang(g, e)
  {
    hide Fold, Settled, LineLength;
    var m := IntentOf(f, data, FoldLeaf(g, d.leaf).durable);
    var r := FoldLog(g, d.wal);
    var body := g.wal.enc(m);
    WalStrict(g);
    if e.wal != d.wal {
      var k :| 0 <= k <= |g.wal.Line(m)| && e.wal == Put(d.wal, r.durable, g.wal.Line(m)[..k]);
      PutClean(WalAccept(g), d.wal, EmptyWal(g), r.state, r.durable, body, k);
      if k <= |body| { PrintedMark(g, r.state, m, k, false); } else { PrintedMark(g, r.state, m, |body|, true); }
      assert body[..|body|] == body;
    }
  }

  lemma WholeRecordHolds(
      g: Generation<Data>, ctx: Context, i: V1Intent, d: Disk, f: Folded<Data>, data: Data, e: Disk)
    requires Sound(g) && Readable(g, d) == Some(f) && d.leaf == [] && i.nano > 0 && IsCarry(ctx, i, data)
    requires e.leaf == Put(d.leaf, FoldLeaf(g, d.leaf).durable, g.leaf.Line(NextRecord(f, data)))
    ensures Holds(g, ctx, i, e, true)
  {
    hide Fold, Settled;
    EmptyLeafFolds(g);
    LeafWhole(g, d.leaf, data, e.leaf);
    assert [] + [data] == [data];
    assert CarriedIs(ctx, i, [data]) && Keeps(g, e.leaf, [data]);
  }

  lemma RecordIsWhole(g: Generation<Data>, d: Disk, f: Folded<Data>, data: Data, e: Disk)
    requires Readable(g, d) == Some(f) && (InCommit(g, d, f, data, e) || Committed(g, d, f, data, e))
    ensures e.leaf == Put(d.leaf, FoldLeaf(g, d.leaf).durable, g.leaf.Line(NextRecord(f, data)))
  {
  }

  /** The carry transaction, wherever it stops, leaves the balance not reserved, reserved exactly once, or the
      ledger refusing to be read. */
  lemma CarryTxnFills(g: Generation<Data>, ctx: Context, i: V1Intent, d: Disk, out: Outcome<Data>, e: Disk)
    requires Sound(g) && i.nano > 0 && NotCarried(g, d) && Readable(g, d).Some?
    requires TxnStep(g, May(ctx, CarryOps(i)), d, out, e)
    ensures Filling(g, ctx, i, e)
  {
    hide Fold, Settled, May, Proposed, IsCarry, Put;
    if e != d {
      var f, data :| (Interrupted(g, d, f, data, e) || (Readable(g, d) == Some(f) && Committed(g, d, f, data, e)))
                     && May(ctx, CarryOps(i))(f.datas, data);
      CarryProposes(ctx, i, f.datas, data);
      if Interrupted(g, d, f, data, e) && InIntent(g, d, f, data, e) {
        TornIntentIsClean(g, d, f, data, e);
      } else if Interrupted(g, d, f, data, e) && InAppend(g, d, f, data, e) {
        AppendBlocks(g, d, f, data, e);
      } else {
        RecordIsWhole(g, d, f, data, e);
        WholeRecordHolds(g, ctx, i, d, f, data, e);
      }
    }
  }

  /** A reserved carry is found, so it is not reserved again. */
  lemma HeldCarryIsFound(g: Generation<Data>, ctx: Context, i: V1Intent, d: Disk)
    requires Holds(g, ctx, i, d, true) && 0 < i.nano <= MAX_NANO && Readable(g, d).Some?
    ensures HasReservation(ctx, Readable(g, d).value, CARRY) == Some(true)
  {
    hide Fold, Settled, FoldCalls;
    var carried :| CarriedIs(ctx, i, carried) && Keeps(g, d.leaf, carried)
                   && (FoldLeaf(g, d.leaf).Good? ==> FoldLeaf(g, d.leaf).state.datas == carried);
    CarryIsOneReservation(ctx, i, carried);
  }

  lemma CarryMayBeOwn(ctx: Context, i: V1Intent)
    requires i.runNonce == ctx.runNonce && i.nano <= MAX_NANO
    ensures forall datas, data :: May(ctx, CarryOps(i))(datas, data) ==> May(ctx, OwnRunOps(ctx))(datas, data)
  {
    hide Decide;
    forall datas, data | May(ctx, CarryOps(i))(datas, data) ensures May(ctx, OwnRunOps(ctx))(datas, data) {
      var op, ts :| CarryOps(i)(op) && ts != "" && Decide(ctx, op, ts, datas) == Proposes(data);
      assert OwnRunOps(ctx)(op);
    }
  }

  // ---- every step keeps the phase ----

  lemma CommittedAmount(s: Setup, raw: bytes, i: V1Intent)
    requires IntentOk(s, raw, i)
    ensures i.nano <= MAX_NANO && i.sha == s.sha(raw)
  {
  }

  lemma CarryKeepsPhase(s: Setup, raw: bytes, run: string, d: Dir, e: Dir)
    requires Fair(s) && Phase(s, raw, d, false) && Carries(s, run, d, e)
    ensures Phase(s, raw, e, false)
  {
    hide Fold, Settled, May, FoldLegacy, Keeps, LogOverhang, Readable, TxnStep, NotCarried, HasReservation, LeafJustified, Holds;
    var i, g, ctx := d.intent.value, LedgerOf(s, d), ContextOf(s, d);
    var out, files :| CarryTxn(s, d, out, files) && e == WithFiles(d, files);
    CommittedAmount(s, raw, i);
    if Holds(g, ctx, i, FilesOf(d), true) { HeldCarryIsFound(g, ctx, i, FilesOf(d)); }
    CarryTxnFills(g, ctx, i, FilesOf(d), out, files);
    CarryMayBeOwn(ctx, i);
    TxnStepWeaken(g, May(ctx, CarryOps(i)), May(ctx, OwnRunOps(ctx)), FilesOf(d), out, files);
    StepJustified(g, May(ctx, OwnRunOps(ctx)), FilesOf(d), TxnCall(out), files);
    assert LedgerOf(s, e) == g && ContextOf(s, e) == ctx && FilesOf(e) == files;
  }

  lemma EmptyHolds(g: Generation<Data>, ctx: Context, i: V1Intent, d: Disk)
    requires i.nano == 0 && d.leaf == []
    ensures Holds(g, ctx, i, d, true)
  {
    EmptyLeafFolds(g);
    assert SettledLeaf(g, []).Good?;
    assert CarriedIs(ctx, i, []) && Keeps(g, d.leaf, []);
  }

  lemma CompleteKeepsPhase(s: Setup, raw: bytes, run: string, d: Dir, e: Dir)
    requires Fair(s) && Phase(s, raw, d, false) && Completes(s, run, d, e)
    ensures Phase(s, raw, e, false)
  {
    hide Fold, Settled, May, FoldLegacy, Keeps, LogOverhang, LeafJustified, Holds, FoldCalls;
    var i, g, ctx := d.intent.value, LedgerOf(s, d), ContextOf(s, d);
    assert LedgerOf(s, e) == g && ContextOf(s, e) == ctx && FilesOf(e) == FilesOf(d);
    if NotCarried(g, FilesOf(d)) {
      if i.nano > 0 {
        EmptyLeafFolds(g);
        FoldNothing(ctx);
      } else {
        EmptyHolds(g, ctx, i, FilesOf(d));
      }
    }
  }

  lemma FreshGeneration(g: Generation<Data>, ctx: Context)
    ensures NotCarried(g, FRESH) && LeafJustified(g, May(ctx, OwnRunOps(ctx)), [])
  {
    EmptyLeafFolds(g);
  }

  lemma InitializeKeepsPhase(s: Setup, raw: bytes, run: string, d: Dir, e: Dir, served: bool)
    requires Phase(s, raw, d, served) && Initializes(run, d, e)
    requires d.intent.Some? ==> d.intent.value.runNonce == run
    ensures Phase(s, raw, e, served)
  {
    hide Fold, FoldLegacy, May, LeafJustified, NotCarried;
    if PublishesManifest(run, d, e) { FreshGeneration(LedgerOf(s, e), ContextOf(s, e)); }
  }

  lemma MigrateKeepsPhase(s: Setup, raw: bytes, run: string, d: Dir, e: Dir)
    requires Fair(s) && Phase(s, raw, d, false) && Migrates(s, run, d, e)
    ensures Phase(s, raw, e, false)
  {
    hide Carries, Completes, Initializes, FoldLegacy;
    if Carries(s, run, d, e) {
      CarryKeepsPhase(s, raw, run, d, e);
    } else if Completes(s, run, d, e) {
      CompleteKeepsPhase(s, raw, run, d, e);
    } else if Archived(s, run, d) && Initializes(run, d, e) {
      InitializeKeepsPhase(s, raw, run, d, e, false);
    } else {
      ArchiveKeepsPhase(s, raw, run, d, e);
    }
  }

  lemma ArchiveKeepsPhase(s: Setup, raw: bytes, run: string, d: Dir, e: Dir)
    requires Phase(s, raw, d, false)
    requires PublishesIntent(s, run, d, e) || LinksArchive(s, run, d, e) || UnlinksLeaf(s, run, d, e)
    ensures Phase(s, raw, e, false)
  {
    hide FoldLegacy;
  }

  // ---- whole runs ----

  lemma {:induction false} ReachesKeepsPhase(s: Setup, raw: bytes, run: string, d: Dir, e: Dir, n: nat)
    requires Fair(s) && Phase(s, raw, d, false) && Reaches(s, run, d, e, n)
    ensures Phase(s, raw, e, false)
    decreases n
  {
    hide Phase, Migrates, Fair;
    if n > 0 {
      var m :| Reaches(s, run, d, m, n - 1) && Migrates(s, run, m, e);
      ReachesKeepsPhase(s, raw, run, d, m, n - 1);
      MigrateKeepsPhase(s, raw, run, m, e);
    }
  }

  /** Once the receipt is there, a migration makes no step. */
  lemma {:induction false} CompletedStays(s: Setup, run: string, d: Dir, e: Dir, n: nat)
    requires d.receipt.Some? && Reaches(s, run, d, e, n)
    ensures e == d
    decreases n
  {
    hide FoldLegacy, Initializes;
    if n > 0 {
      var m :| Reaches(s, run, d, m, n - 1) && Migrates(s, run, m, e);
      CompletedStays(s, run, d, m, n - 1);
    }
  }

  /** An ordinary open of a board that is not migrated publishes a key at most; of a migrated one, nothing. */
  lemma {:induction false} OpensKeepsPhase(s: Setup, raw: bytes, run: string, d: Dir, e: Dir, served: bool, n: nat)
    requires Phase(s, raw, d, served) && !InProgress(d) && Opens(run, d, e, n)
    ensures Phase(s, raw, e, served)
    ensures if d.receipt.Some? then e == d else e == d.(key := e.key)
    decreases n
  {
    hide FoldLegacy, Filling, Holds, LeafJustified;
    if n > 0 {
      var m :| Opens(run, d, m, n - 1) && Initializes(run, m, e);
      OpensKeepsPhase(s, raw, run, d, m, served, n - 1);
    }
  }

  lemma LedgerKeepsPhase(s: Setup, raw: bytes, call: CrashSafety.Event<Data>, d: Dir, e: Dir, served: bool)
    requires Fair(s) && Phase(s, raw, d, served) && d.receipt.Some? && LedgerStep(s, call, d, e)
    ensures Phase(s, raw, e, true) && e.receipt.Some?
  {
    hide Fold, Settled, May, FoldLegacy, Keeps, Commits, LeafJustified, CrashSafety.Step;
    var i, g, ctx := d.intent.value, LedgerOf(s, d), ContextOf(s, d);
    var files :| CrashSafety.Step(g, May(ctx, OwnRunOps(ctx)), FilesOf(d), call, files) && e == WithFiles(d, files);
    assert LedgerOf(s, e) == g && ContextOf(s, e) == ctx && FilesOf(e) == files;
    var carried :| CarriedIs(ctx, i, carried) && Keeps(g, d.leaf.value, carried)
                   && (!served && FoldLeaf(g, d.leaf.value).Good? ==> FoldLeaf(g, d.leaf.value).state.datas == carried);
    StepKeeps(g, May(ctx, OwnRunOps(ctx)), FilesOf(d), call, files, carried);
    StepJustified(g, May(ctx, OwnRunOps(ctx)), FilesOf(d), call, files);
    assert Holds(g, ctx, i, files, false);
  }

  ghost predicate BoardOk(s: Setup, raw: bytes, d: Dir, evs: seq<BoardEvent>, i: nat)
    requires i <= |evs|
  {
    && Phase(s, raw, d, ServedBefore(evs, i))
    && (OpenedBefore(evs, i) || ServedBefore(evs, i) ==> d.receipt.Some?)
  }

  lemma BeforeMore(evs: seq<BoardEvent>, i: nat)
    requires i < |evs|
    ensures OpenedBefore(evs, i + 1) <==> OpenedBefore(evs, i) || (evs[i].OpenCall? && evs[i].ok)
    ensures ServedBefore(evs, i + 1) <==> ServedBefore(evs, i) || evs[i].LedgerCall?
  {
    if OpenedBefore(evs, i) {
      var j :| 0 <= j < i && evs[j].OpenCall? && evs[j].ok;
      assert OpenedBefore(evs, i + 1);
    }
    if ServedBefore(evs, i) {
      var j :| 0 <= j < i && evs[j].LedgerCall?;
      assert ServedBefore(evs, i + 1);
    }
  }

  lemma BoardStepOk(s: Setup, raw: bytes, d: Dir, evs: seq<BoardEvent>, i: nat, e: Dir)
    requires Fair(s) && i < |evs| && BoardOk(s, raw, d, evs, i) && BoardStep(s, d, evs[i], e)
    requires evs[i].LedgerCall? ==> OpenedBefore(evs, i)
    ensures BoardOk(s, raw, e, evs, i + 1)
  {
    hide Reaches, Opens, LedgerStep, Fair, OpenedBefore, ServedBefore, FoldLegacy;
    BeforeMore(evs, i);
    var served := ServedBefore(evs, i);
    match evs[i]
    case MigrateCall(run, _) =>
      var n :| Reaches(s, run, d, e, n);
      if d.receipt.Some? { CompletedStays(s, run, d, e, n); } else { ReachesKeepsPhase(s, raw, run, d, e, n); }
    case OpenCall(run, _) =>
      var n :| Opens(run, d, e, n);
      if !InProgress(d) { OpensKeepsPhase(s, raw, run, d, e, served, n); }
    case LedgerCall(call) =>
      LedgerKeepsPhase(s, raw, call, d, e, served);
  }

  lemma {:induction false} BoardRunOk(s: Setup, raw: bytes, dirs: seq<Dir>, evs: seq<BoardEvent>, i: nat)
    requires Fair(s) && BoardRun(s, dirs, evs) && LegacyBoard(s, raw, dirs[0]) && i <= |evs|
    ensures BoardOk(s, raw, dirs[i], evs, i)
  {
    hide Phase, BoardStep, Fair, FoldLegacy;
    if i == 0 {
      assert !OpenedBefore(evs, 0) && !ServedBefore(evs, 0);
      LegacyPhase(s, raw, dirs[0]);
    } else {
      BoardRunOk(s, raw, dirs, evs, i - 1);
      BoardStepOk(s, raw, dirs[i - 1], evs, i - 1, dirs[i]);
    }
  }

  lemma LegacyPhase(s: Setup, raw: bytes, d: Dir)
    requires LegacyBoard(s, raw, d)
    ensures Phase(s, raw, d, false)
  {
  }

  /** Main result. From any valid version 1 board, with migrations and opens dying anywhere and any number of
      re-runs, an ordinary open either refuses or finds the migration complete: never a fresh generation. */
  lemma OpenNeverFindsAnEmptyBudget(s: Setup, raw: bytes, dirs: seq<Dir>, evs: seq<BoardEvent>, i: nat)
    requires Fair(s) && BoardRun(s, dirs, evs) && LegacyBoard(s, raw, dirs[0]) && i < |evs|
    requires evs[i].OpenCall? && evs[i].ok
    ensures dirs[i].receipt.Some? && dirs[i + 1] == dirs[i]
    ensures dirs[i].archive == Some(raw) && dirs[i].intent.Some? && IntentOk(s, raw, dirs[i].intent.value)
  {
    hide Opens, FoldLegacy, Commits, Filling, Holds, LeafJustified;
    BoardRunOk(s, raw, dirs, evs, i);
    assert BoardStep(s, dirs[i], evs[i], dirs[i + 1]);
    var n :| Opens(evs[i].run, dirs[i], dirs[i + 1], n);
    OpensKeepsPhase(s, raw, evs[i].run, dirs[i], dirs[i + 1], ServedBefore(evs, i), n);
  }

  lemma AnsweredIsFolded(g: Generation<Data>, may: Proposal<Data>, d: Disk, call: CrashSafety.Event<Data>, e: Disk)
    requires CrashSafety.Step(g, may, d, call, e) && AnsweredFrom(call).Some?
    ensures FoldLeaf(g, d.leaf).Good? && FoldLeaf(g, d.leaf).state == AnsweredFrom(call).value
  {
    hide Fold;
  }

  /** The journal of a call that was answered, its context, and the balance it must carry. */
  ghost predicate AnsweredAt(s: Setup, dirs: seq<Dir>, evs: seq<BoardEvent>, i: nat, datas: seq<Data>)
    requires i < |evs| && |dirs| == |evs| + 1
  {
    evs[i].LedgerCall? && AnsweredFrom(evs[i].call).Some? && datas == AnsweredFrom(evs[i].call).value.datas
  }

  /** Main result. Every call a ledger of this board answers, it answers from a journal that starts with the
      carried balance, reserved there exactly once; and the first one is answered from the carry alone, so it
      sees spend equal to the legacy balance. */
  lemma EveryAnswerCarriesTheBalance(
      s: Setup, raw: bytes, dirs: seq<Dir>, evs: seq<BoardEvent>, i: nat, datas: seq<Data>)
    requires Fair(s) && BoardRun(s, dirs, evs) && LegacyBoard(s, raw, dirs[0]) && i < |evs|
    requires AnsweredAt(s, dirs, evs, i, datas)
    ensures dirs[i].receipt.Some? && dirs[i].intent.Some? && HasLedger(dirs[i]) && IntentOk(s, raw, dirs[i].intent.value)
    ensures exists carried :: CarriedIs(ContextOf(s, dirs[i]), dirs[i].intent.value, carried) && carried <= datas
    ensures FoldCalls(ContextOf(s, dirs[i]), datas).Some? && OneLife(datas)
    ensures !ServedBefore(evs, i) ==>
              SpendOf(FoldCalls(ContextOf(s, dirs[i]), datas).value.entries) == FoldLegacy(s.parse, s.asUsd, raw).value.nano
  {
    hide Fold, FoldLegacy, May, Justified, OneLife, SettledLeaf, FoldLeaf;
    BoardRunOk(s, raw, dirs, evs, i);
    assert BoardStep(s, dirs[i], evs[i], dirs[i + 1]);
    var it, g, ctx := dirs[i].intent.value, LedgerOf(s, dirs[i]), ContextOf(s, dirs[i]);
    var may := May(ctx, OwnRunOps(ctx));
    var d := FilesOf(dirs[i]);
    var files :| CrashSafety.Step(g, may, d, evs[i].call, files) && dirs[i + 1] == WithFiles(dirs[i], files);
    AnsweredIsFolded(g, may, d, evs[i].call, files);
    var served := ServedBefore(evs, i);
    var carried :| CarriedIs(ctx, it, carried) && Keeps(g, d.leaf, carried)
                   && (!served && FoldLeaf(g, d.leaf).Good? ==> FoldLeaf(g, d.leaf).state.datas == carried);
    CommittedAmount(s, raw, it);
    CarryIsOneReservation(ctx, it, carried);
    var calls := JournalOk(ctx, 0, OwnRunOps(ctx), datas);
    CallsHaveOneLife(ctx, datas);
  }

  // ---- a re-run finishes, except inside the carry's own window ----

  lemma CarrySchemaOk(s: Setup, raw: bytes, ctx: Context, i: V1Intent, data: Data)
    requires Fair(s) && IntentOk(s, raw, i) && IsCarry(ctx, i, data) && i.runNonce == ctx.runNonce && IsNonce(i.runNonce)
    ensures SchemaOk(ctx, data)
  {
    CommittedAmount(s, raw, i);
    ParseAfterFormat(i.nano);
  }

  lemma CommitReads(g: Generation<Data>, d: Disk, f: Folded<Data>, data: Data, e: Disk)
    requires Sound(g) && NotCarried(g, d) && Readable(g, d) == Some(f) && Committed(g, d, f, data, e) && g.valid(data)
    ensures Readable(g, e) == Some(Extend(f, data))
  {
    hide Fold, Settled, Put;
    EmptyLeafFolds(g);
    var n := FoldLeaf(g, d.leaf).durable;
    var wal1 :| WalDone(g, d.wal, IntentOf(f, data, n), wal1) && WalDone(g, wal1, CommitOf(f, data), e.wal);
    RecordIsWhole(g, d, f, data, e);
    LeafWhole(g, d.leaf, data, e.leaf);
    WalDoneView(g, d.wal, IntentOf(f, data, n), wal1);
    WalDoneView(g, wal1, CommitOf(f, data), e.wal);
  }

  lemma EmptyHasNoCarry(g: Generation<Data>, ctx: Context, d: Disk)
    requires d.leaf == [] && Readable(g, d).Some?
    ensures Readable(g, d) == Some(EmptyJournal(g))
    ensures HasReservation(ctx, Readable(g, d).value, CARRY) == Some(false)
  {
    EmptyLeafFolds(g);
    FoldNothing(ctx);
  }

  /** On an empty journal the carry is admitted, at exactly its own value. */
  lemma CarryAdmitted(s: Setup, raw: bytes, ctx: Context, i: V1Intent, ts: string)
    requires Fair(s) && IntentOk(s, raw, i) && i.nano > 0 && IsNonce(i.runNonce)
    ensures Decide(ctx, CarryOp(i), ts, []) ==
            Proposes(Reserve(CARRY, FormatNano(i.nano), true, ts, ctx.epoch, CarryBinding(i)))
  {
    CommittedAmount(s, raw, i);
    FoldNothing(ctx);
  }

  /** What a board's generation reads is always a journal of reservations and settlements. */
  lemma PhaseFolds(s: Setup, raw: bytes, d: Dir)
    requires Phase(s, raw, d, false) && HasLedger(d) && d.manifest.Some? && d.intent.Some?
    requires Readable(LedgerOf(s, d), FilesOf(d)).Some?
    ensures HasReservation(ContextOf(s, d), Readable(LedgerOf(s, d), FilesOf(d)).value, CARRY).Some?
  {
    hide Fold, Settled, FoldLegacy, FoldCalls, Filling, Holds, Justified;
    var ctx := ContextOf(s, d);
    var calls := JournalOk(ctx, 0, OwnRunOps(ctx), Readable(LedgerOf(s, d), FilesOf(d)).value.datas);
  }

  /** A generation without the carry is empty, its log has no overhang, and the carry will be proposed. */
  lemma CarryReady(s: Setup, raw: bytes, d: Dir, ts: string)
    requires Fair(s) && Phase(s, raw, d, false) && InProgress(d) && HasLedger(d) && d.intent.value.nano > 0
    requires Readable(LedgerOf(s, d), FilesOf(d)).Some?
    requires HasReservation(ContextOf(s, d), Readable(LedgerOf(s, d), FilesOf(d)).value, CARRY) == Some(false)
    ensures NotCarried(LedgerOf(s, d), FilesOf(d)) && !LogOverhang(LedgerOf(s, d), FilesOf(d))
    ensures Readable(LedgerOf(s, d), FilesOf(d)).value.datas == []
    ensures Decide(ContextOf(s, d), CarryOp(d.intent.value), ts, []).Proposes?
  {
    hide Fold, Settled, May, FoldLegacy, FoldCalls, LogOverhang, Decide, IsCarry, SchemaOk, LeafJustified;
    var i, g, ctx := d.intent.value, LedgerOf(s, d), ContextOf(s, d);
    CommittedAmount(s, raw, i);
    if Holds(g, ctx, i, FilesOf(d), true) { HeldCarryIsFound(g, ctx, i, FilesOf(d)); }
    EmptyHasNoCarry(g, ctx, FilesOf(d));
    CarryAdmitted(s, raw, ctx, i, ts);
  }

  /** A carry transaction that returned can be read, and is found. */
  lemma CarriedReads(s: Setup, raw: bytes, run: string, d: Dir, out: Outcome<Data>, files: Disk)
    requires Fair(s) && Phase(s, raw, d, false) && Carries(s, run, d, WithFiles(d, files)) && CarryTxn(s, d, out, files)
    requires out.Done?
    ensures Readable(LedgerOf(s, d), files).Some?
    ensures HasReservation(ContextOf(s, d), Readable(LedgerOf(s, d), files).value, CARRY) == Some(true)
  {
    hide Fold, Settled, May, FoldLegacy, FoldCalls, LogOverhang, Decide, IsCarry, SchemaOk;
    var i, g, ctx := d.intent.value, LedgerOf(s, d), ContextOf(s, d);
    CommittedAmount(s, raw, i);
    if Holds(g, ctx, i, FilesOf(d), true) { HeldCarryIsFound(g, ctx, i, FilesOf(d)); }
    EmptyHasNoCarry(g, ctx, FilesOf(d));
    CarryProposes(ctx, i, out.before.datas, out.data);
    CarrySchemaOk(s, raw, ctx, i, out.data);
    CommitReads(g, FilesOf(d), out.before, out.data, files);
    assert [] + [out.data] == [out.data];
    CarryIsOneReservation(ctx, i, [out.data]);
  }

  /** Stuck: the carry was interrupted between its intent and its commit. */
  predicate Stuck(s: Setup, d: Dir) {
    InProgress(d) && d.intent.value.nano > 0 && HasLedger(d) && Readable(LedgerOf(s, d), FilesOf(d)).None?
  }

  /** Main result. A migration that is stuck makes no further step, under any run: `migrateLegacyV1` cannot
      finish it, and no ordinary open gets past it to reconcile. */
  lemma {:induction false} StuckStays(s: Setup, run: string, d: Dir, e: Dir, n: nat)
    requires Stuck(s, d) && Reaches(s, run, d, e, n)
    ensures e == d
    decreases n
  {
    hide Migrates, Stuck;
    if n > 0 {
      var m :| Reaches(s, run, d, m, n - 1) && Migrates(s, run, m, e);
      StuckStays(s, run, d, m, n - 1);
      StuckStops(s, run, d, e);
    }
  }

  lemma StuckStops(s: Setup, run: string, d: Dir, e: Dir)
    requires Stuck(s, d)
    ensures !Migrates(s, run, d, e)
  {
    hide FoldLegacy, Readable, Source, May, CarryTxn, LedgerOf, ContextOf;
  }

  /** The log is unreadable: a commit without its newline, then the poison mark of a handle that had failed by then. */
  ghost predicate PoisonedCommit(g: Generation<Data>, wal: bytes) {
    exists wal2 ::
      && FoldLog(g, wal2).Good? && FoldLog(g, wal2).state.Clear() && FoldLog(g, wal2).durable > |wal2|
      && WalDone(g, wal2, PoisonMark(POISONED), wal)
  }

  /** A torn append never makes a log unreadable. */
  lemma TornAppendReads(g: Generation<Data>, wal: bytes, m: WalLine<Data>, k: nat)
    requires Sound(g) && FoldLog(g, wal).Good? && k < |g.wal.Line(m)|
    ensures FoldLog(g, Put(wal, FoldLog(g, wal).durable, g.wal.Line(m)[..k])).Good?
  {
    hide Fold, Settled, LineLength;
    var r, body := FoldLog(g, wal), g.wal.enc(m);
    WalStrict(g);
    if r.durable <= |wal| {
      PutClean(WalAccept(g), wal, EmptyWal(g), r.state, r.durable, body, k);
    } else if k > 0 {
      PutOverhang(WalAccept(g), wal, EmptyWal(g), r.state, r.durable, body, k);
    }
  }

  /** Over a log without an overhang, an acceptable marker leaves a log that can be folded, torn or whole. */
  lemma MayReads(g: Generation<Data>, wal: bytes, m: WalLine<Data>, out: bytes)
    requires Sound(g) && WalMay(g, wal, m, out) && FoldLog(g, wal).Good? && FoldLog(g, wal).durable <= |wal|
    requires Apply(FoldLog(g, wal).state, m, true).Some?
    ensures FoldLog(g, out).Good?
  {
    hide Fold, Settled, Put;
    if out != wal {
      var k :| 0 <= k <= |g.wal.Line(m)| && out == Put(wal, FoldLog(g, wal).durable, g.wal.Line(m)[..k]);
      if k < |g.wal.Line(m)| { TornAppendReads(g, wal, m, k); } else { WalPut(g, wal, m, k); }
    }
  }

  /** A commit cut before its last body byte leaves no overhang. */
  lemma CutCommitIsClean(g: Generation<Data>, wal: bytes, m: WalLine<Data>, k: nat)
    requires Sound(g) && FoldLog(g, wal).Good? && FoldLog(g, wal).durable <= |wal| && k < |g.wal.enc(m)|
    ensures var out := Put(wal, FoldLog(g, wal).durable, g.wal.Line(m)[..k]); FoldLog(g, out).Good? && FoldLog(g, out).durable <= |out|
  {
    hide Fold, Settled, LineLength;
    var r, body := FoldLog(g, wal), g.wal.enc(m);
    WalStrict(g);
    PutClean(WalAccept(g), wal, EmptyWal(g), r.state, r.durable, body, k);
    PrintedMark(g, r.state, m, k, false);
    assert g.wal.Line(m)[..k] == body[..k];
  }

  /** A commit that left an overhang is whole but for its newline, so the log it left is clear. */
  lemma CommitLog(g: Generation<Data>, d: Disk, f: Folded<Data>, data: Data, wal1: bytes, wal2: bytes)
    requires Sound(g) && Readable(g, d) == Some(f) && !LogOverhang(g, d)
    requires WalDone(g, d.wal, IntentOf(f, data, FoldLeaf(g, d.leaf).durable), wal1) && WalMay(g, wal1, CommitOf(f, data), wal2)
    ensures FoldLog(g, wal2).Good? && (FoldLog(g, wal2).durable > |wal2| ==> FoldLog(g, wal2).state.Clear())
  {
    hide Fold, Settled, Put, Blocked, CountsAsCommitted;
    var n, c := FoldLeaf(g, d.leaf).durable, CommitOf(f, data);
    WalDoneView(g, d.wal, IntentOf(f, data, n), wal1);
    IntentBlocks(g, d.wal, f.seqNo, n, NextRecord(f, data).hash, wal1);
    MayReads(g, wal1, c, wal2);
    if wal2 != wal1 {
      var k :| 0 <= k <= |g.wal.Line(c)| && wal2 == Put(wal1, FoldLog(g, wal1).durable, g.wal.Line(c)[..k]);
      CommitCut(g, d, f, data, wal1, k);
      if k < |g.wal.enc(c)| { CutCommitIsClean(g, wal1, c, k); }
    }
  }

  lemma CorruptIsPoisonedCommit(g: Generation<Data>, d: Disk, f: Folded<Data>, data: Data, e: Disk)
    requires Sound(g) && Readable(g, d) == Some(f) && !LogOverhang(g, d)
    requires InCommit(g, d, f, data, e) && FoldLog(g, e.wal).Corrupt?
    ensures PoisonedCommit(g, e.wal)
  {
    hide Fold, Settled, Put, LogOverhang;
    var n, p := FoldLeaf(g, d.leaf).durable, PoisonMark(POISONED);
    var wal1 :| WalDone(g, d.wal, IntentOf(f, data, n), wal1) && Committing(g, d.leaf, n, wal1, f, data, e);
    var wal2 :| WalMay(g, wal1, CommitOf(f, data), wal2) && WalMay(g, wal2, p, e.wal);
    CommitLog(g, d, f, data, wal1, wal2);
    var line := g.wal.Line(p);
    var j :| 0 <= j <= |line| && e.wal == Put(wal2, FoldLog(g, wal2).durable, line[..j]);
    if j < |line| { TornAppendReads(g, wal2, p, j); }
    assert line[..|line|] == line;
    WalDoneView(g, wal2, p, e.wal);
  }

  /** A carry transaction leaves the ledger unreadable only behind an intent that has no commit, a poison mark, or a
      commit without its newline under a poison mark: nothing else stops a re-run. */
  lemma StuckOnlyInTheWindow(
      s: Setup, raw: bytes, g: Generation<Data>, ctx: Context, i: V1Intent, d: Disk, out: Outcome<Data>, e: Disk)
    requires Fair(s) && IntentOk(s, raw, i) && i.runNonce == ctx.runNonce && IsNonce(i.runNonce)
    requires Sound(g) && (forall x :: SchemaOk(ctx, x) ==> g.valid(x))
    requires i.nano > 0 && NotCarried(g, d) && Readable(g, d).Some?
    requires TxnStep(g, May(ctx, CarryOps(i)), d, out, e) && Readable(g, e).None?
    ensures !out.Done? && !out.Declined? && !out.Refused?
    ensures if FoldLog(g, e.wal).Good? then !FoldLog(g, e.wal).state.Clear() else PoisonedCommit(g, e.wal)
  {
    hide Fold, Settled, May, Proposed, IsCarry, Put, SchemaOk, FoldLegacy, PoisonedCommit, InAppend, InCommit, LogOverhang;
    var f, data :| (Interrupted(g, d, f, data, e) || (Readable(g, d) == Some(f) && Committed(g, d, f, data, e)))
                   && May(ctx, CarryOps(i))(f.datas, data);
    CarryProposes(ctx, i, f.datas, data);
    CarrySchemaOk(s, raw, ctx, i, data);
    if out.Done? {
      CarryProposes(ctx, i, out.before.datas, out.data);
      CarrySchemaOk(s, raw, ctx, i, out.data);
      CommitReads(g, d, out.before, out.data, e);
    }
    UnreadableLog(g, d, f, data, e);
  }

  /** Behind an interrupted or committed transaction on an empty journal, it is the log that refuses. */
  lemma UnreadableLog(g: Generation<Data>, d: Disk, f: Folded<Data>, data: Data, e: Disk)
    requires Sound(g) && NotCarried(g, d) && Readable(g, d) == Some(f) && g.valid(data) && Readable(g, e).None?
    requires Interrupted(g, d, f, data, e) || Committed(g, d, f, data, e)
    ensures if FoldLog(g, e.wal).Good? then !FoldLog(g, e.wal).state.Clear() else PoisonedCommit(g, e.wal)
  {
    hide Fold, Settled, Put, PoisonedCommit, InAppend, InCommit;
    EmptyLeafFolds(g);
    if Committed(g, d, f, data, e) {
      CommitReads(g, d, f, data, e);
    } else if InCommit(g, d, f, data, e) {
      RecordIsWhole(g, d, f, data, e);
      LeafWhole(g, d.leaf, data, e.leaf);
      if FoldLog(g, e.wal).Corrupt? { CorruptIsPoisonedCommit(g, d, f, data, e); }
    } else if InAppend(g, d, f, data, e) {
      AppendReads(g, d, f, data, e);
      AppendBlocks(g, d, f, data, e);
    } else {
      IntentReads(g, d, f, data, e);
    }
  }

  lemma AppendReads(g: Generation<Data>, d: Disk, f: Folded<Data>, data: Data, e: Disk)
    requires Sound(g) && Readable(g, d) == Some(f) && !LogOverhang(g, d) && InAppend(g, d, f, data, e)
    ensures FoldLog(g, e.wal).Good?
  {
    hide Fold, Settled, Put;
    var n, p := FoldLeaf(g, d.leaf).durable, PoisonMark(POISONED);
    var wal1 :| WalDone(g, d.wal, IntentOf(f, data, n), wal1) && Appending(g, d.leaf, n, wal1, f, data, e);
    WalDoneView(g, d.wal, IntentOf(f, data, n), wal1);
    MayReads(g, wal1, p, e.wal);
  }

  lemma IntentReads(g: Generation<Data>, d: Disk, f: Folded<Data>, data: Data, e: Disk)
    requires Sound(g) && Readable(g, d) == Some(f) && !LogOverhang(g, d) && InIntent(g, d, f, data, e)
    ensures FoldLog(g, e.wal).Good?
  {
    hide Fold, Settled, Put;
    MayReads(g, d.wal, IntentOf(f, data, FoldLeaf(g, d.leaf).durable), e.wal);
  }

  /** A migration begun with a malformed run nonce: it commits, and archives the leaf, before anything checks
      the nonce; from then on no run can resume it and no open succeeds. */
  predicate Unresumable(d: Dir) {
    InProgress(d) && d.manifest.None? && !IsNonce(d.intent.value.runNonce)
  }

  lemma {:induction false} MalformedNonceIsForever(s: Setup, dirs: seq<Dir>, evs: seq<BoardEvent>, i: nat)
    requires BoardRun(s, dirs, evs) && Unresumable(dirs[0]) && i < |evs|
    ensures Unresumable(dirs[i]) && Unresumable(dirs[i + 1])
    ensures !(evs[i].OpenCall? && evs[i].ok) && !(evs[i].MigrateCall? && evs[i].finished)
    decreases i
  {
    hide FoldLegacy, Reaches, Opens, IsNonce;
    if i > 0 { MalformedNonceIsForever(s, dirs, evs, i - 1); }
    assert BoardStep(s, dirs[i], evs[i], dirs[i + 1]);
    if evs[i].MigrateCall? {
      var n :| Reaches(s, evs[i].run, dirs[i], dirs[i + 1], n);
      UnresumableStays(s, evs[i].run, dirs[i], dirs[i + 1], n);
    }
  }

  lemma {:induction false} UnresumableStays(s: Setup, run: string, d: Dir, e: Dir, n: nat)
    requires Unresumable(d) && Reaches(s, run, d, e, n)
    ensures Unresumable(e)
    decreases n
  {
    hide Migrates, Unresumable;
    if n > 0 {
      var m :| Reaches(s, run, d, m, n - 1) && Migrates(s, run, m, e);
      UnresumableStays(s, run, d, m, n - 1);
      UnresumableStep(s, run, m, e);
    }
  }

  lemma UnresumableStep(s: Setup, run: string, d: Dir, e: Dir)
    requires Unresumable(d) && Migrates(s, run, d, e)
    ensures Unresumable(e)
  {
    hide FoldLegacy, IsNonce, Source, Readable, May;
  }

  /** ... which is what the first call does: by the time it fails the leaf is gone. */
  lemma MalformedNonceIsReached(s: Setup, raw: bytes, d: Dir, run: string, nonce: string) returns (e: Dir)
    requires LegacyBoard(s, raw, d) && !IsNonce(run) && IsNonce(nonce)
    ensures Reaches(s, run, d, e, 3) && Unresumable(e) && e.leaf.None? && e.archive == Some(raw)
  {
    hide FoldLegacy, IsNonce;
    var f := FoldLegacy(s.parse, s.asUsd, raw).value;
    var i := V1Intent(run, s.sha(raw), |raw|, f.records, f.nano, nonce, nonce);
    var d1 := d.(intent := Some(i));
    var d2 := d1.(archive := d1.leaf, linked := true);
    e := d2.(leaf := None, linked := false);
    assert Commits(s, run, raw, i);
    assert PublishesIntent(s, run, d, d1) && LinksArchive(s, run, d1, d2) && UnlinksLeaf(s, run, d2, e);
    assert Reaches(s, run, d, d, 0);
    assert Reaches(s, run, d, d1, 1) by { assert Migrates(s, run, d, d1); }
    assert Reaches(s, run, d, d2, 2) by { assert Migrates(s, run, d1, d2); }
    assert Reaches(s, run, d, e, 3) by { assert Migrates(s, run, d2, e); }
  }
}
