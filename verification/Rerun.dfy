/** Re-running a migration that stopped: from which states some run of it still finishes, and which one does not. */
module Rerun {
  import opened Wrappers
  import opened LineLog
  import opened Journal
  import opened Wal
  import opened LedgerSteps
  import opened CrashSafety
  import opened Attest
  import opened Ledger
  import opened Budget
  import opened Legacy
  import opened Publish
  import opened Migration

  /** What a caller can check before a re-run: its nonce is well formed and the one the migration began with, if it
      began, and the new generation, if there is one, can be read. */
  predicate Resumable(s: Setup, run: string, d: Dir) {
    IsNonce(run) && d.receipt.None? && !Stuck(s, d) && (d.intent.Some? ==> d.intent.value.runNonce == run)
  }

  ghost predicate Finishes(s: Setup, run: string, d: Dir) {
    exists e, n :: Reaches(s, run, d, e, n) && e.receipt.Some?
  }

  // ---- only then ----

  predicate NotMine(run: string, d: Dir) {
    d.receipt.None? && (!IsNonce(run) || (d.intent.Some? && d.intent.value.runNonce != run))
  }

  lemma NotMineStep(s: Setup, run: string, d: Dir, e: Dir)
    requires NotMine(run, d) && Migrates(s, run, d, e)
    ensures NotMine(run, e)
  {
    hide FoldLegacy, IsNonce, Readable, May;
  }

  lemma {:induction false} NotMineStays(s: Setup, run: string, d: Dir, e: Dir, n: nat)
    requires NotMine(run, d) && Reaches(s, run, d, e, n)
    ensures NotMine(run, e)
    decreases n
  {
    hide Migrates, NotMine;
    if n > 0 {
      var m :| Reaches(s, run, d, m, n - 1) && Migrates(s, run, m, e);
      NotMineStays(s, run, d, m, n - 1);
      NotMineStep(s, run, m, e);
    }
  }

  // ---- a path to the end ----

  lemma {:induction false} StepFirst(s: Setup, run: string, d: Dir, m: Dir, e: Dir, n: nat)
    requires Migrates(s, run, d, m) && Reaches(s, run, m, e, n)
    ensures Reaches(s, run, d, e, n + 1)
    decreases n
  {
    hide Migrates;
    if n == 0 {
      assert Reaches(s, run, d, d, 0);
    } else {
      var k :| Reaches(s, run, m, k, n - 1) && Migrates(s, run, k, e);
      StepFirst(s, run, d, m, k, n - 1);
    }
  }

  /** How far a board is from a whole generation. */
  function Left(d: Dir): nat {
    (if d.intent.None? then 1 else 0) + (if d.archive.None? then 1 else 0)
    + (if d.leaf.None? then 1 else if d.leaf.value != [] then 2 else 0)
    + (if d.key.None? then 1 else 0) + (if d.wal.None? then 1 else 0) + (if d.manifest.None? then 1 else 0)
  }

  const NONCE: string := seq(32, i => '0')

  lemma NonceOk()
    ensures IsNonce(NONCE)
  {
  }

  /** The next step towards the archive. */
  lemma NextArchiveStep(s: Setup, raw: bytes, run: string, d: Dir) returns (e: Dir)
    requires Phase(s, raw, d, false) && Resumable(s, run, d) && d.manifest.None?
    requires d.intent.None? || d.leaf == Some(raw)
    ensures Migrates(s, run, d, e) && Left(e) < Left(d)
    ensures e.receipt.None? && e.manifest.None? && e.intent.Some? && e.intent.value.runNonce == run
  {
    hide FoldLegacy, IsNonce;
    NonceOk();
    var f := FoldLegacy(s.parse, s.asUsd, raw);
    if d.intent.None? {
      var i := V1Intent(run, s.sha(raw), |raw|, f.value.records, f.value.nano, NONCE, NONCE);
      e := d.(intent := Some(i));
      assert Commits(s, run, raw, i) && PublishesIntent(s, run, d, e);
    } else if !d.linked {
      e := d.(archive := d.leaf, linked := true);
      assert LinksArchive(s, run, d, e);
    } else {
      e := d.(leaf := None, linked := false);
      assert UnlinksLeaf(s, run, d, e);
    }
  }

  /** The next step towards the generation. */
  lemma NextInitStep(s: Setup, raw: bytes, run: string, d: Dir) returns (e: Dir)
    requires Phase(s, raw, d, false) && Resumable(s, run, d) && d.manifest.None?
    requires d.intent.Some? && d.leaf != Some(raw)
    ensures Migrates(s, run, d, e) && Left(e) < Left(d)
    ensures e.receipt.None? && e.intent == d.intent
    ensures e.manifest.Some? ==> HasLedger(e) && FilesOf(e) == FRESH
  {
    hide FoldLegacy, IsNonce;
    assert Archived(s, run, d);
    if d.key.None? {
      e := d.(key := Some(Inert));
      assert PublishesKey(d, e);
    } else if d.leaf.None? {
      e := d.(leaf := Some([]));
      assert MakesLeaf(d, e);
    } else if d.wal.None? {
      e := d.(wal := Some([]));
      assert MakesWal(d, e);
    } else {
      e := d.(manifest := Some(Manifest("", 0, run)));
      assert PublishesManifest(run, d, e);
    }
    assert Initializes(run, d, e);
  }

  lemma FreshReadable(g: Generation<Data>)
    ensures Readable(g, FRESH) == Some(EmptyJournal(g))
  {
  }

  /** A resumable migration reaches a whole generation, empty if it was not there yet. */
  lemma {:induction false} ToGeneration(s: Setup, raw: bytes, run: string, d: Dir) returns (e: Dir, n: nat)
    requires Fair(s) && Phase(s, raw, d, false) && Resumable(s, run, d)
    ensures Reaches(s, run, d, e, n) && Phase(s, raw, e, false) && Resumable(s, run, e)
    ensures e.manifest.Some? && e.intent.Some? && HasLedger(e)
    ensures if d.manifest.Some? then e == d else FilesOf(e) == FRESH
    decreases Left(d)
  {
    hide FoldLegacy, IsNonce, Migrates, Readable, Filling, Holds, LeafJustified, Left;
    if d.manifest.Some? { return d, 0; }
    var m;
    if d.intent.None? || d.leaf == Some(raw) { m := NextArchiveStep(s, raw, run, d); }
    else { m := NextInitStep(s, raw, run, d); }
    MigrateKeepsPhase(s, raw, run, d, m);
    if m.manifest.Some? { FreshReadable(LedgerOf(s, m)); }
    e, n := ToGeneration(s, raw, run, m);
    StepFirst(s, run, d, m, e, n);
    n := n + 1;
  }

  lemma GenerationIsArchived(s: Setup, raw: bytes, run: string, d: Dir)
    requires Phase(s, raw, d, false) && Resumable(s, run, d) && d.manifest.Some?
    ensures Archived(s, run, d) && HasLedger(d) && d.manifest.value.runNonce == run
  {
    hide FoldLegacy, IsNonce, Readable, Filling, Holds, LeafJustified;
  }

  /** The intent of a transaction, durable; a log without an overhang takes it. */
  lemma IntentTaken(g: Generation<Data>, d: Disk, f: Folded<Data>, data: Data) returns (wal1: bytes)
    requires Sound(g) && Readable(g, d) == Some(f) && !LogOverhang(g, d)
    ensures WalDone(g, d.wal, IntentOf(f, data, FoldLeaf(g, d.leaf).durable), wal1) && FoldLog(g, wal1).Good?
    ensures !FoldLog(g, wal1).state.Clear()
  {
    hide Fold, Settled, Put;
    var m := IntentOf(f, data, FoldLeaf(g, d.leaf).durable);
    wal1 := Put(d.wal, FoldLog(g, d.wal).durable, g.wal.Line(m));
    WalDoneView(g, d.wal, m, wal1);
  }

  /** A transaction with nothing in its way. */
  lemma FaultlessCommit(g: Generation<Data>, d: Disk, f: Folded<Data>, data: Data) returns (e: Disk)
    requires Sound(g) && Readable(g, d) == Some(f) && !LogOverhang(g, d)
    ensures Committed(g, d, f, data, e)
  {
    hide Fold, Settled, Put;
    var n := FoldLeaf(g, d.leaf).durable;
    var wal1 := IntentTaken(g, d, f, data);
    e := Disk(Put(d.leaf, n, g.leaf.Line(NextRecord(f, data))),
              Put(wal1, FoldLog(g, wal1).durable, g.wal.Line(CommitOf(f, data))));
  }

  lemma CompletesNow(s: Setup, run: string, d: Dir, e: Dir)
    requires Archived(s, run, d) && IsNonce(run) && HasLedger(d) && d.manifest.value.runNonce == run
    requires d.intent.value.nano > 0 ==>
               && Readable(LedgerOf(s, d), FilesOf(d)).Some?
               && HasReservation(ContextOf(s, d), Readable(LedgerOf(s, d), FilesOf(d)).value, CARRY) == Some(true)
    requires e == d.(receipt := Some(V1Receipt(run, d.manifest.value.epoch, d.intent.value.sha, d.intent.value.nano)))
    ensures Completes(s, run, d, e)
  {
    hide FoldLegacy, IsNonce, Readable, FoldCalls;
  }

  /** What is not carried yet is carried by a transaction that may also stop behind its durable intent. */
  lemma CarryNow(s: Setup, raw: bytes, run: string, d: Dir) returns (e: Dir, done: Dir, stuck: Dir)
    requires Fair(s) && Phase(s, raw, d, false) && Resumable(s, run, d) && d.manifest.Some? && HasLedger(d)
    requires d.intent.value.nano > 0
    requires HasReservation(ContextOf(s, d), Readable(LedgerOf(s, d), FilesOf(d)).value, CARRY) == Some(false)
    ensures Migrates(s, run, d, e) && Migrates(s, run, e, done) && done.receipt.Some?
    ensures Migrates(s, run, d, stuck) && Stuck(s, stuck) && stuck.intent == d.intent
  {
    hide FoldLegacy, IsNonce, Filling, Holds, LeafJustified, Fold, Settled, FoldCalls, Decide, LogOverhang, Put, Commits;
    GenerationIsArchived(s, raw, run, d);
    var i, g, ctx := d.intent.value, LedgerOf(s, d), ContextOf(s, d);
    CarryReady(s, raw, d, "now");
    var f := Readable(g, FilesOf(d)).value;
    var data := Decide(ctx, CarryOp(i), "now", []).data;
    assert CarryOps(i)(CarryOp(i)) && May(ctx, CarryOps(i))(f.datas, data);
    var files := FaultlessCommit(g, FilesOf(d), f, data);
    e := WithFiles(d, files);
    assert CarryTxn(s, d, Done(f, data), files);
    CarriedReads(s, raw, run, d, Done(f, data), files);
    done := e.(receipt := Some(V1Receipt(run, e.manifest.value.epoch, i.sha, i.nano)));
    CompletesNow(s, run, e, done);
    var wal1 := IntentTaken(g, FilesOf(d), f, data);
    stuck := WithFiles(d, Disk(d.leaf.value, wal1));
    assert InIntent(g, FilesOf(d), f, data, FilesOf(stuck)) by { WholeWrite(g, FilesOf(d), f, data, wal1); }
    assert CarryTxn(s, d, Died, FilesOf(stuck));
  }

  lemma WholeWrite(g: Generation<Data>, d: Disk, f: Folded<Data>, data: Data, wal1: bytes)
    requires FoldLeaf(g, d.leaf).Good? && WalDone(g, d.wal, IntentOf(f, data, FoldLeaf(g, d.leaf).durable), wal1)
    ensures WalMay(g, d.wal, IntentOf(f, data, FoldLeaf(g, d.leaf).durable), wal1)
  {
    var line := g.wal.Line(IntentOf(f, data, FoldLeaf(g, d.leaf).durable));
    assert line[..|line|] == line;
  }

  lemma GenerationFinishes(s: Setup, raw: bytes, run: string, d: Dir)
    requires Fair(s) && Phase(s, raw, d, false) && Resumable(s, run, d) && d.manifest.Some? && HasLedger(d)
    ensures Finishes(s, run, d)
  {
    hide FoldLegacy, IsNonce, Filling, Holds, LeafJustified, Fold, Settled, FoldCalls, Carries, Completes, Readable, Reaches;
    GenerationIsArchived(s, raw, run, d);
    if d.intent.value.nano > 0 { PhaseFolds(s, raw, d); }
    if d.intent.value.nano > 0 && HasReservation(ContextOf(s, d), Readable(LedgerOf(s, d), FilesOf(d)).value, CARRY) == Some(false) {
      var e, done, stuck := CarryNow(s, raw, run, d);
      TwoSteps(s, run, d, e, done);
    } else {
      var done := d.(receipt := Some(V1Receipt(run, d.manifest.value.epoch, d.intent.value.sha, d.intent.value.nano)));
      CompletesNow(s, run, d, done);
      OneStep(s, run, d, done);
    }
  }

  lemma OneStep(s: Setup, run: string, d: Dir, e: Dir)
    requires Migrates(s, run, d, e)
    ensures Reaches(s, run, d, e, 1)
  {
    hide Migrates;
    assert Reaches(s, run, d, d, 0);
  }

  lemma TwoSteps(s: Setup, run: string, d: Dir, m: Dir, e: Dir)
    requires Migrates(s, run, d, m) && Migrates(s, run, m, e)
    ensures Reaches(s, run, d, e, 2)
  {
    hide Migrates;
    OneStep(s, run, d, m);
  }

  /** Main result. Some re-run finishes the migration exactly when it is resumable: the nonce is well formed and its
      own, and the new generation is not stuck. */
  lemma FinishesExactly(s: Setup, raw: bytes, run: string, d: Dir)
    requires Fair(s) && Phase(s, raw, d, false) && d.receipt.None?
    ensures Finishes(s, run, d) <==> Resumable(s, run, d)
  {
    hide FoldLegacy, IsNonce, Phase, Readable, Migrates, Fair, Reaches;
    if Resumable(s, run, d) {
      var m, k := ToGeneration(s, raw, run, d);
      GenerationFinishes(s, raw, run, m);
      var e, n :| Reaches(s, run, m, e, n) && e.receipt.Some?;
      JoinPaths(s, run, d, m, e, k, n);
    } else if Finishes(s, run, d) {
      var e, n :| Reaches(s, run, d, e, n) && e.receipt.Some?;
      if Stuck(s, d) { StuckStays(s, run, d, e, n); } else { NotMineStays(s, run, d, e, n); }
    }
  }

  lemma {:induction false} JoinPaths(s: Setup, run: string, d: Dir, m: Dir, e: Dir, k: nat, n: nat)
    requires Reaches(s, run, d, m, k) && Reaches(s, run, m, e, n)
    ensures Reaches(s, run, d, e, k + n)
    decreases n
  {
    hide Migrates;
    if n > 0 {
      var x :| Reaches(s, run, m, x, n - 1) && Migrates(s, run, x, e);
      JoinPaths(s, run, d, m, x, k, n - 1);
    }
  }

  lemma LegacyIsResumable(s: Setup, raw: bytes, run: string, d: Dir)
    requires LegacyBoard(s, raw, d) && IsNonce(run)
    ensures Resumable(s, run, d)
  {
    hide FoldLegacy, IsNonce, Readable;
  }

  lemma CommittedBalance(s: Setup, raw: bytes, d: Dir)
    requires Phase(s, raw, d, false) && d.intent.Some?
    ensures d.intent.value.nano == FoldLegacy(s.parse, s.asUsd, raw).value.nano
  {
    hide FoldLegacy, Readable, Filling, Holds, LeafJustified;
  }

  /** The stuck state is reached, from every board with a balance: by a carry that dies once its intent is durable. */
  lemma StuckIsReached(s: Setup, raw: bytes, run: string, d: Dir) returns (e: Dir, n: nat)
    requires Fair(s) && LegacyBoard(s, raw, d) && IsNonce(run) && FoldLegacy(s.parse, s.asUsd, raw).value.nano > 0
    ensures Reaches(s, run, d, e, n) && Stuck(s, e) && e.intent.value.runNonce == run
  {
    hide FoldLegacy, IsNonce, Readable, Migrates, Fair, Reaches, Filling, Holds, LeafJustified, FoldCalls, Stuck, Commits;
    LegacyPhase(s, raw, d);
    assert Resumable(s, run, d) by { LegacyIsResumable(s, raw, run, d); }
    var m, k := ToGeneration(s, raw, run, d);
    FreshReadable(LedgerOf(s, m));
    EmptyHasNoCarry(LedgerOf(s, m), ContextOf(s, m), FilesOf(m));
    CommittedBalance(s, raw, m);
    var x, done;
    x, done, e := CarryNow(s, raw, run, m);
    OneStep(s, run, m, e);
    JoinPaths(s, run, d, m, e, k, 1);
    n := k + 1;
  }
}
