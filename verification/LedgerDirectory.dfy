/** Opening and migrating a ledger directory, call by call, with every I/O step able to fail or be the last. A hard
    link is a second reference to one file. */
module LedgerDirectory {
  import opened Wrappers
  import Money
  import opened Attest
  import opened LineLog
  import opened Journal
  import opened LedgerSteps
  import opened Files
  import opened LedgerHandle
  import opened CrashSafety
  import opened Ledger
  import opened LedgerCalls
  import opened Legacy
  import opened Publish
  import opened Migration
  import opened Rerun

  ghost predicate CanReach(s: Setup, run: string, d: Dir, e: Dir) { exists n: nat :: Reaches(s, run, d, e, n) }

  ghost predicate CanOpen(run: string, d: Dir, e: Dir) { exists n: nat :: Opens(run, d, e, n) }

  lemma ReachMore(s: Setup, run: string, d: Dir, m: Dir, e: Dir)
    requires CanReach(s, run, d, m) && Migrates(s, run, m, e)
    ensures CanReach(s, run, d, e)
  {
    hide Migrates;
    var n: nat :| Reaches(s, run, d, m, n);
    assert Reaches(s, run, d, e, n + 1);
  }

  lemma ReachNothing(s: Setup, run: string, d: Dir)
    ensures CanReach(s, run, d, d) && CanOpen(run, d, d)
  {
    assert Reaches(s, run, d, d, 0) && Opens(run, d, d, 0);
  }

  lemma OpenMore(run: string, d: Dir, m: Dir, e: Dir)
    requires CanOpen(run, d, m) && Initializes(run, m, e)
    ensures CanOpen(run, d, e)
  {
    hide Initializes;
    var n: nat :| Opens(run, d, m, n);
    assert Opens(run, d, e, n + 1);
  }

  /** Opening the new generation inside a migration is part of the migration. */
  lemma {:induction false} OpenInside(s: Setup, run: string, d0: Dir, d: Dir, e: Dir, n: nat)
    requires CanReach(s, run, d0, d) && Archived(s, run, d) && Opens(run, d, e, n)
    ensures CanReach(s, run, d0, e) && Archived(s, run, e)
    decreases n
  {
    hide FoldLegacy, CanReach;
    if n > 0 {
      var m :| Opens(run, d, m, n - 1) && Initializes(run, m, e);
      OpenInside(s, run, d0, d, m, n - 1);
      ReachMore(s, run, d0, m, e);
    }
  }

  predicate Initializable(d: Dir) {
    d.manifest.None? && !d.linked && (d.leaf.None? || d.leaf == Some([]))
  }

  predicate Openable(run: string, d: Dir) {
    Initializable(d) || (d.manifest.Some? && d.manifest.value.runNonce == run && d.key.Some?)
  }

  lemma {:induction false} OpenBothBy(run: string, d: Dir, m: Dir, e: Dir, n: nat)
    requires CanOpen(run, d, m) && Opens(run, m, e, n)
    ensures CanOpen(run, d, e)
    decreases n
  {
    hide Initializes, CanOpen;
    if n > 0 {
      var m' :| Opens(run, m, m', n - 1) && Initializes(run, m', e);
      OpenBothBy(run, d, m, m', n - 1);
      OpenMore(run, d, m', e);
    }
  }

  lemma OpenBoth(run: string, d: Dir, m: Dir, e: Dir)
    requires CanOpen(run, d, m) && CanOpen(run, m, e)
    ensures CanOpen(run, d, e)
  {
    var n: nat :| Opens(run, m, e, n);
    OpenBothBy(run, d, m, e, n);
  }

  /** A first migration of a readable board, or a re-run of one that is in progress. */
  predicate Committable(s: Setup, run: string, d: Dir) {
    && d.receipt.None? && Source(d) != []
    && FoldLegacy(s.parse, s.asUsd, Source(d)).Some? && FoldLegacy(s.parse, s.asUsd, Source(d)).value.records > 0
    && (if d.intent.None? then d.manifest.None?
        else
          && Resumes(s, run, d) && IsNonce(run) && IsSha256(d.intent.value.sha)
          && IsNonce(d.intent.value.callNonce) && IsNonce(d.intent.value.reservationId))
  }

  lemma CarriedAmount(s: Setup, run: string, d: Dir)
    requires Resumes(s, run, d)
    ensures Money.UsdToNano(s.asUsd(d.intent.value.nano)) == Money.Result.Ok(d.intent.value.nano)
  {
  }

  lemma SoundLedger(s: Setup, d: Dir)
    requires HasLedger(d)
    ensures Fair(s) ==> Sound(LedgerOf(s, d))
  {
  }

  lemma CarryStep(s: Setup, run: string, d: Dir, e: Dir)
    requires Carries(s, run, d, e)
    ensures CanReach(s, run, d, e)
  {
    hide Carries;
    ReachNothing(s, run, d);
    ReachMore(s, run, d, d, e);
  }

  lemma SameLedger(s: Setup, d: Dir, files: Disk)
    requires HasLedger(d)
    ensures var e := WithFiles(d, files);
            HasLedger(e) && LedgerOf(s, e) == LedgerOf(s, d) && ContextOf(s, e) == ContextOf(s, d) && FilesOf(e) == files
  {
  }

  predicate CarryFound(s: Setup, d: Dir)
    requires HasLedger(d)
  {
    && Readable(LedgerOf(s, d), FilesOf(d)).Some?
    && HasReservation(ContextOf(s, d), Readable(LedgerOf(s, d), FilesOf(d)).value, CARRY) == Some(true)
  }

  predicate CarryMissing(s: Setup, d: Dir)
    requires HasLedger(d)
  {
    && Readable(LedgerOf(s, d), FilesOf(d)).Some?
    && HasReservation(ContextOf(s, d), Readable(LedgerOf(s, d), FilesOf(d)).value, CARRY) == Some(false)
  }

  predicate Carriable(s: Setup, run: string, d: Dir) {
    Archived(s, run, d) && IsNonce(run) && HasLedger(d) && d.manifest.value.runNonce == run
  }

  lemma CarriableAmount(s: Setup, run: string, d: Dir)
    requires Carriable(s, run, d)
    ensures d.intent.Some? && Money.UsdToNano(s.asUsd(d.intent.value.nano)) == Money.Result.Ok(d.intent.value.nano)
  {
    CarriedAmount(s, run, d);
  }

  /** What the carry transaction is to the directory. */
  lemma CarryTaken(s: Setup, raw: bytes, run: string, d: Dir, out: Outcome<Data>, files: Disk)
    requires Carriable(s, run, d) && d.intent.value.nano > 0 && CarryMissing(s, d) && CarryTxn(s, d, out, files)
    ensures var e := WithFiles(d, files);
            && CanReach(s, run, d, e) && Carriable(s, run, e)
            && (Fair(s) && Phase(s, raw, d, false) && out.Done? ==> CarryFound(s, e))
  {
    hide FoldLegacy, IsNonce, Readable, FoldCalls, Phase, Fair, FilesOf, LedgerOf, ContextOf, CanReach;
    var e := WithFiles(d, files);
    SameLedger(s, d, files);
    assert Carries(s, run, d, e);
    CarryStep(s, run, d, e);
    if Fair(s) && Phase(s, raw, d, false) && out.Done? { CarriedReads(s, raw, run, d, out, files); }
  }

  /** With nothing failing, the transaction proposes the carry over a log without an overhang. */
  lemma CarryWillGo(s: Setup, raw: bytes, run: string, d: Dir, ts: string)
    requires Carriable(s, run, d) && d.intent.value.nano > 0 && CarryMissing(s, d)
    requires Fair(s) && Phase(s, raw, d, false)
    ensures Sound(LedgerOf(s, d)) && !LogOverhang(LedgerOf(s, d), FilesOf(d))
    ensures Decide(ContextOf(s, d), CarryOp(d.intent.value), ts, Readable(LedgerOf(s, d), FilesOf(d)).value.datas).Proposes?
  {
    hide FoldLegacy, IsNonce, Readable, FoldCalls, Phase, Decide, LogOverhang, HasReservation;
    SoundLedger(s, d);
    CarryReady(s, raw, d, ts);
  }

  lemma {:induction false} ReachBothBy(s: Setup, run: string, d: Dir, m: Dir, e: Dir, n: nat)
    requires CanReach(s, run, d, m) && Reaches(s, run, m, e, n)
    ensures CanReach(s, run, d, e)
    decreases n
  {
    hide Migrates, CanReach;
    if n > 0 {
      var m' :| Reaches(s, run, m, m', n - 1) && Migrates(s, run, m', e);
      ReachBothBy(s, run, d, m, m', n - 1);
      ReachMore(s, run, d, m', e);
    }
  }

  lemma ReachBoth(s: Setup, run: string, d: Dir, m: Dir, e: Dir)
    requires CanReach(s, run, d, m) && CanReach(s, run, m, e)
    ensures CanReach(s, run, d, e)
  {
    hide Reaches;
    var n: nat :| Reaches(s, run, m, e, n);
    ReachBothBy(s, run, d, m, e, n);
  }

  lemma ReachPhase(s: Setup, raw: bytes, run: string, d: Dir, e: Dir)
    requires Fair(s) && Phase(s, raw, d, false) && CanReach(s, run, d, e)
    ensures Phase(s, raw, e, false)
  {
    hide Reaches, Phase, Fair;
    var n: nat :| Reaches(s, run, d, e, n);
    ReachesKeepsPhase(s, raw, run, d, e, n);
  }

  lemma ReachOpen(s: Setup, run: string, d0: Dir, d: Dir, e: Dir)
    requires CanReach(s, run, d0, d) && Archived(s, run, d) && CanOpen(run, d, e)
    ensures CanReach(s, run, d0, e) && Archived(s, run, e)
  {
    hide Opens, Archived, CanReach;
    var n: nat :| Opens(run, d, e, n);
    OpenInside(s, run, d0, d, e, n);
  }

  lemma ResumableCommits(s: Setup, raw: bytes, run: string, d: Dir)
    requires Fair(s) && Phase(s, raw, d, false) && Resumable(s, run, d)
    ensures Committable(s, run, d)
  {
    hide FoldLegacy, Filling, LeafJustified, Holds, Stuck;
  }

  lemma ArchivedOpens(s: Setup, raw: bytes, run: string, d: Dir)
    requires Phase(s, raw, d, false) && Archived(s, run, d)
    ensures Openable(run, d) && (d.manifest.Some? ==> d.key.Some?)
    ensures d.manifest.None? ==> EmptyFiles(d)
  {
    hide FoldLegacy, Filling, LeafJustified, Holds;
  }

  predicate EmptyFiles(d: Dir) { (d.leaf.None? || d.leaf == Some([])) && (d.wal.None? || d.wal == Some([])) }

  lemma {:induction false} OpensFresh(run: string, d: Dir, e: Dir, n: nat)
    requires EmptyFiles(d) && Opens(run, d, e, n)
    ensures EmptyFiles(e)
    decreases n
  {
    if n > 0 {
      var m :| Opens(run, d, m, n - 1) && Initializes(run, m, e);
      OpensFresh(run, d, m, n - 1);
    }
  }

  /** A generation that was just made is not stuck. */
  lemma FreshNotStuck(s: Setup, run: string, d: Dir, e: Dir)
    requires EmptyFiles(d) && CanOpen(run, d, e)
    ensures !Stuck(s, e)
  {
    hide Opens;
    var n: nat :| Opens(run, d, e, n);
    OpensFresh(run, d, e, n);
    if HasLedger(e) { EmptyLeafFolds(LedgerOf(s, e)); }
  }

  lemma Finished(s: Setup, run: string, d: Dir, e: Dir)
    requires CanReach(s, run, d, e)
    ensures MigrateStep(s, run, false, d, e)
    ensures d.receipt.None? && e.receipt.Some? ==> MigrateStep(s, run, true, d, e)
  {
    hide Reaches;
  }

  lemma CompleteStep(s: Setup, run: string, d0: Dir, d: Dir, e: Dir)
    requires CanReach(s, run, d0, d) && Carriable(s, run, d) && (d.intent.value.nano > 0 ==> CarryFound(s, d))
    requires e == d.(receipt := Some(V1Receipt(run, d.manifest.value.epoch, d.intent.value.sha, d.intent.value.nano)))
    ensures CanReach(s, run, d0, e)
  {
    hide FoldLegacy, CanReach, Readable, HasReservation, IsNonce;
    assert Completes(s, run, d, e);
    ReachMore(s, run, d0, d, e);
  }

  class Directory {
    const s: Setup
    const host: Host
    var leaf: File?
    var archive: File?
    var wal: File?
    var key: Option<Key>
    var manifest: Option<Manifest>
    var intent: Option<V1Intent>
    var receipt: Option<V1Receipt>

    /** A directory with at most a journal leaf in it. */
    constructor (s: Setup, host: Host, leaf: File?)
      ensures this.s == s && this.host == host && this.leaf == leaf && Valid()
      ensures View() == Dir(if leaf == null then None else Some(leaf.data), None, false, None, None, None, None, None)
    {
      this.s, this.host, this.leaf := s, host, leaf;
      archive, wal, key, manifest, intent, receipt := null, null, None, None, None, None;
    }

    /** A published generation lives on the files it was published with, and no file is two things at once. */
    predicate Valid()
      reads this
    {
      && (manifest.Some? ==> leaf != null && wal != null && leaf != archive)
      && (wal != null ==> wal != leaf && wal != archive)
    }

    function View(): Dir
      reads this, leaf, archive, wal
    {
      Dir(if leaf == null then None else Some(leaf.data),
          if archive == null then None else Some(archive.data),
          leaf != null && leaf == archive,
          if wal == null then None else Some(wal.data),
          key, manifest, intent, receipt)
    }

    /** One change of the directory: made, not made, or made by a process that then dies. */
    method Try() returns (made: bool, io: Io)
      modifies host
      ensures io == Ok ==> made
      ensures old(host.script) == [] ==> io == Ok && host.script == []
    {
      var f := host.Next();
      match f {
        case Fine => made, io := true, Ok;
        case Short(_) => made, io := true, Ok;
        case Fails(_) => made, io := false, Error;
        case Dies(keep) => made, io := keep > 0, Killed;
      }
    }

    /** Read the key, or publish one for a fresh generation. */
    method EnsureAttestKey(create: bool, run: string, minted: Key) returns (io: Io)
      requires IsNonce(run) && (create ==> manifest.None?)
      modifies this`key, host
      ensures CanOpen(run, old(View()), View())
      ensures io == Ok ==> key.Some?
      ensures old(key.Some?) ==> key == old(key)
      ensures old(host.script) == [] ==> host.script == [] && (io == Ok <==> create || old(key.Some?))
    {
      ghost var d := View();
      ReachNothing(s, run, d);
      io := host.Tick();
      if io != Ok || key.Some? { return; }
      if !create { return Error; }
      var made;
      made, io := Try();
      if made {
        key := Some(minted);
        OpenMore(run, d, d, View());
      }
      if io == Ok { io := host.Tick(); }
    }

    /** The leaf may be there already only if it is empty. */
    method CreateLeaf(run: string) returns (io: Io)
      requires Valid() && IsNonce(run) && manifest.None? && key.Some?
      modifies this`leaf, host
      ensures Valid() && CanOpen(run, old(View()), View())
      ensures io == Ok ==> leaf != null && leaf.data == []
      ensures leaf == old(leaf) || (old(leaf) == null && fresh(leaf))
      ensures old(host.script) == [] ==> host.script == [] && (io == Ok <==> old(leaf == null || leaf.data == []))
    {
      hide CanOpen, Opens, IsNonce;
      ghost var d := View();
      ReachNothing(s, run, d);
      if leaf == null {
        var made;
        made, io := Try();
        if made {
          leaf := new File([]);
          OpenMore(run, d, d, View());
        }
      } else {
        io := host.Tick();
        if io == Ok && leaf.data != [] { io := Error; }
      }
    }

    method CreateWal(run: string) returns (io: Io)
      requires Valid() && IsNonce(run) && manifest.None? && key.Some? && leaf != null && leaf.data == []
      modifies this`wal, host
      ensures Valid() && CanOpen(run, old(View()), View())
      ensures io == Ok ==> wal != null
      ensures wal == old(wal) || (old(wal) == null && fresh(wal))
      ensures old(host.script) == [] ==> host.script == [] && io == Ok
    {
      hide CanOpen, Opens, IsNonce;
      ghost var d := View();
      ReachNothing(s, run, d);
      if wal == null {
        var made;
        made, io := Try();
        if made {
          wal := new File([]);
          OpenMore(run, d, d, View());
        }
      } else {
        io := host.Tick();
      }
    }

    method CreateFiles(run: string) returns (io: Io)
      requires Valid() && IsNonce(run) && manifest.None? && key.Some?
      modifies this`leaf, this`wal, host
      ensures Valid() && CanOpen(run, old(View()), View())
      ensures io == Ok ==> leaf != null && leaf.data == [] && wal != null
      ensures leaf == old(leaf) || (old(leaf) == null && fresh(leaf))
      ensures wal == old(wal) || (old(wal) == null && fresh(wal))
      ensures old(host.script) == [] ==> host.script == [] && (io == Ok <==> old(leaf == null || leaf.data == []))
    {
      hide CanOpen, IsNonce;
      ghost var d := View();
      io := CreateLeaf(run);
      if io != Ok { return; }
      ghost var m := View();
      io := CreateWal(run);
      OpenBoth(run, d, m, View());
      if io == Ok { io := host.Tick(); } // fsync the directory
    }

    /** A fresh generation: its files first, and the manifest that declares it last. */
    method InitLedger(run: string, minted: Manifest) returns (io: Io)
      requires Valid() && IsNonce(run) && manifest.None? && key.Some? && minted.runNonce == run
      modifies this`leaf, this`wal, this`manifest, host
      ensures Valid() && CanOpen(run, old(View()), View())
      ensures io == Ok ==> HasLedger(View()) && manifest.value.runNonce == run
      ensures leaf == old(leaf) || (old(leaf) == null && fresh(leaf))
      ensures wal == old(wal) || (old(wal) == null && fresh(wal))
      ensures old(host.script) == [] ==> host.script == [] && (io == Ok <==> old(Initializable(View())))
    {
      hide CanOpen;
      ghost var d := View();
      io := CreateFiles(run);
      if io != Ok { return; }
      if leaf == archive { return Error; }
      ghost var m := View();
      var made;
      made, io := Try();
      if made {
        manifest := Some(minted);
        OpenMore(run, d, m, View());
      }
      if io == Ok { io := host.Tick(); }
    }

    /** Find the directory's generation, or make one; a migration in progress is refused unless this is it. */
    method FindGeneration(run: string, duringMigration: bool, mintedKey: Key, mintedManifest: Manifest) returns (io: Io)
      requires Valid() && mintedManifest.runNonce == run
      modifies this`key, this`leaf, this`wal, this`manifest, host
      ensures Valid() && CanOpen(run, old(View()), View())
      ensures !duringMigration && old(InProgress(View())) ==> View() == old(View()) && io != Ok
      ensures old(manifest.Some? && key.Some?) ==> View() == old(View())
      ensures leaf == old(leaf) || (old(leaf) == null && fresh(leaf))
      ensures wal == old(wal) || (old(wal) == null && fresh(wal))
      ensures io == Ok ==> IsNonce(run) && HasLedger(View()) && manifest.value.runNonce == run
      ensures old(host.script) == [] ==>
                && host.script == []
                && (io == Ok <==>
                      IsNonce(run) && (duringMigration || !old(InProgress(View()))) && old(Openable(run, View())))
    {
      hide CanOpen, CanReach, Opens, Initializes, IsNonce, Reaches, LedgerOf;
      ReachNothing(s, run, View());
      if !IsNonce(run) { return Error; }
      io := host.Tick(); // walk the path, probe the lock
      if io != Ok { return; }
      if !duringMigration && intent.Some? && receipt.None? { return Error; }
      io := host.Tick(); // read the manifest
      if io != Ok { return; }
      if manifest.None? {
        io := EnsureAttestKey(true, run, mintedKey);
        if io != Ok { return; }
        ghost var d := View();
        io := InitLedger(run, mintedManifest);
        OpenBoth(run, old(View()), d, View());
      } else {
        if manifest.value.runNonce != run { return Error; }
        io := EnsureAttestKey(false, run, mintedKey);
      }
    }

    /** `openLedgerInternal`. */
    method OpenInternal(run: string, duringMigration: bool, mintedKey: Key, mintedManifest: Manifest)
        returns (io: Io, h: LedgerHandle?<Data>)
      requires Valid() && mintedManifest.runNonce == run
      modifies this`key, this`leaf, this`wal, this`manifest, host
      ensures Valid() && CanOpen(run, old(View()), View())
      ensures !duringMigration && old(InProgress(View())) ==> View() == old(View()) && io != Ok
      ensures old(manifest.Some? && key.Some?) ==> View() == old(View())
      ensures leaf == old(leaf) || (old(leaf) == null && fresh(leaf))
      ensures wal == old(wal) || (old(wal) == null && fresh(wal))
      ensures io == Ok ==>
                && IsNonce(run) && HasLedger(View()) && manifest.value.runNonce == run
                && h != null && fresh(h) && h.g == LedgerOf(s, View()) && h.host == host && h.leaf == leaf && h.wal == wal
                && h.Usable()
      ensures old(host.script) == [] ==>
                && host.script == []
                && (io == Ok <==>
                      IsNonce(run) && (duringMigration || !old(InProgress(View()))) && old(Openable(run, View())))
    {
      hide CanOpen, IsNonce, LedgerOf, InProgress, Openable;
      h := null;
      io := FindGeneration(run, duringMigration, mintedKey, mintedManifest);
      if io == Ok { h := new LedgerHandle(LedgerOf(s, View()), host, leaf, wal); }
    }

    /** An ordinary open. */
    method Open(run: string, mintedKey: Key, mintedManifest: Manifest) returns (io: Io, h: LedgerHandle?<Data>)
      requires Valid() && mintedManifest.runNonce == run
      modifies this`key, this`leaf, this`wal, this`manifest, host
      ensures Valid() && OpenStep(run, io == Ok, old(View()), View())
      ensures io == Ok ==> h != null && h.g == LedgerOf(s, View()) && h.leaf == leaf && h.wal == wal
      ensures old(host.script) == [] ==>
                (io == Ok <==> IsNonce(run) && !old(InProgress(View())) && old(Openable(run, View())))
    {
      hide Opens, LedgerOf, Openable, IsNonce;
      io, h := OpenInternal(run, false, mintedKey, mintedManifest);
    }

    /** What a resumed intent must look like. */
    predicate IntentReadable(run: string)
      requires intent.Some?
      reads this
    {
      var i := intent.value;
      IsNonce(i.runNonce) && IsSha256(i.sha) && IsNonce(i.callNonce) && IsNonce(i.reservationId) && i.runNonce == run
    }

    /** The checks before anything is touched, and the strict fold of the legacy bytes. */
    method ReadLegacy(run: string) returns (io: Io, source: bytes, folded: Option<LegacyFold>)
      requires Valid()
      modifies host
      ensures View() == old(View())
      ensures io == Ok ==>
                && receipt.None? && (intent.Some? ==> IntentReadable(run)) && (intent.None? ==> manifest.None?)
                && source == Source(View()) && source != []
                && folded == FoldLegacy(s.parse, s.asUsd, source) && folded.Some? && folded.value.records > 0
      ensures old(host.script) == [] ==> host.script == [] && (Committable(s, run, View()) ==> io == Ok)
    {
      hide FoldLegacy, IsNonce;
      source, folded := [], None;
      io := host.Tick(); // walk the path, take the migration lock
      if io != Ok { return; }
      io := Error;
      if receipt.Some? || (intent.Some? && !IntentReadable(run)) || (intent.None? && manifest.Some?) { return; }
      io := host.Tick(); // read the leaf and the archive
      if io != Ok { return; }
      var legacyLeaf := if manifest.None? && leaf != null then leaf.data else [];
      source := if legacyLeaf != [] then legacyLeaf else if archive != null then archive.data else [];
      assert source == Source(View());
      if source == [] { io := Error; return; }
      folded := FoldLegacyV1Bytes(s.parse, s.asUsd, source);
      if folded.None? || folded.value.records == 0 { io := Error; }
    }

    /** Commit to the balance of the legacy bytes, or find the commitment of an earlier try. */
    method CommitIntent(run: string, callNonce: string, reservationId: string) returns (io: Io)
      requires Valid() && IsNonce(callNonce) && IsNonce(reservationId)
      modifies this`intent, host
      ensures Valid() && CanReach(s, run, old(View()), View())
      ensures io == Ok ==> Resumes(s, run, View()) && (old(intent.Some?) ==> IntentReadable(run))
      ensures old(intent.Some?) ==> View() == old(View())
      ensures old(receipt.Some? || (intent.None? && manifest.Some?)) ==> View() == old(View()) && io != Ok
      ensures old(host.script) == [] ==> host.script == [] && (old(Committable(s, run, View())) ==> io == Ok)
    {
      hide FoldLegacy, Reaches, IsNonce, CanReach;
      ghost var d := View();
      ReachNothing(s, run, d);
      var source, folded;
      io, source, folded := ReadLegacy(run);
      if io != Ok { return; }
      if intent.None? {
        var made;
        made, io := Try();
        if made {
          intent := Some(V1Intent(run, s.sha(source), |source|, folded.value.records, folded.value.nano, callNonce, reservationId));
          assert Commits(s, run, source, intent.value) && PublishesIntent(s, run, d, View());
          ReachMore(s, run, d, d, View());
        }
        if io == Ok { io := host.Tick(); }
      } else if intent.value.sha != s.sha(source) || intent.value.nano != folded.value.nano {
        return Error;
      }
    }

    /** Archive by hard link; an archive that is there already is left as it is. */
    method LinkArchive(run: string) returns (io: Io)
      requires Valid() && Resumes(s, run, View()) && manifest.None? && leaf != null && leaf.data != []
      modifies this`archive, host
      ensures Valid() && CanReach(s, run, old(View()), View()) && Resumes(s, run, View())
      ensures archive == old(archive) || (old(archive) == null && archive == leaf)
      ensures io == Ok ==> archive != null
      ensures old(host.script) == [] ==> host.script == [] && io == Ok
    {
      hide FoldLegacy, Reaches, CanReach;
      ghost var d := View();
      ReachNothing(s, run, d);
      io := Ok;
      if archive == null {
        var made;
        made, io := Try();
        if made {
          archive := leaf;
          ReachMore(s, run, d, d, View());
        }
      }
      if io == Ok { io := host.Tick(); }
    }

    /** Remove the leaf, which is the archive's own file. */
    method RemoveLeaf(run: string) returns (io: Io)
      requires Valid() && Resumes(s, run, View()) && manifest.None? && leaf != null && leaf.data != [] && archive == leaf
      modifies this`leaf, host
      ensures Valid() && CanReach(s, run, old(View()), View())
      ensures leaf == old(leaf) || leaf == null
      ensures io == Ok ==> leaf == null && Resumes(s, run, View())
      ensures old(host.script) == [] ==> host.script == [] && io == Ok
    {
      hide FoldLegacy, Reaches, CanReach;
      ghost var d := View();
      ReachNothing(s, run, d);
      var made;
      made, io := Try();
      if made {
        leaf := null;
        ReachMore(s, run, d, d, View());
      }
      if io == Ok { io := host.Tick(); }
    }

    /** Prove the archive is the leaf's inode before removing the leaf, and that it holds the committed bytes after. */
    method ArchiveLeaf(run: string, ghost raw: bytes) returns (io: Io)
      requires Valid() && Resumes(s, run, View())
      modifies this`leaf, this`archive, host
      ensures Valid() && CanReach(s, run, old(View()), View())
      ensures leaf == old(leaf) || leaf == null
      ensures manifest.Some? ==> View() == old(View())
      ensures io == Ok ==> Archived(s, run, View())
      ensures old(host.script) == [] ==> host.script == [] && (old(Phase(s, raw, View(), false)) ==> io == Ok)
    {
      hide FoldLegacy, Reaches, CanReach, Filling, Holds, LeafJustified;
      ghost var d := View();
      ReachNothing(s, run, d);
      if manifest.None? && leaf != null && leaf.data != [] {
        io := LinkArchive(run);
        if io != Ok { return; }
        if archive != leaf { return Error; }
        ghost var m := View();
        io := RemoveLeaf(run);
        ReachBoth(s, run, d, m, View());
        if io != Ok { return; }
      }
      io := host.Tick(); // read the archive
      if io == Ok && (archive == null || archive == leaf || s.sha(archive.data) != intent.value.sha) { return Error; }
    }

    /** This migration's own handle on the generation it opened. */
    ghost predicate Serves(h: LedgerHandle<Data>)
      reads this, h, leaf, archive, wal
    {
      && Valid() && HasLedger(View()) && h.g == LedgerOf(s, View()) && h.host == host && h.leaf == leaf && h.wal == wal
    }

    /** `hasReservation` of the carry. */
    method FindCarry(h: LedgerHandle<Data>, ghost raw: bytes) returns (found: Option<bool>)
      requires Serves(h) && intent.Some?
      modifies host
      ensures View() == old(View())
      ensures found == Some(true) ==> CarryFound(s, View())
      ensures found == Some(false) ==> CarryMissing(s, View())
      ensures old(host.script) == [] ==> host.script == []
      ensures old(host.script) == [] && Phase(s, raw, View(), false) && h.Usable() && Readable(h.g, FilesOf(View())).Some?
              ==> found.Some?
    {
      hide FoldLegacy, Readable, FoldCalls, Phase, LedgerOf;
      var folded := h.Read();
      if folded.None? { return None; }
      var calls := FoldReservations(Context(manifest.value.epoch, manifest.value.runNonce, key.value, s.strong), folded.value.datas);
      if Phase(s, raw, View(), false) { PhaseFolds(s, raw, View()); }
      if calls.None? { return None; }
      return Some(Has(calls.value.entries, CARRY));
    }

    /** Reserve the balance: the transaction of the ordinary money path. */
    method ReserveCarry(run: string, h: LedgerHandle<Data>, ts: string, ghost raw: bytes) returns (io: Io)
      requires Serves(h) && Carriable(s, run, View()) && ts != "" && intent.value.nano > 0 && CarryMissing(s, View())
      modifies host, h`poisonReason, leaf, wal
      ensures Serves(h) && Carriable(s, run, View()) && CanReach(s, run, old(View()), View())
      ensures Fair(s) && old(Phase(s, raw, View(), false)) && io == Ok ==> CarryFound(s, View())
      ensures old(host.script) == [] ==> host.script == []
      ensures old(host.script) == [] && Fair(s) && old(Phase(s, raw, View(), false)) && old(h.Usable()) ==> io == Ok
    {
      hide FoldLegacy, CanReach, Readable, Phase, Decide, LogOverhang, Fair, LedgerOf, HasReservation, CarryFound, Carriable,
           TxnStep, Sound;
      ghost var d := View();
      CarriableAmount(s, run, d);
      var amount := Money.UsdToNano(s.asUsd(intent.value.nano));
      if amount.Refused? { return Error; }
      var ctx := Context(manifest.value.epoch, manifest.value.runNonce, key.value, s.strong);
      var op := ReserveOp(CarryBinding(intent.value), amount.value, amount.value);
      if Fair(s) && Phase(s, raw, d, false) { CarryWillGo(s, raw, run, d, ts); }
      assert h.leaf != h.wal && FilesOf(d) == h.OnDisk();
      var out := Perform(h, ctx, op, ts, CarryOps(intent.value));
      assert View() == WithFiles(d, h.OnDisk());
      assert CarryTxn(s, d, out, h.OnDisk());
      CarryTaken(s, raw, run, d, out, h.OnDisk());
      SameLedger(s, d, h.OnDisk());
      io := if out.Done? then Ok else if out.Died? then Killed else Error;
    }

    /** Reserve the balance, unless an earlier try already has. */
    method CarryForward(run: string, h: LedgerHandle<Data>, ts: string, ghost raw: bytes) returns (io: Io)
      requires Serves(h) && Carriable(s, run, View()) && ts != ""
      modifies host, h`poisonReason, leaf, wal
      ensures Serves(h) && Carriable(s, run, View()) && CanReach(s, run, old(View()), View())
      ensures Fair(s) && old(Phase(s, raw, View(), false)) && io == Ok && intent.value.nano > 0 ==> CarryFound(s, View())
      ensures old(host.script) == [] ==> host.script == []
      ensures old(host.script) == [] && Fair(s) && old(Phase(s, raw, View(), false)) && old(h.Usable()) && !old(Stuck(s, View()))
              ==> io == Ok
    {
      hide FoldLegacy, CanReach, IsNonce, Readable, Phase, Fair, LedgerOf, HasReservation, CarryFound, CarryMissing;
      ReachNothing(s, run, View());
      if intent.value.nano == 0 { return Ok; }
      var found := FindCarry(h, raw);
      if found.None? { return Error; }
      if found.value { return Ok; }
      io := ReserveCarry(run, h, ts, raw);
    }

    /** The migration up to a generation that is open: commit, archive, open. */
    method Prepare(run: string, callNonce: string, reservationId: string, mintedKey: Key, mintedManifest: Manifest,
                   ghost raw: bytes)
        returns (io: Io, h: LedgerHandle?<Data>)
      requires Valid() && IsNonce(callNonce) && IsNonce(reservationId) && mintedManifest.runNonce == run
      modifies this`intent, this`leaf, this`archive, this`key, this`wal, this`manifest, host
      ensures Valid() && CanReach(s, run, old(View()), View())
      ensures old(receipt.Some? || (intent.None? && manifest.Some?)) ==> View() == old(View()) && io != Ok
      ensures leaf == old(leaf) || leaf == null || fresh(leaf)
      ensures wal == old(wal) || fresh(wal)
      ensures io == Ok ==> h != null && fresh(h) && h.Usable() && Serves(h) && Carriable(s, run, View())
      ensures old(host.script) == [] ==> host.script == []
      ensures old(host.script) == [] && Fair(s) && old(Phase(s, raw, View(), false)) && old(Resumable(s, run, View()))
              ==> io == Ok && !Stuck(s, View())
    {
      hide FoldLegacy, CanReach, CanOpen, IsNonce, Phase, Fair, LedgerOf, Stuck, Archived, Resumes, Initializable, Committable;
      h := null;
      ghost var d0 := View();
      ghost var good := Fair(s) && Phase(s, raw, d0, false);
      if good && Resumable(s, run, d0) { ResumableCommits(s, raw, run, d0); }
      io := CommitIntent(run, callNonce, reservationId);
      if io != Ok { return; }
      ghost var d1 := View();
      if good { ReachPhase(s, raw, run, d0, d1); }
      io := ArchiveLeaf(run, raw);
      ghost var d2 := View();
      ReachBoth(s, run, d0, d1, d2);
      if io != Ok { return; }
      if good { ReachPhase(s, raw, run, d0, d2); ArchivedOpens(s, raw, run, d2); }
      io, h := OpenInternal(run, true, mintedKey, mintedManifest);
      ReachOpen(s, run, d0, d2, View());
      if good && d2.manifest.None? { FreshNotStuck(s, run, d2, View()); }
    }

    /** Publish the receipt; only now is the directory a usable ledger again. */
    method Complete(run: string, ghost d0: Dir, ghost good: bool) returns (io: Io)
      requires Valid() && CanReach(s, run, d0, View()) && Carriable(s, run, View())
      requires good && intent.value.nano > 0 ==> CarryFound(s, View())
      modifies this`receipt, host
      ensures Valid() && (good ==> CanReach(s, run, d0, View()))
      ensures io == Ok ==> receipt.Some?
      ensures old(host.script) == [] ==> io == Ok
    {
      hide FoldLegacy, CanReach, IsNonce, Phase, LedgerOf, CarryFound, Reaches;
      ghost var d := View();
      var made;
      made, io := Try();
      if made {
        receipt := Some(V1Receipt(run, manifest.value.epoch, intent.value.sha, intent.value.nano));
        if good { CompleteStep(s, run, d0, d, View()); }
      }
      if io == Ok { io := host.Tick(); }
    }

    /** `migrateLegacyV1`. The ghost `raw` names the legacy bytes the board started from. */
    method Migrate(run: string, callNonce: string, reservationId: string, mintedKey: Key, mintedManifest: Manifest,
                   ts: string, ghost raw: bytes)
        returns (io: Io)
      requires Valid() && IsNonce(callNonce) && IsNonce(reservationId) && mintedManifest.runNonce == run && ts != ""
      modifies this, host, leaf, wal
      ensures Valid()
      ensures Fair(s) && old(Phase(s, raw, View(), false)) ==> MigrateStep(s, run, io == Ok, old(View()), View())
      ensures old(receipt.Some? || (intent.None? && manifest.Some?)) ==> View() == old(View()) && io != Ok
      ensures old(host.script) == [] && Fair(s) && old(Phase(s, raw, View(), false)) && old(Resumable(s, run, View()))
              ==> io == Ok && receipt.Some?
    {
      hide FoldLegacy, CanReach, IsNonce, Phase, Fair, LedgerOf, Stuck, Carriable, CarryFound, Reaches;
      ghost var d0 := View();
      ghost var good := Fair(s) && Phase(s, raw, d0, false);
      var h;
      io, h := Prepare(run, callNonce, reservationId, mintedKey, mintedManifest, raw);
      ghost var d1 := View();
      Finished(s, run, d0, d1);
      if io != Ok { return; }
      if good { ReachPhase(s, raw, run, d0, d1); }
      io := CarryForward(run, h, ts, raw);
      ghost var d2 := View();
      ReachBoth(s, run, d0, d1, d2);
      Finished(s, run, d0, d2);
      if io != Ok { return; }
      CarriableAmount(s, run, d2);
      io := Complete(run, d0, good);
      if good { Finished(s, run, d0, View()); }
    }
  }
}
