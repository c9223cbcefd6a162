/** The ledger across power cuts: a cut may take either file back to anything it has held since it was last synced. */
module Durability {
  import opened Wrappers
  import opened LineLog
  import opened Journal
  import opened Wal
  import opened LedgerSteps
  import opened CrashSafety

  datatype PowerEvent<+D> = Call(ev: Event<D>) | PowerCut

  ghost predicate StoreStep<D(!new)>(g: Generation<D>, may: Proposal<D>, s: Store, ev: Event<D>, t: Store) {
    match ev
    case TxnCall(out) => StoreTxnStep(g, may, s, out, t)
    case ReadCall(r) => t == s && (r.Some? ==> Readable(g, Seen(s)) == r)
    case ReconcileCall(r) => StoreReconcileStep(g, s, r, t)
  }

  /** Each file is found with one of the contents it may have, and that content is then all there is. */
  ghost predicate Cuts(s: Store, t: Store) {
    && t.leaf.data in s.leaf.may && t.wal.data in s.wal.may
    && t == Store(Synced(t.leaf.data), Synced(t.wal.data))
  }

  ghost predicate PowerStep<D(!new)>(g: Generation<D>, may: Proposal<D>, s: Store, ev: PowerEvent<D>, t: Store) {
    match ev
    case Call(e) => StoreStep(g, may, s, e, t)
    case PowerCut => Cuts(s, t)
  }

  ghost predicate PowerSteps<D(!new)>(g: Generation<D>, may: Proposal<D>, stores: seq<Store>, evs: seq<PowerEvent<D>>) {
    && |stores| == |evs| + 1
    && forall i :: 0 <= i < |evs| ==> PowerStep(g, may, stores[i], evs[i], stores[i + 1])
  }

  const NEW_STORE := Store(Synced([]), Synced([]))

  /** A run of a fresh ledger. */
  ghost predicate PowerRun<D(!new)>(g: Generation<D>, may: Proposal<D>, stores: seq<Store>, evs: seq<PowerEvent<D>>) {
    PowerSteps(g, may, stores, evs) && stores[0] == NEW_STORE
  }

  function Replied<D>(ev: PowerEvent<D>): Option<Folded<D>> {
    if ev.Call? then AnsweredFrom(ev.ev) else None
  }

  /** What happens to the files' contents is what happens without power cuts. */
  lemma SeenStep<D(!new)>(g: Generation<D>, may: Proposal<D>, s: Store, ev: Event<D>, t: Store)
    requires StoreStep(g, may, s, ev, t)
    ensures Step(g, may, Seen(s), ev, Seen(t))
  {
    if ev.TxnCall? && (ev.out.Threw? || ev.out.Died?) && t != s {
      var f, data :| InterruptedStore(g, s, f, data, t) && may(f.datas, data);
      SeenInterrupted(g, s, f, data, t);
    }
  }

  lemma SeenInterrupted<D(!new)>(g: Generation<D>, s: Store, f: Folded<D>, data: D, t: Store)
    requires InterruptedStore(g, s, f, data, t)
    ensures Interrupted(g, Seen(s), f, data, Seen(t))
  {
    hide Fold, Put, WalMay, WalDone;
    var n := FoldLeaf(g, s.leaf.data).durable;
    if !IntentStored(g, s, f, data, t) {
      var wal1 :| WalDone(g, s.wal.data, IntentOf(f, data, n), wal1)
                  && (AppendStored(g, s.leaf, n, wal1, f, data, t) || CommitStored(g, s.leaf, n, wal1, f, data, t));
      if AppendStored(g, s.leaf, n, wal1, f, data, t) {
        assert Appending(g, s.leaf.data, n, wal1, f, data, Seen(t));
        assert InAppend(g, Seen(s), f, data, Seen(t));
      } else {
        var wal2 :| WalDirty(g, Synced(wal1), CommitOf(f, data), wal2) && WalDirty(g, wal2, PoisonMark(POISONED), t.wal);
        assert WalMay(g, wal1, CommitOf(f, data), wal2.data) && WalMay(g, wal2.data, PoisonMark(POISONED), t.wal.data);
        assert Committing(g, s.leaf.data, n, wal1, f, data, Seen(t));
        assert InCommit(g, Seen(s), f, data, Seen(t));
      }
    }
  }

  // ---- records across power cuts: nothing to assume ----

  ghost predicate Sane(s: Store) { s.leaf.data in s.leaf.may && s.wal.data in s.wal.may }

  /** Whatever the journal may be found to hold was there, or is the seen journal with a piece of one record. */
  lemma LeafMayGrow<D(!new)>(g: Generation<D>, may: Proposal<D>, s: Store, ev: Event<D>, t: Store, x: bytes)
      returns (f: Folded<D>, data: D)
    requires Sane(s) && StoreStep(g, may, s, ev, t) && x in t.leaf.may && x !in s.leaf.may
    ensures Readable(g, Seen(s)) == Some(f) && may(f.datas, data)
    ensures PutSome(s.leaf.data, FoldLeaf(g, s.leaf.data).durable, g.leaf.Line(NextRecord(f, data)), x)
  {
    hide Fold, Put, WalMay, WalDone;
    if ev.out.Done? {
      f, data := ev.out.before, ev.out.data;
      var line := g.leaf.Line(NextRecord(f, data));
      assert line[..|line|] == line;
    } else {
      f, data :| InterruptedStore(g, s, f, data, t) && may(f.datas, data);
      var line := g.leaf.Line(NextRecord(f, data));
      assert line[..|line|] == line;
    }
  }

  lemma StepKeepsSane<D(!new)>(g: Generation<D>, may: Proposal<D>, s: Store, ev: PowerEvent<D>, t: Store)
    requires Sane(s) && PowerStep(g, may, s, ev, t)
    ensures Sane(t)
  {
    hide Fold, Put, WalMay, WalDone;
  }

  ghost predicate AllKeep<D(!new)>(g: Generation<D>, leaf: Image, kept: seq<D>) {
    forall x :: x in leaf.may ==> Keeps(g, x, kept)
  }

  lemma PutKeeps<D(!new)>(g: Generation<D>, leaf: bytes, f: Folded<D>, data: D, out: bytes, kept: seq<D>)
    requires Sound(g) && FoldLeaf(g, leaf).Good? && FoldLeaf(g, leaf).state == f && Keeps(g, leaf, kept)
    requires PutSome(leaf, FoldLeaf(g, leaf).durable, g.leaf.Line(NextRecord(f, data)), out)
    ensures Keeps(g, out, kept)
  {
    hide Fold, Settled;
    LeafMayFolds(g, leaf, data, out);
  }

  lemma StepAllKeep<D(!new)>(g: Generation<D>, may: Proposal<D>, s: Store, ev: PowerEvent<D>, t: Store, kept: seq<D>)
    requires Sound(g) && Sane(s) && PowerStep(g, may, s, ev, t) && AllKeep(g, s.leaf, kept)
    ensures AllKeep(g, t.leaf, kept)
  {
    hide StoreStep, Keeps, Sound;
    forall x | x in t.leaf.may ensures Keeps(g, x, kept) {
      if x !in s.leaf.may {
        var f, data := LeafMayGrow(g, may, s, ev.ev, t, x);
        PutKeeps(g, s.leaf.data, f, data, x, kept);
      }
    }
  }

  lemma {:induction false} PowerRunSane<D(!new)>(g: Generation<D>, may: Proposal<D>, stores: seq<Store>, evs: seq<PowerEvent<D>>, i: nat)
    requires PowerRun(g, may, stores, evs) && i <= |evs|
    ensures Sane(stores[i])
  {
    hide PowerStep;
    if i > 0 {
      PowerRunSane(g, may, stores, evs, i - 1);
      StepKeepsSane(g, may, stores[i - 1], evs[i - 1], stores[i]);
    }
  }

  lemma {:induction false} RunAllKeep<D(!new)>(
      g: Generation<D>, may: Proposal<D>, stores: seq<Store>, evs: seq<PowerEvent<D>>, i: nat, j: nat, kept: seq<D>)
    requires Sound(g) && PowerRun(g, may, stores, evs) && i <= j <= |evs| && AllKeep(g, stores[i].leaf, kept)
    ensures AllKeep(g, stores[j].leaf, kept)
  {
    hide PowerStep, AllKeep, Sound;
    if i < j {
      RunAllKeep(g, may, stores, evs, i, j - 1, kept);
      PowerRunSane(g, may, stores, evs, j - 1);
      StepAllKeep(g, may, stores[j - 1], evs[j - 1], stores[j], kept);
    }
  }

  lemma AnswerIsSeen<D(!new)>(g: Generation<D>, may: Proposal<D>, s: Store, ev: PowerEvent<D>, t: Store)
    requires PowerStep(g, may, s, ev, t) && Replied(ev).Some?
    ensures FoldLeaf(g, s.leaf.data).Good? && FoldLeaf(g, s.leaf.data).state == Replied(ev).value
    ensures !ev.ev.ReconcileCall? ==> Readable(g, Seen(s)) == Replied(ev)
  {
    hide Fold;
  }

  /** Main result. A record whose transaction returned is in everything any later call is answered from, whatever
      crashes, reconciliations and power cuts lie between: its journal and its commit were synced. */
  lemma ReturnedRecordsSurvivePowerCuts<D(!new)>(
      g: Generation<D>, may: Proposal<D>, stores: seq<Store>, evs: seq<PowerEvent<D>>, i: nat, j: nat)
    requires Sound(g) && PowerRun(g, may, stores, evs) && i < j < |evs|
    requires evs[i].Call? && evs[i].ev.TxnCall? && evs[i].ev.out.Done? && Replied(evs[j]).Some?
    ensures evs[i].ev.out.before.datas + [evs[i].ev.out.data] <= Replied(evs[j]).value.datas
  {
    hide Fold, Settled, Sound;
    var out := evs[i].ev.out;
    assert PowerStep(g, may, stores[i], evs[i], stores[i + 1]);
    CommittedKeeps(g, Seen(stores[i]), out.before, out.data, Seen(stores[i + 1]));
    assert AllKeep(g, stores[i + 1].leaf, out.before.datas + [out.data]);
    RunAllKeep(g, may, stores, evs, i + 1, j, out.before.datas + [out.data]);
    PowerRunSane(g, may, stores, evs, j);
    assert PowerStep(g, may, stores[j], evs[j], stores[j + 1]);
    AnswerIsSeen(g, may, stores[j], evs[j], stores[j + 1]);
  }

  /** Main result. Nor is a record lost that was whole on disk when its commit was being written, though its call died or
      failed and its commit may never have been: whatever answers later, answers with it. */
  lemma WrittenRecordsSurvivePowerCuts<D(!new)>(
      g: Generation<D>, may: Proposal<D>, stores: seq<Store>, evs: seq<PowerEvent<D>>, i: nat, j: nat,
      f: Folded<D>, data: D, wal1: bytes)
    requires Sound(g) && PowerRun(g, may, stores, evs) && i < j < |evs| && Replied(evs[j]).Some?
    requires Readable(g, Seen(stores[i])) == Some(f)
    requires CommitStored(g, stores[i].leaf, FoldLeaf(g, stores[i].leaf.data).durable, wal1, f, data, stores[i + 1])
    ensures f.datas + [data] <= Replied(evs[j]).value.datas
  {
    hide Fold, Settled, Sound, WalMay, Put;
    LeafWhole(g, stores[i].leaf.data, data, stores[i + 1].leaf.data);
    assert AllKeep(g, stores[i + 1].leaf, f.datas + [data]);
    RunAllKeep(g, may, stores, evs, i + 1, j, f.datas + [data]);
    PowerRunSane(g, may, stores, evs, j);
    assert PowerStep(g, may, stores[j], evs[j], stores[j + 1]);
    AnswerIsSeen(g, may, stores[j], evs[j], stores[j + 1]);
  }

  ghost predicate AllJustified<D(!new)>(g: Generation<D>, may: Proposal<D>, leaf: Image) {
    forall x :: x in leaf.may ==> LeafJustified(g, may, x)
  }

  lemma PutJustified<D(!new)>(g: Generation<D>, may: Proposal<D>, leaf: bytes, f: Folded<D>, data: D, out: bytes)
    requires Sound(g) && FoldLeaf(g, leaf).Good? && FoldLeaf(g, leaf).state == f && LeafJustified(g, may, leaf)
    requires may(f.datas, data) && PutSome(leaf, FoldLeaf(g, leaf).durable, g.leaf.Line(NextRecord(f, data)), out)
    ensures LeafJustified(g, may, out)
  {
    hide Fold, Settled, Justified;
    JustifiedExtend(may, f.datas, data);
    LeafMayFolds(g, leaf, data, out);
  }

  lemma {:induction false} RunAllJustified<D(!new)>(
      g: Generation<D>, may: Proposal<D>, stores: seq<Store>, evs: seq<PowerEvent<D>>, i: nat)
    requires Sound(g) && PowerRun(g, may, stores, evs) && i <= |evs|
    ensures AllJustified(g, may, stores[i].leaf)
  {
    hide StoreStep, LeafJustified, Sound;
    if i == 0 {
      EmptyJustified(g, may);
    } else {
      RunAllJustified(g, may, stores, evs, i - 1);
      PowerRunSane(g, may, stores, evs, i - 1);
      var s, t := stores[i - 1], stores[i];
      assert PowerStep(g, may, s, evs[i - 1], t);
      forall x | x in t.leaf.may ensures LeafJustified(g, may, x) {
        if x !in s.leaf.may {
          var f, data := LeafMayGrow(g, may, s, evs[i - 1].ev, t, x);
          PutJustified(g, may, s.leaf.data, f, data, x);
        }
      }
    }
  }

  lemma EmptyJustified<D(!new)>(g: Generation<D>, may: Proposal<D>)
    ensures LeafJustified(g, may, [])
  {
  }

  /** Main result. Power cuts or not, every journal a call is answered from was built record by record by its
      callers' decisions; so what holds of such journals, the budget among it, holds in every run. */
  lemma AnsweredJournalsAreJustifiedAcrossPowerCuts<D(!new)>(
      g: Generation<D>, may: Proposal<D>, stores: seq<Store>, evs: seq<PowerEvent<D>>, i: nat)
    requires Sound(g) && PowerRun(g, may, stores, evs) && i < |evs| && Replied(evs[i]).Some?
    ensures Justified(may, Replied(evs[i]).value.datas)
  {
    hide StoreStep, Sound;
    RunAllJustified(g, may, stores, evs, i);
    PowerRunSane(g, may, stores, evs, i);
    assert PowerStep(g, may, stores[i], evs[i], stores[i + 1]);
    AnswerIsSeen(g, may, stores[i], evs[i], stores[i + 1]);
  }

  // ---- what a read is answered from, across power cuts ----

  /** Any journal and any log the files may be found with agree. */
  ghost predicate AllAgree<D(!new)>(g: Generation<D>, s: Store) {
    forall x, w :: x in s.leaf.may && w in s.wal.may ==> Inv(g, Disk(x, w))
  }

  /** A marker that does not vouch for anything but what the journal folds to. */
  ghost predicate Vouches<D>(g: Generation<D>, m: WalLine<D>, leaf: bytes) {
    match m
    case Intent(_, _, _) => true
    case PoisonMark(_) => true
    case Commit(_, h) => FoldLeaf(g, leaf).Good? ==> FoldLeaf(g, leaf).state.tip == h
    case Recovered(r) => FoldLeaf(g, leaf).Good? ==> FoldLeaf(g, leaf).state.tip == r.tip
    case _ => false
  }

  lemma MarkKeepsInv<D(!new)>(g: Generation<D>, leaf: bytes, wal: bytes, m: WalLine<D>, out: bytes)
    requires Sound(g) && Inv(g, Disk(leaf, wal)) && WalMay(g, wal, m, out) && Vouches(g, m, leaf)
    ensures Inv(g, Disk(leaf, out))
  {
    hide Fold, Settled;
    WalMayViews(g, wal, m, out);
  }

  lemma DirtyKeepsInv<D(!new)>(g: Generation<D>, leaf: bytes, wal: Image, m: WalLine<D>, out: Image, w: bytes)
    requires Sound(g) && (forall x :: x in wal.may ==> Inv(g, Disk(leaf, x))) && wal.data in wal.may
    requires WalDirty(g, wal, m, out) && Vouches(g, m, leaf) && w in out.may
    ensures Inv(g, Disk(leaf, w))
  {
    hide Inv, WalMay, Vouches;
    if w !in wal.may { MarkKeepsInv(g, leaf, wal.data, m, w); }
  }

  /** A journal is stable when every content a power cut could leave folds to the same records, or not at all. A
      synced journal is. */
  ghost predicate Stable<D(!new)>(g: Generation<D>, leaf: Image) {
    forall x :: x in leaf.may && FoldLeaf(g, x).Good? && FoldLeaf(g, leaf.data).Good? ==>
      FoldLeaf(g, x).state.tip == FoldLeaf(g, leaf.data).state.tip
  }

  lemma BlockedAgrees<D(!new)>(g: Generation<D>, wal: bytes, leaf: bytes)
    requires Blocked(g, wal)
    ensures Inv(g, Disk(leaf, wal))
  {
  }

  lemma InterruptedAgrees<D(!new)>(g: Generation<D>, s: Store, f: Folded<D>, data: D, t: Store)
    requires Sound(g) && Sane(s) && AllAgree(g, s) && InterruptedStore(g, s, f, data, t)
    ensures AllAgree(g, t)
  {
    hide Fold, Settled, Put, Inv, WalMay, Blocked, LeafDirty;
    var n := FoldLeaf(g, s.leaf.data).durable;
    forall x, w | x in t.leaf.may && w in t.wal.may ensures Inv(g, Disk(x, w)) {
      if IntentStored(g, s, f, data, t) {
        DirtyKeepsInv(g, x, s.wal, IntentOf(f, data, n), t.wal, w);
      } else {
        var wal1 :| WalDone(g, s.wal.data, IntentOf(f, data, n), wal1)
                    && (AppendStored(g, s.leaf, n, wal1, f, data, t) || CommitStored(g, s.leaf, n, wal1, f, data, t));
        IntentBlocks(g, s.wal.data, f.seqNo, n, NextRecord(f, data).hash, wal1);
        BlockedAgrees(g, wal1, x);
        if AppendStored(g, s.leaf, n, wal1, f, data, t) {
          DirtyKeepsInv(g, x, Synced(wal1), PoisonMark(POISONED), t.wal, w);
        } else {
          CommitAgrees(g, s, f, data, t, wal1, w);
        }
      }
    }
  }

  lemma CommitAgrees<D(!new)>(g: Generation<D>, s: Store, f: Folded<D>, data: D, t: Store, wal1: bytes, w: bytes)
    requires Sound(g) && Readable(g, Seen(s)) == Some(f) && Inv(g, Disk(t.leaf.data, wal1)) && w in t.wal.may
    requires CommitStored(g, s.leaf, FoldLeaf(g, s.leaf.data).durable, wal1, f, data, t)
    ensures Inv(g, Disk(t.leaf.data, w))
  {
    hide Fold, Settled, Put, Inv, WalMay;
    var wal2 :| WalDirty(g, Synced(wal1), CommitOf(f, data), wal2) && WalDirty(g, wal2, PoisonMark(POISONED), t.wal);
    LeafWhole(g, s.leaf.data, data, t.leaf.data);
    forall x | x in wal2.may ensures Inv(g, Disk(t.leaf.data, x)) {
      DirtyKeepsInv(g, t.leaf.data, Synced(wal1), CommitOf(f, data), wal2, x);
    }
    DirtyKeepsInv(g, t.leaf.data, wal2, PoisonMark(POISONED), t.wal, w);
  }

  lemma ReconcileAgrees<D(!new)>(g: Generation<D>, s: Store, out: Option<Folded<D>>, t: Store)
    requires Sound(g) && Sane(s) && AllAgree(g, s) && StoreReconcileStep(g, s, out, t) && Stable(g, s.leaf)
    ensures AllAgree(g, t)
  {
    hide Fold, Settled, Put, Inv, WalMay;
    if FoldLeaf(g, s.leaf.data).Good? {
      forall x, w | x in t.leaf.may && w in t.wal.may ensures Inv(g, Disk(x, w)) {
        DirtyKeepsInv(g, x, s.wal, Recovered(ReceiptOf(FoldLeaf(g, s.leaf.data))), t.wal, w);
      }
    }
  }

  lemma StepAgrees<D(!new)>(g: Generation<D>, may: Proposal<D>, s: Store, ev: PowerEvent<D>, t: Store)
    requires Sound(g) && Sane(s) && AllAgree(g, s) && PowerStep(g, may, s, ev, t)
    requires ev.Call? && ev.ev.ReconcileCall? ==> Stable(g, s.leaf)
    ensures AllAgree(g, t)
  {
    hide Fold, Settled, Put, Inv, WalMay, InterruptedStore, StoreReconcileStep, Committed, Stable;
    if ev.Call? && ev.ev.ReconcileCall? {
      ReconcileAgrees(g, s, ev.ev.accepted, t);
    } else if ev.Call? && ev.ev.TxnCall? && t != s {
      if ev.ev.out.Done? {
        CommittedKeepsInv(g, Seen(s), ev.ev.out.before, ev.ev.out.data, Seen(t));
      } else {
        var f, data :| InterruptedStore(g, s, f, data, t) && may(f.datas, data);
        InterruptedAgrees(g, s, f, data, t);
      }
    }
  }

  /** Every reconciliation of the run was of a stable journal. */
  ghost predicate SyncedReconciles<D(!new)>(g: Generation<D>, stores: seq<Store>, evs: seq<PowerEvent<D>>, n: nat)
    requires n <= |evs| <= |stores|
  {
    forall i :: 0 <= i < n && evs[i].Call? && evs[i].ev.ReconcileCall? ==> Stable(g, stores[i].leaf)
  }

  lemma {:induction false} RunAgrees<D(!new)>(
      g: Generation<D>, may: Proposal<D>, stores: seq<Store>, evs: seq<PowerEvent<D>>, i: nat)
    requires Sound(g) && PowerRun(g, may, stores, evs) && i <= |evs| && SyncedReconciles(g, stores, evs, i)
    ensures AllAgree(g, stores[i])
  {
    hide PowerStep, Inv, Stable, Sound;
    if i == 0 {
      FreshAgrees(g);
    } else {
      RunAgrees(g, may, stores, evs, i - 1);
      PowerRunSane(g, may, stores, evs, i - 1);
      StepAgrees(g, may, stores[i - 1], evs[i - 1], stores[i]);
    }
  }

  lemma FreshAgrees<D(!new)>(g: Generation<D>)
    ensures Inv(g, FRESH)
  {
  }

  /** Main result. Across crashes, torn writes and power cuts, a read or transaction that succeeds folds exactly the
      records the log vouches for, as long as no reconciliation accepted records that a power cut could still take. */
  lemma SuccessfulFoldIsTrustedAcrossPowerCuts<D(!new)>(
      g: Generation<D>, may: Proposal<D>, stores: seq<Store>, evs: seq<PowerEvent<D>>, i: nat)
    requires Sound(g) && PowerRun(g, may, stores, evs) && i < |evs| && SyncedReconciles(g, stores, evs, i)
    requires Replied(evs[i]).Some? && !evs[i].ev.ReconcileCall?
    ensures FoldLog(g, stores[i].wal.data).Good? && FoldLog(g, stores[i].wal.data).state.Clear()
    ensures var f, v := Replied(evs[i]).value, FoldLog(g, stores[i].wal.data).state;
            f.tip == v.trusted && f.datas == Records(v.trusted) && f.seqNo == |f.datas|
  {
    hide Fold, Settled;
    RunAgrees(g, may, stores, evs, i);
    PowerRunSane(g, may, stores, evs, i);
    assert PowerStep(g, may, stores[i], evs[i], stores[i + 1]);
    AnswerIsSeen(g, may, stores[i], evs[i], stores[i + 1]);
    assert Inv(g, Seen(stores[i]));
    FoldChained(g, stores[i].leaf.data, EmptyJournal(g), 0);
  }

  /** After the reconciliation, whatever a power cut leaves, a read is answered with what the log vouches for. */
  ghost predicate TrustedAfterCut<D(!new)>(g: Generation<D>, t: Store) {
    forall u :: Cuts(t, u) && Readable(g, Seen(u)).Some? ==>
      Readable(g, Seen(u)).value.tip == FoldLog(g, u.wal.data).state.trusted
  }

  /** Main result. A successful reconciliation is safe against a power cut if and only if the journal it accepted was
      stable (or the log itself overhangs, and nothing reads the ledger again). The code does not sync it. */
  lemma ReconcileSafeExactly<D(!new)>(g: Generation<D>, s: Store, f: Folded<D>, t: Store)
    requires Sound(g) && Sane(s) && StoreReconcileStep(g, s, Some(f), t)
    ensures TrustedAfterCut(g, t) <==> Stable(g, s.leaf) || LogOverhang(g, Seen(s))
  {
    hide Fold, Settled, Put;
    var m := Recovered(ReceiptOf(FoldLeaf(g, s.leaf.data)));
    WalDoneView(g, s.wal.data, m, t.wal.data);
    if TrustedAfterCut(g, t) && !LogOverhang(g, Seen(s)) {
      forall x | x in s.leaf.may && FoldLeaf(g, x).Good? ensures FoldLeaf(g, x).state.tip == f.tip {
        var u := Store(Synced(x), t.wal);
        assert Cuts(t, u);
        assert Readable(g, Seen(u)).Some?;
      }
    }
  }

  /** A run in which that fails, on every generation: a first transaction dies with its record written whole and not
      synced, a reconciliation accepts the record, a power cut takes it, and the next read is answered without it. */
  lemma UnsyncedAcceptanceIsLost<D(!new)>(g: Generation<D>, may: Proposal<D>, data: D)
      returns (stores: seq<Store>, evs: seq<PowerEvent<D>>)
    requires Sound(g) && g.valid(data) && may([], data)
    ensures PowerRun(g, may, stores, evs) && |evs| == 4
    ensures evs[1] == Call(ReconcileCall(Some(Extend(EmptyJournal(g), data)))) && !Stable(g, stores[1].leaf)
    ensures evs[2].PowerCut? && evs[3] == Call(ReadCall(Some(EmptyJournal(g))))
    ensures FoldLog(g, stores[3].wal.data).Good? && FoldLog(g, stores[3].wal.data).state.trusted == Extend(EmptyJournal(g), data).tip
  {
    hide Fold, Settled;
    var f := EmptyJournal(g);
    var s0 := Store(Synced([]), Synced([]));
    EmptyFiles(g);
    var m := IntentOf(f, data, 0);
    var line := g.leaf.Line(NextRecord(f, data));
    var whole := Put([], 0, line);
    var wal1 := Put([], 0, g.wal.Line(m));
    WalDoneView(g, [], m, wal1);
    assert line[..|line|] == line;
    var s1 := Store(Image(whole, iset{[], whole}), Synced(wal1));
    LeafPut(g, [], data, |line|);
    assert PutSome([], 0, line, whole) && PutSome([], 0, line, []);
    assert AppendStored(g, s0.leaf, 0, wal1, f, data, s1);
    assert InterruptedStore(g, s0, f, data, s1);
    var receipt := Recovered(ReceiptOf(FoldLeaf(g, whole)));
    var wal2 := Put(wal1, FoldLog(g, wal1).durable, g.wal.Line(receipt));
    WalDoneView(g, wal1, receipt, wal2);
    DoneMayHaveBeen(g, wal1, receipt, wal2);
    var s2 := Store(s1.leaf, Synced(wal2));
    var s3 := Store(Synced([]), Synced(wal2));
    assert Readable(g, Seen(s3)) == Some(f);
    stores := [s0, s1, s2, s3, s3];
    evs := [Call(TxnCall(Died)), Call(ReconcileCall(Some(Extend(f, data)))), PowerCut, Call(ReadCall(Some(f)))];
    assert FoldLeaf(g, whole).state == Extend(f, data);
    assert [] in s1.leaf.may && FoldLeaf(g, []).state.tip != Extend(f, data).tip;
    assert StoreStep(g, may, s1, ReconcileCall(Some(Extend(f, data))), s2);
  }

  lemma EmptyFiles<D(!new)>(g: Generation<D>)
    ensures FoldLeaf(g, []) == Good(EmptyJournal(g), 0) && FoldLog(g, []) == Good(EmptyWal(g), 0)
    ensures Readable(g, FRESH) == Some(EmptyJournal(g))
  {
  }

  /** A reconciliation that synced the journal first would be safe: all there is of it is what was accepted. */
  lemma SyncedReconcileIsSafe<D(!new)>(g: Generation<D>, s: Store, f: Folded<D>, t: Store)
    requires Sound(g) && Sane(s) && StoreReconcileStep(g, s, Some(f), t) && s.leaf == Synced(s.leaf.data)
    ensures Stable(g, s.leaf) && TrustedAfterCut(g, t)
  {
    ReconcileSafeExactly(g, s, f, t);
  }

  // ---- an interrupted transaction, and then power cuts ----

  /** Once a transaction got past its intent, any log a cut may leave, with the journal seen or any content of the
      journal that is new, is what an interruption without power cuts may leave. */
  lemma MayBeSeen<D(!new)>(g: Generation<D>, s: Store, f: Folded<D>, data: D, wal1: bytes, t: Store, x: bytes, w: bytes)
    requires Readable(g, Seen(s)) == Some(f) && x in t.leaf.may && w in t.wal.may
    requires x == t.leaf.data || x !in s.leaf.may
    requires WalDone(g, s.wal.data, IntentOf(f, data, FoldLeaf(g, s.leaf.data).durable), wal1)
    ensures AppendStored(g, s.leaf, FoldLeaf(g, s.leaf.data).durable, wal1, f, data, t) ==>
              InAppend(g, Seen(s), f, data, Disk(x, w))
    ensures CommitStored(g, s.leaf, FoldLeaf(g, s.leaf.data).durable, wal1, f, data, t) ==>
              InCommit(g, Seen(s), f, data, Disk(x, w))
  {
    hide Fold, Put, WalMay, WalDone, PutSome;
    MayStay(g, wal1, PoisonMark(POISONED));
    var n := FoldLeaf(g, s.leaf.data).durable;
    if AppendStored(g, s.leaf, n, wal1, f, data, t) {
      assert Appending(g, s.leaf.data, n, wal1, f, data, Disk(x, w));
    }
    if CommitStored(g, s.leaf, n, wal1, f, data, t) {
      var wal2 :| WalDirty(g, Synced(wal1), CommitOf(f, data), wal2) && WalDirty(g, wal2, PoisonMark(POISONED), t.wal);
      var seen := if w in wal2.may then w else wal2.data;
      MayStay(g, wal1, CommitOf(f, data));
      MayStay(g, w, PoisonMark(POISONED));
      assert WalMay(g, wal1, CommitOf(f, data), seen) && WalMay(g, seen, PoisonMark(POISONED), w);
      assert Committing(g, s.leaf.data, n, wal1, f, data, Disk(x, w));
    }
  }

  lemma MayStay<D(!new)>(g: Generation<D>, wal: bytes, m: WalLine<D>)
    ensures WalMay(g, wal, m, wal)
  {
  }

  /** As long as the log that is seen blocks, calls change nothing and cuts only narrow what may be found. Of the logs
      that may be found, those in `free` need not block. */
  lemma {:induction false} BlockedStaysAcrossPowerCuts<D(!new)>(
      g: Generation<D>, may: Proposal<D>, stores: seq<Store>, evs: seq<PowerEvent<D>>, i: nat, free: iset<bytes>)
    requires PowerSteps(g, may, stores, evs) && i <= |evs| && Sane(stores[0])
    requires forall w :: w in stores[0].wal.may ==> Blocked(g, w) || w in free
    requires forall j :: 0 <= j < i ==> !(evs[j].Call? && evs[j].ev.ReconcileCall?) && stores[j].wal.data !in free
    ensures Sane(stores[i]) && stores[i].wal.may <= stores[0].wal.may && stores[i].leaf.may <= stores[0].leaf.may
  {
    hide Blocked, StoreStep;
    if i > 0 {
      BlockedStaysAcrossPowerCuts(g, may, stores, evs, i - 1, free);
      var s, ev, t := stores[i - 1], evs[i - 1], stores[i];
      assert PowerStep(g, may, s, ev, t);
      StepKeepsSane(g, may, s, ev, t);
      if ev.Call? { BlockedCallChangesNothing(g, may, s, ev.ev, t); }
    }
  }

  lemma BlockedCallChangesNothing<D(!new)>(g: Generation<D>, may: Proposal<D>, s: Store, ev: Event<D>, t: Store)
    requires Blocked(g, s.wal.data) && StoreStep(g, may, s, ev, t) && !ev.ReconcileCall?
    ensures t == s && AnsweredFrom(ev).None?
  {
    assert Readable(g, Seen(s)).None?;
  }

  /** Some log seen by step `i` holds the whole text of the commit. */
  ghost predicate CountedBy<D(!new)>(g: Generation<D>, stores: seq<Store>, i: nat, f: Folded<D>, data: D)
    requires i < |stores|
  {
    exists j :: 0 <= j <= i && CountsAsCommitted(g, stores[j].wal.data, f, data)
  }

  /** Main result. After any interruption between a transaction's durable intent and its durable commit, and any power
      cuts: until a reconciliation no call succeeds or changes a byte, and what may be found only gets less, unless the
      interruption was inside the commit and it or a cut left the whole text of the commit in the log. */
  lemma NothingSucceedsAcrossPowerCuts<D(!new)>(
      g: Generation<D>, may: Proposal<D>, s: Store, f: Folded<D>, data: D, wal1: bytes,
      stores: seq<Store>, evs: seq<PowerEvent<D>>, i: nat)
    requires Sound(g) && Sane(s) && Readable(g, Seen(s)) == Some(f)
    requires WalDone(g, s.wal.data, IntentOf(f, data, FoldLeaf(g, s.leaf.data).durable), wal1)
    requires PowerSteps(g, may, stores, evs) && i < |evs| && Sane(stores[0])
    requires var n := FoldLeaf(g, s.leaf.data).durable;
             AppendStored(g, s.leaf, n, wal1, f, data, stores[0]) || CommitStored(g, s.leaf, n, wal1, f, data, stores[0])
    requires forall j :: 0 <= j <= i ==> !(evs[j].Call? && evs[j].ev.ReconcileCall?)
    ensures AppendStored(g, s.leaf, FoldLeaf(g, s.leaf.data).durable, wal1, f, data, stores[0])
            || !CountedBy(g, stores, i, f, data) ==>
              && Replied(evs[i]).None? && (evs[i].Call? ==> stores[i + 1] == stores[i])
              && stores[i].wal.may <= stores[0].wal.may && stores[i].leaf.may <= stores[0].leaf.may
  {
    hide Fold, Settled, Put, Blocked, StoreStep, InAppend, InCommit, AppendStored, CommitStored, CountsAsCommitted, WalDone;
    var append := AppendStored(g, s.leaf, FoldLeaf(g, s.leaf.data).durable, wal1, f, data, stores[0]);
    if append || !CountedBy(g, stores, i, f, data) {
      var free := if append then iset{} else iset w | CountsAsCommitted(g, w, f, data);
      forall w | w in stores[0].wal.may ensures Blocked(g, w) || w in free {
        var e := Disk(stores[0].leaf.data, w);
        MayBeSeen(g, s, f, data, wal1, stores[0], e.leaf, w);
        if append { AppendBlocks(g, Seen(s), f, data, e); } else { CommitBlocksOrCounts(g, Seen(s), f, data, e); }
      }
      BlockedStaysAcrossPowerCuts(g, may, stores, evs, i, free);
      assert PowerStep(g, may, stores[i], evs[i], stores[i + 1]);
      if evs[i].Call? { BlockedCallChangesNothing(g, may, stores[i], evs[i].ev, stores[i + 1]); }
    }
  }

  /** Every content a power cut could leave of the journal folds to the old records or the old ones and the new one. */
  ghost predicate FoldsOldOrNew<D(!new)>(g: Generation<D>, leaf: Image, f: Folded<D>, data: D) {
    forall x :: x in leaf.may && FoldLeaf(g, x).Good? ==>
      FoldLeaf(g, x).state == f || FoldLeaf(g, x).state == Extend(f, data)
  }

  /** A transaction is interrupted, the power goes, and a reconciliation accepts what is left. */
  ghost predicate CutThenReconciled<D(!new)>(
      g: Generation<D>, s: Store, f: Folded<D>, data: D, t: Store, u: Store, got: Folded<D>, v: Store) {
    InterruptedStore(g, s, f, data, t) && Cuts(t, u) && StoreReconcileStep(g, u, Some(got), v)
  }

  ghost predicate AcceptsOldOrNewAfterCut<D(!new)>(g: Generation<D>, s: Store, f: Folded<D>, data: D) {
    forall t, u, got, v :: CutThenReconciled(g, s, f, data, t, u, got, v) ==> got == f || got == Extend(f, data)
  }

  lemma AcceptsOldOrNewThen<D(!new)>(
      g: Generation<D>, s: Store, f: Folded<D>, data: D, t: Store, u: Store, got: Folded<D>, v: Store)
    requires Sound(g) && Sane(s) && CutThenReconciled(g, s, f, data, t, u, got, v)
    requires FoldsOldOrNew(g, s.leaf, f, data) && (!Overhang(g, Seen(s)) || LogOverhang(g, Seen(s)))
    ensures got == f || got == Extend(f, data)
  {
    hide Fold, Settled, Put, WalMay, WalDone, Overhang, LogOverhang, AppendStored, CommitStored, InAppend, InCommit;
    var x, w := u.leaf.data, u.wal.data;
    if x !in s.leaf.may {
      var n := FoldLeaf(g, s.leaf.data).durable;
      var wal1 :| WalDone(g, s.wal.data, IntentOf(f, data, n), wal1)
                  && (AppendStored(g, s.leaf, n, wal1, f, data, t) || CommitStored(g, s.leaf, n, wal1, f, data, t));
      MayBeSeen(g, s, f, data, wal1, t, x, w);
      ReconcileAcceptsOldOrNew(g, Seen(s), f, data, Seen(u), got, Seen(v));
    }
  }

  /** What an interruption may leave is found after a power cut at that moment. */
  lemma InterruptedThenCut<D(!new)>(g: Generation<D>, s: Store, f: Folded<D>, data: D, e: Disk) returns (t: Store)
    requires Sane(s) && Interrupted(g, Seen(s), f, data, e)
    ensures InterruptedStore(g, s, f, data, t) && Cuts(t, Store(Synced(e.leaf), Synced(e.wal)))
  {
    hide Fold, Put, WalMay, WalDone, PutSome;
    var n, p := FoldLeaf(g, s.leaf.data).durable, PoisonMark(POISONED);
    if InIntent(g, Seen(s), f, data, e) {
      t := Store(s.leaf, Image(e.wal, s.wal.may + iset{e.wal}));
    } else if InAppend(g, Seen(s), f, data, e) {
      var wal1 :| WalDone(g, s.wal.data, IntentOf(f, data, n), wal1) && Appending(g, s.leaf.data, n, wal1, f, data, e);
      t := Store(Image(e.leaf, s.leaf.may + iset{e.leaf}), Image(e.wal, iset{wal1, e.wal}));
      assert AppendStored(g, s.leaf, n, wal1, f, data, t);
    } else {
      var wal1 :| WalDone(g, s.wal.data, IntentOf(f, data, n), wal1) && Committing(g, s.leaf.data, n, wal1, f, data, e);
      var wal2 :| WalMay(g, wal1, CommitOf(f, data), wal2) && WalMay(g, wal2, p, e.wal);
      var dirty := Image(wal2, iset{wal1, wal2});
      t := Store(Synced(e.leaf), Image(e.wal, iset{wal1, wal2, e.wal}));
      assert WalDirty(g, Synced(wal1), CommitOf(f, data), dirty) && WalDirty(g, dirty, p, t.wal);
      assert CommitStored(g, s.leaf, n, wal1, f, data, t);
    }
  }

  /** A content of the journal the last sync left open is what a reconciliation accepts after an interruption that wrote
      nothing and a cut. */
  lemma UnsyncedIsAccepted<D(!new)>(g: Generation<D>, s: Store, f: Folded<D>, data: D, x: bytes)
      returns (u: Store, v: Store)
    requires Sane(s) && Readable(g, Seen(s)) == Some(f) && x in s.leaf.may && FoldLeaf(g, x).Good?
    ensures CutThenReconciled(g, s, f, data, s, u, FoldLeaf(g, x).state, v)
  {
    hide Fold, Put;
    MayStay(g, s.wal.data, IntentOf(f, data, FoldLeaf(g, s.leaf.data).durable));
    assert IntentStored(g, s, f, data, s);
    u := Store(Synced(x), Synced(s.wal.data));
    var m := Recovered(ReceiptOf(FoldLeaf(g, x)));
    v := Store(u.leaf, Synced(Put(s.wal.data, FoldLog(g, s.wal.data).durable, g.wal.Line(m))));
    DoneMayHaveBeen(g, s.wal.data, m, v.wal.data);
  }

  lemma OverhangIsLostAfterCut<D(!new)>(g: Generation<D>, s: Store, f: Folded<D>, data: D)
      returns (t: Store, u: Store, got: Folded<D>, v: Store)
    requires Sound(g) && Sane(s) && Readable(g, Seen(s)) == Some(f) && Overhang(g, Seen(s)) && !LogOverhang(g, Seen(s))
    ensures CutThenReconciled(g, s, f, data, t, u, got, v) && |got.datas| < |f.datas|
  {
    hide Fold, Settled, Put, WalMay, Overhang, LogOverhang, Interrupted, InterruptedStore;
    var e, e';
    e, got, e' := OverhangLosesARecord(g, Seen(s), f, data);
    t := InterruptedThenCut(g, s, f, data, e);
    u := Store(Synced(e.leaf), Synced(e.wal));
    v := Store(Synced(e.leaf), Synced(e'.wal));
    assert StoreReconcileStep(g, u, Some(got), v);
  }

  /** Main result. A transaction interrupted anywhere, a power cut, a reconciliation: it accepts the old journal or the
      old and the new record, whatever the cut takes, if and only if every content left open by the last sync of the
      journal folds to one of the two, and the journal did not overhang (or the log did). */
  lemma OldOrNewAcrossPowerCuts<D(!new)>(g: Generation<D>, s: Store, f: Folded<D>, data: D)
    requires Sound(g) && Sane(s) && Readable(g, Seen(s)) == Some(f)
    ensures AcceptsOldOrNewAfterCut(g, s, f, data) <==>
              FoldsOldOrNew(g, s.leaf, f, data) && (!Overhang(g, Seen(s)) || LogOverhang(g, Seen(s)))
  {
    hide Fold, Settled, CutThenReconciled, Overhang, LogOverhang;
    if FoldsOldOrNew(g, s.leaf, f, data) && (!Overhang(g, Seen(s)) || LogOverhang(g, Seen(s))) {
      forall t, u, got, v | CutThenReconciled(g, s, f, data, t, u, got, v) ensures got == f || got == Extend(f, data) {
        AcceptsOldOrNewThen(g, s, f, data, t, u, got, v);
      }
    } else if Overhang(g, Seen(s)) && !LogOverhang(g, Seen(s)) {
      var t, u, got, v := OverhangIsLostAfterCut(g, s, f, data);
      assert got != f && got != Extend(f, data);
    } else {
      var x :| x in s.leaf.may && FoldLeaf(g, x).Good? && FoldLeaf(g, x).state != f && FoldLeaf(g, x).state != Extend(f, data);
      var u, v := UnsyncedIsAccepted(g, s, f, data, x);
    }
  }

  /** A stable journal, a synced one among them, meets the first condition. */
  lemma StableFoldsOld<D(!new)>(g: Generation<D>, s: Store, f: Folded<D>, data: D)
    requires Sound(g) && Stable(g, s.leaf) && Readable(g, Seen(s)) == Some(f)
    ensures FoldsOldOrNew(g, s.leaf, f, data)
  {
    hide Fold;
    FoldChained(g, s.leaf.data, EmptyJournal(g), 0);
    forall x | x in s.leaf.may && FoldLeaf(g, x).Good? ensures FoldLeaf(g, x).state == f {
      FoldChained(g, x, EmptyJournal(g), 0);
    }
  }

  /** From a stable journal power cuts change nothing about the condition: it is the one without them. */
  lemma StableOldOrNewExactly<D(!new)>(g: Generation<D>, s: Store, f: Folded<D>, data: D)
    requires Sound(g) && Sane(s) && Readable(g, Seen(s)) == Some(f) && Stable(g, s.leaf)
    ensures AcceptsOldOrNewAfterCut(g, s, f, data) <==> AcceptsOldOrNew(g, Seen(s), f, data)
  {
    hide AcceptsOldOrNewAfterCut, AcceptsOldOrNew, FoldsOldOrNew, Stable;
    StableFoldsOld(g, s, f, data);
    OldOrNewAcrossPowerCuts(g, s, f, data);
    ReconcileExactly(g, Seen(s), f, data);
  }
}
