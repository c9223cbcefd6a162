/** Whether what a call was answered with is still there later: not only the records whose transactions returned, but all
    that a read may have seen. */
module Answers {
  import opened Wrappers
  import opened LineLog
  import opened Journal
  import opened Wal
  import opened LedgerSteps
  import opened CrashSafety
  import opened Durability

  // ---- from one store on ----

  lemma {:induction false} StepsKeep<D(!new)>(
      g: Generation<D>, may: Proposal<D>, stores: seq<Store>, evs: seq<PowerEvent<D>>, j: nat, kept: seq<D>)
    requires Sound(g) && PowerSteps(g, may, stores, evs) && j <= |evs| && Sane(stores[0]) && AllKeep(g, stores[0].leaf, kept)
    ensures Sane(stores[j]) && AllKeep(g, stores[j].leaf, kept)
  {
    hide PowerStep, AllKeep, Sound;
    if j > 0 {
      StepsKeep(g, may, stores, evs, j - 1, kept);
      StepKeepsSane(g, may, stores[j - 1], evs[j - 1], stores[j]);
      StepAllKeep(g, may, stores[j - 1], evs[j - 1], stores[j], kept);
    }
  }

  /** Whatever happens from here on, what answers begins with these records. */
  ghost predicate StaysFrom<D(!new)>(g: Generation<D>, may: Proposal<D>, s: Store, kept: seq<D>) {
    forall stores, evs, j :: Later(g, may, s, stores, evs, j) ==> kept <= Replied(evs[j]).value.datas
  }

  ghost predicate Later<D(!new)>(
      g: Generation<D>, may: Proposal<D>, s: Store, stores: seq<Store>, evs: seq<PowerEvent<D>>, j: nat) {
    PowerSteps(g, may, stores, evs) && stores[0] == s && j < |evs| && Replied(evs[j]).Some?
  }

  lemma KeptStays<D(!new)>(g: Generation<D>, may: Proposal<D>, s: Store, kept: seq<D>)
    requires Sound(g) && Sane(s) && AllKeep(g, s.leaf, kept)
    ensures StaysFrom(g, may, s, kept)
  {
    hide Sound, PowerSteps, AllKeep;
    forall stores, evs, j | Later(g, may, s, stores, evs, j) ensures kept <= Replied(evs[j]).value.datas {
      StepsKeep(g, may, stores, evs, j, kept);
      AnswerKeeps(g, may, stores, evs, j, kept);
    }
  }

  lemma AnswerKeeps<D(!new)>(
      g: Generation<D>, may: Proposal<D>, stores: seq<Store>, evs: seq<PowerEvent<D>>, j: nat, kept: seq<D>)
    requires PowerSteps(g, may, stores, evs) && j < |evs| && Sane(stores[j]) && AllKeep(g, stores[j].leaf, kept)
    requires Replied(evs[j]).Some?
    ensures kept <= Replied(evs[j]).value.datas
  {
    hide PowerStep, Fold, Settled;
    assert PowerStep(g, may, stores[j], evs[j], stores[j + 1]);
    AnswerIsSeen(g, may, stores[j], evs[j], stores[j + 1]);
    assert Keeps(g, stores[j].leaf.data, kept);
  }

  // ---- ... and only then ----

  /** A content a power cut may leave and that lacks a record answers the next read. */
  lemma CutAnswers<D(!new)>(g: Generation<D>, may: Proposal<D>, s: Store, f: Folded<D>, x: bytes)
      returns (stores: seq<Store>, evs: seq<PowerEvent<D>>)
    requires Sane(s) && Readable(g, Seen(s)) == Some(f) && x in s.leaf.may && FoldLeaf(g, x).Good?
    ensures Later(g, may, s, stores, evs, 1) && Replied(evs[1]).value == FoldLeaf(g, x).state
  {
    hide Fold;
    var u := Store(Synced(x), Synced(s.wal.data));
    stores := [s, u, u];
    evs := [PowerCut, Call(ReadCall(Readable(g, Seen(u))))];
    assert Cuts(s, u) && PowerStep(g, may, s, evs[0], u) && PowerStep(g, may, u, evs[1], u);
  }

  /** A content that ends in a record without its newline loses it to one torn byte of the next transaction. */
  lemma OverhangAnswers<D(!new)>(g: Generation<D>, may: Proposal<D>, s: Store, f: Folded<D>, x: bytes, data: D)
      returns (stores: seq<Store>, evs: seq<PowerEvent<D>>)
    requires Sound(g) && Sane(s) && Readable(g, Seen(s)) == Some(f) && !LogOverhang(g, Seen(s))
    requires x in s.leaf.may && FoldLeaf(g, x).Good? && Overhangs(LeafAccept(g), x, EmptyJournal(g))
    requires may(FoldLeaf(g, x).state.datas, data)
    ensures Later(g, may, s, stores, evs, 3)
    ensures var all := FoldLeaf(g, x).state.datas; all != [] && Replied(evs[3]).value.datas == all[..|all| - 1]
  {
    hide Fold, Settled, Put, WalMay, Overhangs, InterruptedStore, Interrupted;
    var fx := FoldLeaf(g, x).state;
    var u := Store(Synced(x), Synced(s.wal.data));
    assert Readable(g, Seen(u)) == Some(fx) && Overhang(g, Seen(u)) && !LogOverhang(g, Seen(u));
    var e, got, e' := OverhangLosesARecord(g, Seen(u), fx, data);
    var t := InterruptedThenCut(g, u, fx, data, e);
    var v, z := Store(Synced(e.leaf), Synced(e.wal)), Store(Synced(e.leaf), Synced(e'.wal));
    assert StoreReconcileStep(g, v, Some(got), z);
    stores := [s, u, t, v, z];
    evs := [PowerCut, Call(TxnCall(Died)), PowerCut, Call(ReconcileCall(Some(got)))];
    assert Cuts(s, u) && PowerStep(g, may, s, evs[0], u);
    assert StoreTxnStep(g, may, u, Died, t) && PowerStep(g, may, u, evs[1], t);
    assert PowerStep(g, may, t, evs[2], v) && PowerStep(g, may, v, evs[3], z);
  }

  /** Some call could append to this journal. */
  ghost predicate CanPropose<D(!new)>(may: Proposal<D>, datas: seq<D>) { exists data :: may(datas, data) }

  /** Main result. All that a read was answered with is in every later answer, whatever crashes, reconciliations and power
      cuts follow, if and only if every content the journal may be found to have keeps it, newline and all. A synced
      journal that ends in a newline is such a one. */
  lemma AnswersStayExactly<D(!new)>(g: Generation<D>, may: Proposal<D>, s: Store, f: Folded<D>)
    requires Sound(g) && Sane(s) && Readable(g, Seen(s)) == Some(f) && !LogOverhang(g, Seen(s))
    requires forall x :: x in s.leaf.may && FoldLeaf(g, x).Good? ==> CanPropose(may, FoldLeaf(g, x).state.datas)
    ensures StaysFrom(g, may, s, f.datas) <==> AllKeep(g, s.leaf, f.datas)
  {
    hide Fold, Settled, Later, Overhangs;
    if AllKeep(g, s.leaf, f.datas) {
      KeptStays(g, may, s, f.datas);
    } else {
      var x :| x in s.leaf.may && !Keeps(g, x, f.datas);
      var all := FoldLeaf(g, x).state.datas;
      if !(f.datas <= all) {
        var stores, evs := CutAnswers(g, may, s, f, x);
        assert Later(g, may, s, stores, evs, 1);
      } else {
        LostWithoutItsNewline(g, x, f.datas);
        var data :| may(all, data);
        var stores, evs := OverhangAnswers(g, may, s, f, x, data);
        assert Later(g, may, s, stores, evs, 3);
      }
    }
  }

  lemma LostWithoutItsNewline<D(!new)>(g: Generation<D>, x: bytes, kept: seq<D>)
    requires Sound(g) && FoldLeaf(g, x).Good? && !Keeps(g, x, kept) && kept <= FoldLeaf(g, x).state.datas
    ensures Overhangs(LeafAccept(g), x, EmptyJournal(g)) && kept == FoldLeaf(g, x).state.datas
  {
    hide Fold, Settled;
    LeafStrict(g);
    DurableOffset(LeafAccept(g), x, EmptyJournal(g));
  }

  /** What a caller can check: the journal is synced, and its last byte ends a record. */
  lemma SyncedAnswersStay<D(!new)>(g: Generation<D>, may: Proposal<D>, s: Store, f: Folded<D>)
    requires Sound(g) && Sane(s) && Readable(g, Seen(s)) == Some(f)
    requires s.leaf == Synced(s.leaf.data) && !Overhang(g, Seen(s))
    ensures AllKeep(g, s.leaf, f.datas) && StaysFrom(g, may, s, f.datas)
  {
    hide Fold, Settled, StaysFrom;
    LeafStrict(g);
    DurableOffset(LeafAccept(g), s.leaf.data, EmptyJournal(g));
    KeptStays(g, may, s, f.datas);
  }

  // ---- runs whose reconciliations were careful ----

  /** No content the journal may be found to have ends in a record without its newline. */
  ghost predicate Whole<D(!new)>(g: Generation<D>, leaf: Image) {
    forall x :: x in leaf.may ==> !Overhangs(LeafAccept(g), x, EmptyJournal(g))
  }

  /** Every reconciliation so far was of a journal that no power cut could change, and that ended in a newline. */
  ghost predicate Careful<D(!new)>(g: Generation<D>, stores: seq<Store>, evs: seq<PowerEvent<D>>, n: nat)
    requires n <= |evs| <= |stores|
  {
    forall i :: 0 <= i < n && evs[i].Call? && evs[i].ev.ReconcileCall? ==> Stable(g, stores[i].leaf) && Whole(g, stores[i].leaf)
  }

  /** A log that lets the journal be read, or would without its unterminated last line, lets a whole one be read. */
  ghost predicate WholeIfRead<D(!new)>(g: Generation<D>, x: bytes, w: bytes) {
    FoldLog(g, w).Good? ==>
      && SettledLog(g, w).Good?
      && (FoldLog(g, w).state.Clear() || SettledLog(g, w).state.Clear() ==> !Overhangs(LeafAccept(g), x, EmptyJournal(g)))
  }

  ghost predicate AllWhole<D(!new)>(g: Generation<D>, s: Store) {
    forall x, w :: x in s.leaf.may && w in s.wal.may ==> WholeIfRead(g, x, w)
  }

  lemma MarkKeepsWhole<D(!new)>(g: Generation<D>, x: bytes, wal: bytes, m: WalLine<D>, w: bytes)
    requires Sound(g) && WholeIfRead(g, x, wal) && WalMay(g, wal, m, w) && (m.Intent? || m.PoisonMark?)
    ensures WholeIfRead(g, x, w)
  {
    hide Fold, Settled, Overhangs;
    WalMayViews(g, wal, m, w);
  }

  lemma DirtyKeepsWhole<D(!new)>(g: Generation<D>, x: bytes, wal: Image, m: WalLine<D>, out: Image, w: bytes)
    requires Sound(g) && (forall y :: y in wal.may ==> WholeIfRead(g, x, y)) && wal.data in wal.may
    requires WalDirty(g, wal, m, out) && (m.Intent? || m.PoisonMark?) && w in out.may
    ensures WholeIfRead(g, x, w)
  {
    hide WholeIfRead, WalMay;
    if w !in wal.may { MarkKeepsWhole(g, x, wal.data, m, w); }
  }

  /** A journal just written whole is whole, or nobody ever reads it again. */
  lemma WrittenIsWhole<D(!new)>(g: Generation<D>, leaf: bytes, data: D, out: bytes, w: bytes)
    requires Sound(g) && FoldLeaf(g, leaf).Good? && (FoldLog(g, w).Good? ==> SettledLog(g, w).Good?)
    requires out == Put(leaf, FoldLeaf(g, leaf).durable, g.leaf.Line(NextRecord(FoldLeaf(g, leaf).state, data)))
    ensures WholeIfRead(g, out, w)
  {
    hide Fold, Settled;
    LeafWhole(g, leaf, data, out);
  }

  lemma LogSettles<D(!new)>(g: Generation<D>, w: bytes)
    requires Sound(g)
    ensures FoldLog(g, w).Good? ==> SettledLog(g, w).Good?
  {
    hide Fold, Settled;
    if FoldLog(g, w).Good? {
      WalStrict(g);
      DurableOffset(WalAccept(g), w, EmptyWal(g));
    }
  }

  lemma BlockedIsWhole<D(!new)>(g: Generation<D>, x: bytes, w: bytes)
    requires FoldLog(g, w).Good? ==> FoldLog(g, w) == SettledLog(g, w) && !FoldLog(g, w).state.Clear()
    ensures WholeIfRead(g, x, w)
  {
  }

  lemma InterruptedKeepsWhole<D(!new)>(g: Generation<D>, s: Store, f: Folded<D>, data: D, t: Store)
    requires Sound(g) && Sane(s) && AllWhole(g, s) && InterruptedStore(g, s, f, data, t)
    ensures AllWhole(g, t)
  {
    hide Fold, Settled, Put, WalMay, WholeIfRead, LeafDirty;
    var n, p := FoldLeaf(g, s.leaf.data).durable, PoisonMark(POISONED);
    forall x, w | x in t.leaf.may && w in t.wal.may ensures WholeIfRead(g, x, w) {
      if IntentStored(g, s, f, data, t) {
        DirtyKeepsWhole(g, x, s.wal, IntentOf(f, data, n), t.wal, w);
      } else {
        var wal1 :| WalDone(g, s.wal.data, IntentOf(f, data, n), wal1)
                    && (AppendStored(g, s.leaf, n, wal1, f, data, t) || CommitStored(g, s.leaf, n, wal1, f, data, t));
        if AppendStored(g, s.leaf, n, wal1, f, data, t) {
          IntentIsWhole(g, s, f, data, wal1, x);
          DirtyKeepsWhole(g, x, Synced(wal1), p, t.wal, w);
        } else {
          LogSettles(g, w);
          WrittenIsWhole(g, s.leaf.data, data, t.leaf.data, w);
        }
      }
    }
  }

  lemma IntentIsWhole<D(!new)>(g: Generation<D>, s: Store, f: Folded<D>, data: D, wal1: bytes, x: bytes)
    requires Sound(g) && FoldLeaf(g, s.leaf.data).Good?
    requires WalDone(g, s.wal.data, IntentOf(f, data, FoldLeaf(g, s.leaf.data).durable), wal1)
    ensures WholeIfRead(g, x, wal1)
  {
    hide Fold, Settled, Put;
    IntentBlocks(g, s.wal.data, f.seqNo, FoldLeaf(g, s.leaf.data).durable, NextRecord(f, data).hash, wal1);
    BlockedIsWhole(g, x, wal1);
  }

  lemma StepKeepsWhole<D(!new)>(g: Generation<D>, may: Proposal<D>, s: Store, ev: PowerEvent<D>, t: Store)
    requires Sound(g) && Sane(s) && AllWhole(g, s) && PowerStep(g, may, s, ev, t)
    requires ev.Call? && ev.ev.ReconcileCall? ==> Whole(g, s.leaf)
    ensures AllWhole(g, t)
  {
    hide Fold, Settled, Put, WholeIfRead, InterruptedStore, WalMay, WalDone;
    if ev.Call? && ev.ev.ReconcileCall? {
      forall x, w | x in t.leaf.may && w in t.wal.may ensures WholeIfRead(g, x, w) {
        LogSettles(g, w);
        WholeReads(g, x, w);
      }
    } else if ev.Call? && ev.ev.TxnCall? && t != s {
      if ev.ev.out.Done? {
        LogSettles(g, t.wal.data);
        WrittenIsWhole(g, s.leaf.data, ev.ev.out.data, t.leaf.data, t.wal.data);
      } else {
        var f, data :| InterruptedStore(g, s, f, data, t) && may(f.datas, data);
        InterruptedKeepsWhole(g, s, f, data, t);
      }
    }
  }

  lemma WholeReads<D(!new)>(g: Generation<D>, x: bytes, w: bytes)
    requires !Overhangs(LeafAccept(g), x, EmptyJournal(g)) && (FoldLog(g, w).Good? ==> SettledLog(g, w).Good?)
    ensures WholeIfRead(g, x, w)
  {
  }

  lemma {:induction false} RunIsWhole<D(!new)>(
      g: Generation<D>, may: Proposal<D>, stores: seq<Store>, evs: seq<PowerEvent<D>>, i: nat)
    requires Sound(g) && PowerRun(g, may, stores, evs) && i <= |evs| && Careful(g, stores, evs, i)
    ensures AllWhole(g, stores[i])
  {
    hide PowerStep, WholeIfRead, Whole, Stable, Sound;
    if i == 0 {
      NothingOverhangs(g);
    } else {
      RunIsWhole(g, may, stores, evs, i - 1);
      PowerRunSane(g, may, stores, evs, i - 1);
      StepKeepsWhole(g, may, stores[i - 1], evs[i - 1], stores[i]);
    }
  }

  lemma NothingOverhangs<D(!new)>(g: Generation<D>)
    ensures WholeIfRead(g, [], [])
  {
  }

  /** Main result. In every run whose reconciliations so far accepted synced journals that ended in a newline, a read or
      transaction is answered from a journal that keeps all it was answered with. */
  lemma CarefulAnswersStay<D(!new)>(
      g: Generation<D>, may: Proposal<D>, stores: seq<Store>, evs: seq<PowerEvent<D>>, i: nat)
    requires Sound(g) && PowerRun(g, may, stores, evs) && i < |evs| && Careful(g, stores, evs, i)
    requires Replied(evs[i]).Some? && !evs[i].ev.ReconcileCall?
    ensures AllKeep(g, stores[i].leaf, Replied(evs[i]).value.datas)
  {
    hide Fold, Settled, PowerStep;
    RunIsWhole(g, may, stores, evs, i);
    CarefulAgrees(g, stores, evs, i);
    RunAgrees(g, may, stores, evs, i);
    PowerRunSane(g, may, stores, evs, i);
    assert PowerStep(g, may, stores[i], evs[i], stores[i + 1]);
    AnswerIsSeen(g, may, stores[i], evs[i], stores[i + 1]);
    var s, f := stores[i], Replied(evs[i]).value;
    forall x | x in s.leaf.may ensures Keeps(g, x, f.datas) {
      assert Inv(g, Disk(x, s.wal.data)) && Inv(g, Seen(s)) && WholeIfRead(g, x, s.wal.data);
      SameTipKeeps(g, s.leaf.data, x, f);
    }
  }

  lemma CarefulAgrees<D(!new)>(g: Generation<D>, stores: seq<Store>, evs: seq<PowerEvent<D>>, i: nat)
    requires i <= |evs| <= |stores| && Careful(g, stores, evs, i)
    ensures SyncedReconciles(g, stores, evs, i)
  {
  }

  lemma SameTipKeeps<D(!new)>(g: Generation<D>, leaf: bytes, x: bytes, f: Folded<D>)
    requires Sound(g) && FoldLeaf(g, leaf).Good? && FoldLeaf(g, leaf).state == f
    requires FoldLeaf(g, x).Good? ==> FoldLeaf(g, x).state.tip == f.tip && !Overhangs(LeafAccept(g), x, EmptyJournal(g))
    ensures Keeps(g, x, f.datas)
  {
    hide Fold, Settled;
    if FoldLeaf(g, x).Good? {
      FoldChained(g, leaf, EmptyJournal(g), 0);
      FoldChained(g, x, EmptyJournal(g), 0);
      LeafStrict(g);
      DurableOffset(LeafAccept(g), x, EmptyJournal(g));
    }
  }
}
