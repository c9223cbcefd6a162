/** Safety of the ledger files over every run of transactions, reads and reconciliations, each of which may be
    cut short anywhere. */
module CrashSafety {
  import opened Wrappers
  import opened LineLog
  import opened Journal
  import opened Wal
  import opened LedgerSteps

  // ---- what one possibly torn append does to each file ----

  /** The log's view and the view without an unterminated last line, after a possibly torn append of `m`. */
  ghost predicate ViewsAfter<D>(v: WalView<D>, s: WalView<D>, m: WalLine<D>, v': WalView<D>, s': WalView<D>) {
    || (v' == v && s' == s)                                          // nothing got out
    || (v' == s && s' == s)                                          // a torn write over an overhang
    || (v == s && s' == v && Apply(v, m, false) == Some(v'))          // all but the newline got out
    || (v == s && s' == v' && Apply(v, m, true) == Some(v'))          // the whole line got out
  }

  lemma WalPut<D(!new)>(g: Generation<D>, wal: bytes, m: WalLine<D>, k: nat)
    requires Sound(g) && FoldLog(g, wal).Good? && k <= |g.wal.Line(m)|
    ensures var r, out := FoldLog(g, wal), Put(wal, FoldLog(g, wal).durable, g.wal.Line(m)[..k]);
            && SettledLog(g, wal).Good?
            && (r.durable <= |wal| ==> SettledLog(g, wal) == r)
            && (FoldLog(g, out).Good? ==>
                  && SettledLog(g, out).Good?
                  && ViewsAfter(r.state, SettledLog(g, wal).state, m, FoldLog(g, out).state, SettledLog(g, out).state))
            && (k == |g.wal.Line(m)| ==>
                  if r.durable > |wal| || Apply(r.state, m, true).None? then FoldLog(g, out).Corrupt?
                  else
                    FoldLog(g, out) == SettledLog(g, out) == Good(Apply(r.state, m, true).value, |out|))
  {
    hide Fold, Settled, LineLength;
    var r := FoldLog(g, wal);
    var body := g.wal.enc(m);
    WalStrict(g);
    DurableOffset(WalAccept(g), wal, EmptyWal(g));
    if r.durable <= |wal| {
      PutClean(WalAccept(g), wal, EmptyWal(g), r.state, r.durable, body, k);
      if k <= |body| { PrintedMark(g, r.state, m, k, false); assert (body + [NL])[..k] == body[..k]; }
      PrintedMark(g, r.state, m, |body|, true);
      assert body[..|body|] == body && (body + [NL])[..|body| + 1] == body + [NL];
    } else if k > 0 {
      PutOverhang(WalAccept(g), wal, EmptyWal(g), r.state, r.durable, body, k);
    }
  }

  lemma WalMayViews<D(!new)>(g: Generation<D>, wal: bytes, m: WalLine<D>, out: bytes)
    requires Sound(g) && WalMay(g, wal, m, out)
    ensures FoldLog(g, wal).Corrupt? ==> out == wal
    ensures FoldLog(g, wal).Good? ==> SettledLog(g, wal).Good?
    ensures FoldLog(g, wal).Good? && FoldLog(g, out).Good? ==>
              SettledLog(g, out).Good?
              && ViewsAfter(FoldLog(g, wal).state, SettledLog(g, wal).state, m, FoldLog(g, out).state, SettledLog(g, out).state)
  {
    if FoldLog(g, wal).Good? {
      WalPut(g, wal, m, 0);
      if out != wal {
        var k :| 0 <= k <= |g.wal.Line(m)| && out == Put(wal, FoldLog(g, wal).durable, g.wal.Line(m)[..k]);
        WalPut(g, wal, m, k);
      }
    }
  }

  lemma WalDoneView<D(!new)>(g: Generation<D>, wal: bytes, m: WalLine<D>, out: bytes)
    requires Sound(g) && WalDone(g, wal, m, out)
    ensures FoldLog(g, out).Good? <==>
            FoldLog(g, wal).durable <= |wal| && Apply(FoldLog(g, wal).state, m, true).Some?
    ensures FoldLog(g, out).Good? ==>
              FoldLog(g, out) == SettledLog(g, out) == Good(Apply(FoldLog(g, wal).state, m, true).value, |out|)
  {
    var line := g.wal.Line(m);
    assert line[..|line|] == line;
    WalPut(g, wal, m, |line|);
  }

  /** An unterminated last line of the log that parses is counted with the newline it lacks, whether or not it is a
      well-formed marker, and then no marker can be appended to the log any more. The check is whether it parses. */
  lemma LastLineCountedExactly<D(!new)>(g: Generation<D>, raw: bytes, v: WalView<D>, x: bytes, m: WalLine<D>)
    requires Sound(g) && SettledLog(g, raw) == Good(v, |raw|) && NL !in x && Apply(v, m, true).Some?
    ensures var r := FoldLog(g, raw + x);
            && r.Good?
            && r.durable == |raw| + (if g.wal.dec(x).Some? then |x| + 1 else 0)
            && (g.wal.dec(x).Some? ==> r.state == Apply(v, g.wal.dec(x).value, false).value)
            && (FoldLog(g, Put(raw + x, r.durable, g.wal.Line(m))).Good? <==> g.wal.dec(x).None?)
  {
    hide Fold, Settled, LineLength;
    WalStrict(g);
    SettledPrefix(WalAccept(g), raw, EmptyWal(g), 0, x, v, |raw|);
    assert raw[..|raw|] == raw;
    FoldOneLine(WalAccept(g), x, v, |raw|);
    var r := FoldLog(g, raw + x);
    assert g.wal.dec(x).Some? ==> x != [];
    assert g.wal.Line(m) != [];
    assert Apply(r.state, m, true).Some? || g.wal.dec(x).Some?;
    assert g.wal.Line(m)[..|g.wal.Line(m)|] == g.wal.Line(m);
    WalPut(g, raw + x, m, |g.wal.Line(m)|);
  }

  /** The input: a last line of JSON that is no marker. It changes nothing that was read, and ruins the next append. */
  lemma UnknownLastLineIsCounted<D(!new)>(g: Generation<D>, m: WalLine<D>)
    requires Sound(g) && Apply(EmptyWal(g), m, true).Some?
    ensures var x := g.wal.enc(Unknown);
            && FoldLog(g, x) == Good(EmptyWal(g), |x| + 1)
            && FoldLog(g, Put(x, |x| + 1, g.wal.Line(m))).Corrupt?
  {
    hide Fold, Settled, LineLength;
    var x := g.wal.enc(Unknown);
    FoldOneLine(WalAccept(g), [], EmptyWal(g), 0);
    LastLineCountedExactly(g, [], EmptyWal(g), x, m);
    assert [] + x == x;
  }

  /** A possibly torn append of one record, byte count by byte count. */
  lemma LeafPut<D(!new)>(g: Generation<D>, leaf: bytes, data: D, k: nat)
    requires Sound(g) && FoldLeaf(g, leaf).Good?
    requires k <= |g.leaf.Line(NextRecord(FoldLeaf(g, leaf).state, data))|
    ensures var r, s := FoldLeaf(g, leaf), SettledLeaf(g, leaf);
            var line := g.leaf.Line(NextRecord(r.state, data));
            var out := Put(leaf, r.durable, line[..k]);
            && s.Good?
            && (r.durable <= |leaf| ==>
                  && s == r
                  && (k < |line| - 1 ==> FoldLeaf(g, out) == SettledLeaf(g, out) == r)
                  && (k == |line| - 1 ==>
                        && SettledLeaf(g, out) == r
                        && FoldLeaf(g, out) == if g.valid(data) then Good(Extend(r.state, data), |out| + 1) else r)
                  && (k == |line| ==>
                        && SettledLeaf(g, out) == FoldLeaf(g, out)
                        && FoldLeaf(g, out) == if g.valid(data) then Good(Extend(r.state, data), |out|) else Corrupt))
            && (r.durable > |leaf| ==>
                  && (k == 0 ==> out == leaf)
                  && (0 < k < |line| ==> FoldLeaf(g, out) == SettledLeaf(g, out) == s)
                  && (k == |line| ==> FoldLeaf(g, out).Corrupt?))
  {
    hide Fold, Settled, LineLength;
    var r := FoldLeaf(g, leaf);
    var body := g.leaf.enc(NextRecord(r.state, data));
    LeafStrict(g);
    DurableOffset(LeafAccept(g), leaf, EmptyJournal(g));
    PrintedRecord(g, r.state, data, |body|);
    assert body[..|body|] == body;
    if r.durable <= |leaf| {
      PutClean(LeafAccept(g), leaf, EmptyJournal(g), r.state, r.durable, body, k);
      if k <= |body| { PrintedRecord(g, r.state, data, k); assert (body + [NL])[..k] == body[..k]; }
    } else if k > 0 {
      PutOverhang(LeafAccept(g), leaf, EmptyJournal(g), r.state, r.durable, body, k);
    }
  }

  /** What the journal can fold to after a possibly torn append: the old journal, the old journal without its
      unterminated last record, or the old journal and the new record. */
  lemma LeafMayFolds<D(!new)>(g: Generation<D>, leaf: bytes, data: D, out: bytes)
    requires Sound(g) && FoldLeaf(g, leaf).Good?
    requires PutSome(leaf, FoldLeaf(g, leaf).durable, g.leaf.Line(NextRecord(FoldLeaf(g, leaf).state, data)), out)
    ensures var r, s := FoldLeaf(g, leaf), SettledLeaf(g, leaf);
            && s.Good?
            && (r.durable <= |leaf| ==> r == s)
            && (FoldLeaf(g, out).Good? ==>
                  && SettledLeaf(g, out).Good?
                  && FoldLeaf(g, out).state in {r.state, s.state, Extend(r.state, data)}
                  && SettledLeaf(g, out).state in {r.state, s.state, Extend(r.state, data)}
                  && (r.durable > |leaf| ==> SettledLeaf(g, out).state == s.state))
  {
    var n, line := FoldLeaf(g, leaf).durable, g.leaf.Line(NextRecord(FoldLeaf(g, leaf).state, data));
    LeafPut(g, leaf, data, 0);
    if out != leaf {
      var k :| 0 <= k <= |line| && out == Put(leaf, n, line[..k]);
      LeafPut(g, leaf, data, k);
    }
  }

  lemma LeafWhole<D(!new)>(g: Generation<D>, leaf: bytes, data: D, out: bytes)
    requires Sound(g) && FoldLeaf(g, leaf).Good?
    requires out == Put(leaf, FoldLeaf(g, leaf).durable, g.leaf.Line(NextRecord(FoldLeaf(g, leaf).state, data)))
    ensures FoldLeaf(g, out).Good? <==> FoldLeaf(g, leaf).durable <= |leaf| && g.valid(data)
    ensures FoldLeaf(g, out).Good? ==>
              FoldLeaf(g, out) == SettledLeaf(g, out) == Good(Extend(FoldLeaf(g, leaf).state, data), |out|)
  {
    var line := g.leaf.Line(NextRecord(FoldLeaf(g, leaf).state, data));
    assert line[..|line|] == line;
    LeafPut(g, leaf, data, |line|);
  }

  // ---- the invariant: a clear log vouches for exactly what the journal folds to ----

  ghost predicate Agrees<D>(g: Generation<D>, v: WalView<D>, leaf: bytes) {
    v.Clear() && FoldLeaf(g, leaf).Good? ==> FoldLeaf(g, leaf).state.tip == v.trusted
  }

  /** Also of the log without an unterminated last line, because a torn write over an overhang drops it. */
  ghost predicate Inv<D>(g: Generation<D>, d: Disk) {
    FoldLog(g, d.wal).Good? ==>
      && SettledLog(g, d.wal).Good?
      && Agrees(g, FoldLog(g, d.wal).state, d.leaf)
      && Agrees(g, SettledLog(g, d.wal).state, d.leaf)
  }

  /** While the log is blocked even without its unterminated last line, or corrupt, nothing ordinary succeeds. */
  ghost predicate Blocked<D>(g: Generation<D>, wal: bytes) {
    FoldLog(g, wal).Good? ==>
      && SettledLog(g, wal).Good?
      && !FoldLog(g, wal).state.Clear()
      && !SettledLog(g, wal).state.Clear()
  }

  lemma IntentBlocks<D(!new)>(g: Generation<D>, wal: bytes, seqNo: nat, off: nat, h: Digest<D>, wal1: bytes)
    requires Sound(g) && WalDone(g, wal, Intent(seqNo, off, h), wal1)
    ensures Blocked(g, wal1)
    ensures FoldLog(g, wal1).Good? ==>
              && FoldLog(g, wal1) == SettledLog(g, wal1)
              && FoldLog(g, wal1).durable == |wal1|
              && FoldLog(g, wal1).state.pending == Some(Pending(seqNo, h))
              && FoldLog(g, wal1).state.poison == FoldLog(g, wal).state.poison
  {
    WalDoneView(g, wal, Intent(seqNo, off, h), wal1);
  }

  lemma PoisonKeepsBlocked<D(!new)>(g: Generation<D>, wal: bytes, reason: string, out: bytes)
    requires Sound(g) && Blocked(g, wal) && WalMay(g, wal, PoisonMark(reason), out)
    ensures Blocked(g, out)
  {
    WalMayViews(g, wal, PoisonMark(reason), out);
  }

  lemma IntentKeepsInv<D(!new)>(g: Generation<D>, d: Disk, f: Folded<D>, data: D, e: Disk)
    requires Sound(g) && Inv(g, d) && Readable(g, d) == Some(f) && InIntent(g, d, f, data, e)
    ensures Inv(g, e)
  {
    hide Fold, Settled;
    WalMayViews(g, d.wal, IntentOf(f, data, FoldLeaf(g, d.leaf).durable), e.wal);
  }

  lemma AppendBlocks<D(!new)>(g: Generation<D>, d: Disk, f: Folded<D>, data: D, e: Disk)
    requires Sound(g) && Readable(g, d) == Some(f) && InAppend(g, d, f, data, e)
    ensures Blocked(g, e.wal) && Inv(g, e)
  {
    var n := FoldLeaf(g, d.leaf).durable;
    var wal1 :| WalDone(g, d.wal, IntentOf(f, data, n), wal1) && Appending(g, d.leaf, n, wal1, f, data, e);
    IntentBlocks(g, d.wal, f.seqNo, n, NextRecord(f, data).hash, wal1);
    PoisonKeepsBlocked(g, wal1, POISONED, e.wal);
  }

  lemma CommitKeepsInv<D(!new)>(g: Generation<D>, d: Disk, f: Folded<D>, data: D, wal1: bytes, wal2: bytes)
    requires Sound(g) && Readable(g, d) == Some(f)
    requires var n := FoldLeaf(g, d.leaf).durable;
             && WalDone(g, d.wal, IntentOf(f, data, n), wal1)
             && WalMay(g, wal1, CommitOf(f, data), wal2)
    ensures var leaf := Put(d.leaf, FoldLeaf(g, d.leaf).durable, g.leaf.Line(NextRecord(f, data)));
            Inv(g, Disk(leaf, wal2))
  {
    hide Fold, Settled;
    var n := FoldLeaf(g, d.leaf).durable;
    var h := NextRecord(f, data).hash;
    LeafWhole(g, d.leaf, data, Put(d.leaf, n, g.leaf.Line(NextRecord(f, data))));
    IntentBlocks(g, d.wal, f.seqNo, n, h, wal1);
    WalMayViews(g, wal1, CommitOf(f, data), wal2);
  }

  lemma PoisonKeepsInv<D(!new)>(g: Generation<D>, leaf: bytes, wal: bytes, reason: string, out: bytes)
    requires Sound(g) && Inv(g, Disk(leaf, wal)) && WalMay(g, wal, PoisonMark(reason), out)
    ensures Inv(g, Disk(leaf, out))
  {
    hide Fold, Settled;
    WalMayViews(g, wal, PoisonMark(reason), out);
  }

  lemma InterruptedKeepsInv<D(!new)>(g: Generation<D>, d: Disk, f: Folded<D>, data: D, e: Disk)
    requires Sound(g) && Inv(g, d) && Interrupted(g, d, f, data, e)
    ensures Inv(g, e)
  {
    if InIntent(g, d, f, data, e) {
      IntentKeepsInv(g, d, f, data, e);
    } else if InAppend(g, d, f, data, e) {
      AppendBlocks(g, d, f, data, e);
    } else {
      var n := FoldLeaf(g, d.leaf).durable;
      var wal1 :| WalDone(g, d.wal, IntentOf(f, data, n), wal1) && Committing(g, d.leaf, n, wal1, f, data, e);
      var wal2 :| WalMay(g, wal1, CommitOf(f, data), wal2) && WalMay(g, wal2, PoisonMark(POISONED), e.wal);
      CommitKeepsInv(g, d, f, data, wal1, wal2);
      PoisonKeepsInv(g, e.leaf, wal2, POISONED, e.wal);
    }
  }

  lemma DoneMayHaveBeen<D(!new)>(g: Generation<D>, wal: bytes, m: WalLine<D>, out: bytes)
    requires WalDone(g, wal, m, out)
    ensures WalMay(g, wal, m, out)
  {
    var line := g.wal.Line(m);
    assert line[..|line|] == line;
  }

  lemma CommittedKeepsInv<D(!new)>(g: Generation<D>, d: Disk, f: Folded<D>, data: D, e: Disk)
    requires Sound(g) && Readable(g, d) == Some(f) && Committed(g, d, f, data, e)
    ensures Inv(g, e)
  {
    var n := FoldLeaf(g, d.leaf).durable;
    var wal1 :| && WalDone(g, d.wal, IntentOf(f, data, n), wal1)
                && WalDone(g, wal1, CommitOf(f, data), e.wal);
    DoneMayHaveBeen(g, wal1, CommitOf(f, data), e.wal);
    CommitKeepsInv(g, d, f, data, wal1, e.wal);
  }

  lemma ReconcileKeepsInv<D(!new)>(g: Generation<D>, d: Disk, out: Option<Folded<D>>, e: Disk)
    requires Sound(g) && Inv(g, d) && ReconcileStep(g, d, out, e)
    ensures Inv(g, e)
  {
    hide Fold, Settled;
    if FoldLeaf(g, d.leaf).Good? {
      WalMayViews(g, d.wal, Recovered(ReceiptOf(FoldLeaf(g, d.leaf))), e.wal);
    }
  }

  // ---- runs ----

  datatype Event<+D> =
    | TxnCall(out: Outcome<D>)
    | ReadCall(read: Option<Folded<D>>)
    | ReconcileCall(accepted: Option<Folded<D>>)

  /** The journal an event that succeeded was answered from. */
  function AnsweredFrom<D>(ev: Event<D>): Option<Folded<D>> {
    match ev
    case TxnCall(Done(f, _)) => Some(f)
    case TxnCall(Declined(f)) => Some(f)
    case TxnCall(_) => None
    case ReadCall(r) => r
    case ReconcileCall(r) => r
  }

  ghost predicate Step<D(!new)>(g: Generation<D>, may: Proposal<D>, d: Disk, ev: Event<D>, e: Disk) {
    match ev
    case TxnCall(out) => TxnStep(g, may, d, out, e)
    case ReadCall(r) => ReadStep(g, d, r, e)
    case ReconcileCall(r) => ReconcileStep(g, d, r, e)
  }

  ghost predicate Run<D(!new)>(g: Generation<D>, may: Proposal<D>, disks: seq<Disk>, evs: seq<Event<D>>) {
    && |disks| == |evs| + 1
    && forall i :: 0 <= i < |evs| ==> Step(g, may, disks[i], evs[i], disks[i + 1])
  }

  const FRESH := Disk([], [])

  lemma StepKeepsInv<D(!new)>(g: Generation<D>, may: Proposal<D>, d: Disk, ev: Event<D>, e: Disk)
    requires Sound(g) && Inv(g, d) && Step(g, may, d, ev, e)
    ensures Inv(g, e)
  {
    match ev
    case TxnCall(Done(f, data)) => CommittedKeepsInv(g, d, f, data, e);
    case TxnCall(Declined(_)) =>
    case TxnCall(Refused) =>
    case TxnCall(_) =>
      if e != d {
        var f, data :| Interrupted(g, d, f, data, e) && may(f.datas, data);
        InterruptedKeepsInv(g, d, f, data, e);
      }
    case ReadCall(_) =>
    case ReconcileCall(r) => ReconcileKeepsInv(g, d, r, e);
  }

  lemma {:induction false} RunKeepsInv<D(!new)>(g: Generation<D>, may: Proposal<D>, disks: seq<Disk>, evs: seq<Event<D>>, i: nat)
    requires Sound(g) && Run(g, may, disks, evs) && disks[0] == FRESH && i <= |evs|
    ensures Inv(g, disks[i])
  {
    if i > 0 {
      RunKeepsInv(g, may, disks, evs, i - 1);
      StepKeepsInv(g, may, disks[i - 1], evs[i - 1], disks[i]);
    }
  }

  /** Main result. In every run, a read or transaction that succeeds at step i folds exactly the records the
      log vouches for at that moment: those up to the last commit marker, or up to the tip a reconciliation
      accepted, and not one byte that merely looks like a record. */
  lemma SuccessfulFoldIsTrusted<D(!new)>(g: Generation<D>, may: Proposal<D>, disks: seq<Disk>, evs: seq<Event<D>>, i: nat)
    requires Sound(g) && Run(g, may, disks, evs) && disks[0] == FRESH && i < |evs|
    requires !evs[i].ReconcileCall? && AnsweredFrom(evs[i]).Some?
    ensures FoldLog(g, disks[i].wal).Good? && FoldLog(g, disks[i].wal).state.Clear()
    ensures var f, v := AnsweredFrom(evs[i]).value, FoldLog(g, disks[i].wal).state;
            f.tip == v.trusted && f.datas == Records(v.trusted) && f.seqNo == |f.datas|
  {
    RunKeepsInv(g, may, disks, evs, i);
    assert Step(g, may, disks[i], evs[i], disks[i + 1]);
    FoldChained(g, disks[i].leaf, EmptyJournal(g), 0);
  }

  // ---- returned records survive ----

  /** A journal that folds at all holds `kept` first, even without an unterminated last record. */
  ghost predicate Keeps<D>(g: Generation<D>, leaf: bytes, kept: seq<D>) {
    FoldLeaf(g, leaf).Good? ==>
      && SettledLeaf(g, leaf).Good?
      && kept <= FoldLeaf(g, leaf).state.datas
      && kept <= SettledLeaf(g, leaf).state.datas
  }

  lemma InterruptedKeeps<D(!new)>(g: Generation<D>, d: Disk, f: Folded<D>, data: D, e: Disk, kept: seq<D>)
    requires Sound(g) && Interrupted(g, d, f, data, e) && Keeps(g, d.leaf, kept)
    ensures Keeps(g, e.leaf, kept)
  {
    hide Fold, Settled;
    var n := FoldLeaf(g, d.leaf).durable;
    var line := g.leaf.Line(NextRecord(f, data));
    if e.leaf != d.leaf {
      if InAppend(g, d, f, data, e) {
        LeafMayFolds(g, d.leaf, data, e.leaf);
      } else {
        LeafWhole(g, d.leaf, data, e.leaf);
      }
    }
  }

  lemma CommittedKeeps<D(!new)>(g: Generation<D>, d: Disk, f: Folded<D>, data: D, e: Disk)
    requires Sound(g) && Readable(g, d) == Some(f) && Committed(g, d, f, data, e)
    ensures Keeps(g, e.leaf, f.datas + [data])
  {
    hide Fold, Settled;
    LeafWhole(g, d.leaf, data, e.leaf);
  }

  lemma StepKeeps<D(!new)>(g: Generation<D>, may: Proposal<D>, d: Disk, ev: Event<D>, e: Disk, kept: seq<D>)
    requires Sound(g) && Step(g, may, d, ev, e) && Keeps(g, d.leaf, kept)
    ensures Keeps(g, e.leaf, kept)
  {
    match ev
    case TxnCall(Done(f, data)) =>
      CommittedKeeps(g, d, f, data, e);
      if FoldLeaf(g, e.leaf).Good? {
        assert kept <= f.datas <= f.datas + [data];
      }
    case TxnCall(Declined(_)) =>
    case TxnCall(Refused) =>
    case TxnCall(_) =>
      if e != d {
        var f, data :| Interrupted(g, d, f, data, e) && may(f.datas, data);
        InterruptedKeeps(g, d, f, data, e, kept);
      }
    case ReadCall(_) =>
    case ReconcileCall(_) =>
  }

  lemma {:induction false} RunKeeps<D(!new)>(
      g: Generation<D>, may: Proposal<D>, disks: seq<Disk>, evs: seq<Event<D>>, i: nat, j: nat, kept: seq<D>)
    requires Sound(g) && Run(g, may, disks, evs) && i <= j <= |evs| && Keeps(g, disks[i].leaf, kept)
    ensures Keeps(g, disks[j].leaf, kept)
  {
    if i < j {
      RunKeeps(g, may, disks, evs, i, j - 1, kept);
      StepKeeps(g, may, disks[j - 1], evs[j - 1], disks[j], kept);
    }
  }

  /** Main result. A record whose transaction returned is in everything any later call is answered from, in
      its place: no later crash, failed write, or reconciliation loses it. */
  lemma ReturnedRecordsSurvive<D(!new)>(g: Generation<D>, may: Proposal<D>, disks: seq<Disk>, evs: seq<Event<D>>, i: nat, j: nat)
    requires Sound(g) && Run(g, may, disks, evs) && i < j < |evs|
    requires evs[i].TxnCall? && evs[i].out.Done? && AnsweredFrom(evs[j]).Some?
    ensures evs[i].out.before.datas + [evs[i].out.data] <= AnsweredFrom(evs[j]).value.datas
  {
    var Done(f, data) := evs[i].out;
    assert Step(g, may, disks[i], evs[i], disks[i + 1]) && Step(g, may, disks[j], evs[j], disks[j + 1]);
    CommittedKeeps(g, disks[i], f, data, disks[i + 1]);
    RunKeeps(g, may, disks, evs, i + 1, j, f.datas + [data]);
  }

  // ---- every journal is built by the callers' decisions ----

  /** Each record was proposed on exactly the records before it. */
  ghost predicate Justified<D>(may: Proposal<D>, datas: seq<D>) {
    forall i :: 0 <= i < |datas| ==> may(datas[..i], datas[i])
  }

  ghost predicate LeafJustified<D>(g: Generation<D>, may: Proposal<D>, leaf: bytes) {
    FoldLeaf(g, leaf).Good? ==>
      && SettledLeaf(g, leaf).Good?
      && Justified(may, FoldLeaf(g, leaf).state.datas)
      && Justified(may, SettledLeaf(g, leaf).state.datas)
  }

  lemma JustifiedExtend<D>(may: Proposal<D>, datas: seq<D>, data: D)
    requires Justified(may, datas) && may(datas, data)
    ensures Justified(may, datas + [data])
  {
    var more := datas + [data];
    assert more[..|datas|] == datas;
    assert forall i :: 0 <= i < |datas| ==> more[..i] == datas[..i];
  }

  lemma InterruptedJustified<D(!new)>(
      g: Generation<D>, may: Proposal<D>, d: Disk, f: Folded<D>, data: D, e: Disk)
    requires Sound(g) && Interrupted(g, d, f, data, e) && may(f.datas, data) && LeafJustified(g, may, d.leaf)
    ensures LeafJustified(g, may, e.leaf)
  {
    hide Fold, Settled, Justified;
    JustifiedExtend(may, f.datas, data);
    if e.leaf != d.leaf {
      if InAppend(g, d, f, data, e) {
        LeafMayFolds(g, d.leaf, data, e.leaf);
      } else {
        LeafWhole(g, d.leaf, data, e.leaf);
      }
    }
  }

  lemma StepJustified<D(!new)>(g: Generation<D>, may: Proposal<D>, d: Disk, ev: Event<D>, e: Disk)
    requires Sound(g) && Step(g, may, d, ev, e) && LeafJustified(g, may, d.leaf)
    ensures LeafJustified(g, may, e.leaf)
  {
    hide Fold, Settled, Justified;
    match ev
    case TxnCall(Done(f, data)) =>
      LeafWhole(g, d.leaf, data, e.leaf);
      JustifiedExtend(may, f.datas, data);
    case TxnCall(Declined(_)) =>
    case TxnCall(Refused) =>
    case TxnCall(_) =>
      if e != d {
        var f, data :| Interrupted(g, d, f, data, e) && may(f.datas, data);
        InterruptedJustified(g, may, d, f, data, e);
      }
    case ReadCall(_) =>
    case ReconcileCall(_) =>
  }

  lemma {:induction false} RunJustified<D(!new)>(
      g: Generation<D>, may: Proposal<D>, disks: seq<Disk>, evs: seq<Event<D>>, i: nat)
    requires Sound(g) && Run(g, may, disks, evs) && disks[0] == FRESH && i <= |evs|
    ensures LeafJustified(g, may, disks[i].leaf)
  {
    if i > 0 {
      RunJustified(g, may, disks, evs, i - 1);
      StepJustified(g, may, disks[i - 1], evs[i - 1], disks[i]);
    }
  }

  /** Main result. Whatever was torn, poisoned or reconciled on the way, every journal any call is answered
      from is one that its callers' decisions built record by record; so a property of such journals is a
      property of every run. */
  lemma AnsweredJournalsAreJustified<D(!new)>(
      g: Generation<D>, may: Proposal<D>, disks: seq<Disk>, evs: seq<Event<D>>, i: nat)
    requires Sound(g) && Run(g, may, disks, evs) && disks[0] == FRESH && i < |evs| && AnsweredFrom(evs[i]).Some?
    ensures Justified(may, AnsweredFrom(evs[i]).value.datas)
  {
    RunJustified(g, may, disks, evs, i);
    assert Step(g, may, disks[i], evs[i], disks[i + 1]);
  }

  // ---- an interrupted transaction ----

  lemma BlockedStep<D(!new)>(g: Generation<D>, may: Proposal<D>, d: Disk, ev: Event<D>, e: Disk)
    requires Blocked(g, d.wal) && Step(g, may, d, ev, e) && !ev.ReconcileCall?
    ensures e == d && AnsweredFrom(ev).None?
  {
    assert Readable(g, d).None?;
  }

  /** The log counts the record as committed, whatever else it says. */
  ghost predicate CountsAsCommitted<D>(g: Generation<D>, wal: bytes, f: Folded<D>, data: D) {
    FoldLog(g, wal).Good? && FoldLog(g, wal).state.trusted == NextRecord(f, data).hash
  }

  /** A commit marker cut anywhere, over a durable intent: every cut that leaves out a byte of the marker's text leaves
      the ledger blocked, and with the whole text out the record counts as committed, newline or not. */
  lemma CommitCut<D(!new)>(g: Generation<D>, d: Disk, f: Folded<D>, data: D, wal1: bytes, k: nat)
    requires Sound(g) && Readable(g, d) == Some(f) && WalDone(g, d.wal, IntentOf(f, data, FoldLeaf(g, d.leaf).durable), wal1)
    requires FoldLog(g, wal1).Good? && k <= |g.wal.Line(CommitOf(f, data))|
    ensures var out := Put(wal1, FoldLog(g, wal1).durable, g.wal.Line(CommitOf(f, data))[..k]);
            if k < |g.wal.enc(CommitOf(f, data))| then Blocked(g, out)
            else CountsAsCommitted(g, out, f, data) && FoldLog(g, out).state.Clear()
  {
    hide Fold, Settled, LineLength, Put;
    var m := CommitOf(f, data);
    var body := g.wal.enc(m);
    WalStrict(g);
    IntentBlocks(g, d.wal, f.seqNo, FoldLeaf(g, d.leaf).durable, NextRecord(f, data).hash, wal1);
    var r := FoldLog(g, wal1);
    PutClean(WalAccept(g), wal1, EmptyWal(g), r.state, r.durable, body, k);
    if k <= |body| { PrintedMark(g, r.state, m, k, false); } else { PrintedMark(g, r.state, m, |body|, true); }
    assert body[..|body|] == body;
  }

  /** Inside the commit, the ledger is blocked or the record counts as committed. */
  lemma CommitBlocksOrCounts<D(!new)>(g: Generation<D>, d: Disk, f: Folded<D>, data: D, e: Disk)
    requires Sound(g) && Readable(g, d) == Some(f) && InCommit(g, d, f, data, e)
    ensures Blocked(g, e.wal) || CountsAsCommitted(g, e.wal, f, data)
  {
    hide Fold, Settled, Put;
    var n := FoldLeaf(g, d.leaf).durable;
    var h := NextRecord(f, data).hash;
    var wal1 :| WalDone(g, d.wal, IntentOf(f, data, n), wal1) && Committing(g, d.leaf, n, wal1, f, data, e);
    var wal2 :| WalMay(g, wal1, CommitOf(f, data), wal2) && WalMay(g, wal2, PoisonMark(POISONED), e.wal);
    IntentBlocks(g, d.wal, f.seqNo, n, h, wal1);
    WalMayViews(g, wal1, CommitOf(f, data), wal2);
    WalMayViews(g, wal2, PoisonMark(POISONED), e.wal);
  }

  lemma {:induction false} BlockedStays<D(!new)>(g: Generation<D>, may: Proposal<D>, disks: seq<Disk>, evs: seq<Event<D>>, i: nat)
    requires Run(g, may, disks, evs) && i < |evs| && Blocked(g, disks[0].wal)
    requires forall j :: 0 <= j <= i ==> !evs[j].ReconcileCall?
    ensures disks[i + 1] == disks[0] && AnsweredFrom(evs[i]).None?
  {
    if i > 0 { BlockedStays(g, may, disks, evs, i - 1); }
    BlockedStep(g, may, disks[i], evs[i], disks[i + 1]);
  }

  /** Main result. After any interruption between a transaction's durable intent and its durable commit, a torn commit
      and a poison mark after it included: unless the whole text of the commit is in the log, and the record so
      counts as committed, no read and no transaction of any handle succeeds or changes a byte until a
      reconciliation is attempted. */
  lemma NothingSucceedsUntilReconcile<D(!new)>(
      g: Generation<D>, may: Proposal<D>, d: Disk, f: Folded<D>, data: D, disks: seq<Disk>, evs: seq<Event<D>>, i: nat)
    requires Sound(g) && Readable(g, d) == Some(f) && |disks| > 0
    requires InAppend(g, d, f, data, disks[0]) || InCommit(g, d, f, data, disks[0])
    requires Run(g, may, disks, evs) && i < |evs|
    requires forall j :: 0 <= j <= i ==> !evs[j].ReconcileCall?
    ensures InAppend(g, d, f, data, disks[0]) || !CountsAsCommitted(g, disks[0].wal, f, data) ==>
              disks[i + 1] == disks[0] && AnsweredFrom(evs[i]).None?
  {
    if InAppend(g, d, f, data, disks[0]) {
      AppendBlocks(g, d, f, data, disks[0]);
    } else {
      CommitBlocksOrCounts(g, d, f, data, disks[0]);
    }
    if Blocked(g, disks[0].wal) { BlockedStays(g, may, disks, evs, i); }
  }

  /** The journal before the call already ends in an accepted record without its newline. */
  predicate Overhang<D(==)>(g: Generation<D>, d: Disk) {
    Overhangs(LeafAccept(g), d.leaf, EmptyJournal(g))
  }

  predicate LogOverhang<D(==)>(g: Generation<D>, d: Disk) {
    Overhangs(WalAccept(g), d.wal, EmptyWal(g))
  }

  /** A reconciliation after an interrupted transaction accepted the old journal or the old journal and the new
      record. */
  ghost predicate AcceptsOldOrNew<D(!new)>(g: Generation<D>, d: Disk, f: Folded<D>, data: D) {
    forall e, e', got :: InterruptedThenReconciled(g, d, f, data, e, got, e') ==> got == f || got == Extend(f, data)
  }

  ghost predicate InterruptedThenReconciled<D>(
      g: Generation<D>, d: Disk, f: Folded<D>, data: D, e: Disk, got: Folded<D>, e': Disk) {
    Interrupted(g, d, f, data, e) && ReconcileStep(g, e, Some(got), e')
  }

  lemma ReconcileAcceptsOldOrNew<D(!new)>(
      g: Generation<D>, d: Disk, f: Folded<D>, data: D, e: Disk, got: Folded<D>, e': Disk)
    requires Sound(g) && InterruptedThenReconciled(g, d, f, data, e, got, e')
    requires !Overhang(g, d) || LogOverhang(g, d)
    ensures got == f || got == Extend(f, data)
  {
    hide Fold, Settled;
    var n := FoldLeaf(g, d.leaf).durable;
    if e.leaf != d.leaf {
      if InAppend(g, d, f, data, e) {
        var wal1 :| WalDone(g, d.wal, IntentOf(f, data, n), wal1) && Appending(g, d.leaf, n, wal1, f, data, e);
        WalDoneView(g, d.wal, IntentOf(f, data, n), wal1);
        WalMayViews(g, wal1, PoisonMark(POISONED), e.wal);
        LeafMayFolds(g, d.leaf, data, e.leaf);
      } else {
        LeafWhole(g, d.leaf, data, e.leaf);
      }
    }
  }

  /** With an overhang, a transaction that dies one byte into its record and is then reconciled loses the last
      accepted record: a counterexample for every journal of that shape. */
  lemma OverhangLosesARecord<D(!new)>(g: Generation<D>, d: Disk, f: Folded<D>, data: D)
      returns (e: Disk, got: Folded<D>, e': Disk)
    requires Sound(g) && Readable(g, d) == Some(f) && Overhang(g, d) && !LogOverhang(g, d)
    ensures InterruptedThenReconciled(g, d, f, data, e, got, e')
    ensures |f.datas| > 0 && got.datas == f.datas[..|f.datas| - 1]
  {
    hide Fold, Settled;
    var n := FoldLeaf(g, d.leaf).durable;
    var line := g.leaf.Line(NextRecord(f, data));
    var m := IntentOf(f, data, n);
    var wal1 := Put(d.wal, FoldLog(g, d.wal).durable, g.wal.Line(m));
    e := Disk(Put(d.leaf, n, line[..1]), wal1);
    LeafStrict(g);
    DurableOffset(LeafAccept(g), d.leaf, EmptyJournal(g));
    PrintedRecord(g, f, data, 0);
    assert |line| > 1 by { assert g.leaf.enc(NextRecord(f, data)) != []; }
    LeafPut(g, d.leaf, data, 1);
    WalDoneView(g, d.wal, m, wal1);
    assert Appending(g, d.leaf, n, wal1, f, data, e);
    assert InAppend(g, d, f, data, e);
    got := SettledLeaf(g, d.leaf).state;
    var receipt := Recovered(ReceiptOf(FoldLeaf(g, e.leaf)));
    e' := Disk(e.leaf, Put(wal1, FoldLog(g, wal1).durable, g.wal.Line(receipt)));
    DoneMayHaveBeen(g, wal1, receipt, e'.wal);
  }

  /** Main result. A reconciliation after an interrupted transaction can only accept the journal before it or
      that journal with its record, for every way of being interrupted, if and only if the journal did not end
      in an accepted record without its newline (or the log did, and the ledger is then beyond reconciling). */
  lemma ReconcileExactly<D(!new)>(g: Generation<D>, d: Disk, f: Folded<D>, data: D)
    requires Sound(g) && Readable(g, d) == Some(f)
    ensures AcceptsOldOrNew(g, d, f, data) <==> !Overhang(g, d) || LogOverhang(g, d)
  {
    if !Overhang(g, d) || LogOverhang(g, d) {
      forall e, e', got | InterruptedThenReconciled(g, d, f, data, e, got, e')
        ensures got == f || got == Extend(f, data)
      {
        ReconcileAcceptsOldOrNew(g, d, f, data, e, got, e');
      }
    } else {
      var e, got, e' := OverhangLosesARecord(g, d, f, data);
      assert got != f && got != Extend(f, data);
    }
  }

  /** How a ledger gets there: a transaction dies with all of its record but the newline out, and a
      reconciliation accepts it. The ledger then answers reads, and overhangs. */
  lemma OverhangIsReachable<D(!new)>(g: Generation<D>, d: Disk, f: Folded<D>, data: D)
      returns (e: Disk, e': Disk)
    requires Sound(g) && Readable(g, d) == Some(f) && !Overhang(g, d) && !LogOverhang(g, d) && g.valid(data)
    ensures InterruptedThenReconciled(g, d, f, data, e, Extend(f, data), e')
    ensures Readable(g, e') == Some(Extend(f, data)) && Overhang(g, e') && !LogOverhang(g, e')
  {
    hide Fold, Settled;
    var n := FoldLeaf(g, d.leaf).durable;
    var line := g.leaf.Line(NextRecord(f, data));
    var m := IntentOf(f, data, n);
    var wal1 := Put(d.wal, FoldLog(g, d.wal).durable, g.wal.Line(m));
    e := Disk(Put(d.leaf, n, line[..|line| - 1]), wal1);
    LeafPut(g, d.leaf, data, |line| - 1);
    WalDoneView(g, d.wal, m, wal1);
    assert Appending(g, d.leaf, n, wal1, f, data, e);
    assert InAppend(g, d, f, data, e);
    var receipt := Recovered(ReceiptOf(FoldLeaf(g, e.leaf)));
    e' := Disk(e.leaf, Put(wal1, FoldLog(g, wal1).durable, g.wal.Line(receipt)));
    DoneMayHaveBeen(g, wal1, receipt, e'.wal);
    WalDoneView(g, wal1, receipt, e'.wal);
  }

  /** The other end of an overhang: a transaction that runs to its commit there leaves a journal no call is
      ever answered from again. The record is lost to readers, never miscounted. */
  lemma CommitOverOverhangIsFinal<D(!new)>(
      g: Generation<D>, may: Proposal<D>, d: Disk, f: Folded<D>, data: D, disks: seq<Disk>, evs: seq<Event<D>>, i: nat)
    requires Sound(g) && Readable(g, d) == Some(f) && Overhang(g, d) && |disks| > 0
    requires Committed(g, d, f, data, disks[0]) && Run(g, may, disks, evs) && i < |evs|
    ensures AnsweredFrom(evs[i]).None?
  {
    LeafWhole(g, d.leaf, data, disks[0].leaf);
    CorruptStaysCorrupt(g, may, disks, evs, i);
    assert Step(g, may, disks[i], evs[i], disks[i + 1]);
  }

  lemma {:induction false} CorruptStaysCorrupt<D(!new)>(g: Generation<D>, may: Proposal<D>, disks: seq<Disk>, evs: seq<Event<D>>, i: nat)
    requires Run(g, may, disks, evs) && i <= |evs| && FoldLeaf(g, disks[0].leaf).Corrupt?
    ensures disks[i].leaf == disks[0].leaf
  {
    if i > 0 {
      CorruptStaysCorrupt(g, may, disks, evs, i - 1);
      assert Step(g, may, disks[i - 1], evs[i - 1], disks[i]);
      assert Readable(g, disks[i - 1]).None?;
    }
  }

  // ---- what a success is good for ----

  /** Main result. After a committed transaction a reader finds the record at the end of the journal, and neither file
      overhangs, if and only if neither file overhung and the payload passes the schema; otherwise no reader finds
      anything. */
  lemma CommitIsReadExactly<D(!new)>(g: Generation<D>, d: Disk, f: Folded<D>, data: D, e: Disk)
    requires Sound(g) && Readable(g, d) == Some(f) && Committed(g, d, f, data, e)
    ensures if !Overhang(g, d) && !LogOverhang(g, d) && g.valid(data) then
              Readable(g, e) == Some(Extend(f, data)) && !Overhang(g, e) && !LogOverhang(g, e)
            else Readable(g, e).None?
  {
    hide Fold, Settled, LineLength, Put;
    var n := FoldLeaf(g, d.leaf).durable;
    var intent := IntentOf(f, data, n);
    var wal1 :| WalDone(g, d.wal, intent, wal1) && e.leaf == Put(d.leaf, n, g.leaf.Line(NextRecord(f, data)))
                && WalDone(g, wal1, CommitOf(f, data), e.wal);
    LeafWhole(g, d.leaf, data, e.leaf);
    WalDoneView(g, d.wal, intent, wal1);
    WalDoneView(g, wal1, CommitOf(f, data), e.wal);
  }

  /** Main result. After a successful reconciliation ordinary calls read the accepted journal, whatever had blocked
      them, if and only if the log did not overhang; otherwise no ordinary call reads anything. */
  lemma ReconcileUnblocksExactly<D(!new)>(g: Generation<D>, d: Disk, got: Folded<D>, e: Disk)
    requires Sound(g) && ReconcileStep(g, d, Some(got), e)
    ensures Readable(g, e) == if LogOverhang(g, d) then None else Some(got)
  {
    hide Fold, Settled, LineLength, Put;
    WalDoneView(g, d.wal, Recovered(ReceiptOf(FoldLeaf(g, d.leaf))), e.wal);
  }

  /** Main result. Once a poison mark is durable no ordinary call of any handle succeeds or changes a byte until a
      reconciliation is attempted, even when the whole text of a commit is in the log before it. */
  lemma PoisonBlocks<D(!new)>(
      g: Generation<D>, may: Proposal<D>, wal: bytes, reason: string, disks: seq<Disk>, evs: seq<Event<D>>, i: nat)
    requires Sound(g) && |disks| > 0 && WalDone(g, wal, PoisonMark(reason), disks[0].wal)
    requires Run(g, may, disks, evs) && i < |evs| && forall j :: 0 <= j <= i ==> !evs[j].ReconcileCall?
    ensures disks[i + 1] == disks[0] && AnsweredFrom(evs[i]).None?
  {
    WalDoneView(g, wal, PoisonMark(reason), disks[0].wal);
    BlockedStays(g, may, disks, evs, i);
  }
}
