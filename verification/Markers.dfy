/** Which markers of the log stand behind the records a call is answered with: not the last one only, but one for each
    record, back to a reconciliation. */
module Markers {
  import opened Wrappers
  import opened LineLog
  import opened Journal
  import opened Wal
  import opened LedgerSteps
  import opened CrashSafety

  /** The log's view together with the well-formed markers it was folded from. */
  datatype History<+D> = History(view: WalView<D>, marks: seq<WalLine<D>>)

  function NoHistory<D>(g: Generation<D>): History<D> { History(EmptyWal(g), []) }

  /** An ill-formed last marker moves nothing and is not remembered. */
  function Remember<D(==)>(h: History<D>, m: WalLine<D>, ended: bool): Option<History<D>> {
    match Apply(h.view, m, ended)
    case None => None
    case Some(v) => Some(History(v, if Apply(h.view, m, true).Some? then h.marks + [m] else h.marks))
  }

  function CheckMark<D(==)>(g: Generation<D>, h: History<D>, line: bytes, ended: bool): Option<History<D>> {
    match g.wal.dec(line)
    case None => None
    case Some(m) => Remember(h, m, ended)
  }

  function MarkAccept<D(==)>(g: Generation<D>): Accept<History<D>> {
    (h: History<D>, line: bytes, ended: bool) => CheckMark(g, h, line, ended)
  }

  function FoldMarks<D(==)>(g: Generation<D>, raw: bytes): Scan<History<D>> {
    Fold(MarkAccept(g), raw, NoHistory(g), 0)
  }

  function SettledMarks<D(==)>(g: Generation<D>, raw: bytes): Scan<History<D>> {
    Settled(MarkAccept(g), raw, NoHistory(g), 0)
  }

  lemma MarkStrict<D(!new)>(g: Generation<D>)
    requires Sound(g)
    ensures Strict(MarkAccept(g))
  {
  }

  ghost predicate SameFold<D>(a: Scan<History<D>>, b: Scan<WalView<D>>) {
    (a.Good? <==> b.Good?) && (a.Good? ==> a.state.view == b.state && a.durable == b.durable)
  }

  /** Remembering the markers changes nothing about what the log folds to. */
  lemma {:induction false} SameView<D(!new)>(g: Generation<D>, raw: bytes, h: History<D>, at: nat)
    ensures SameFold(Fold(MarkAccept(g), raw, h, at), Fold(WalAccept(g), raw, h.view, at))
    decreases |raw|
  {
    hide LineLength, Apply, Fold;
    if raw == [] {
      FoldEmpty(MarkAccept(g), h, at);
      FoldEmpty(WalAccept(g), h.view, at);
    } else {
      var k := LineLength(raw);
      FoldStep(MarkAccept(g), raw, h, at);
      FoldStep(WalAccept(g), raw, h.view, at);
      if k < |raw| {
        var next := CheckMark(g, h, raw[..k], true);
        if next.Some? { SameView(g, raw[k + 1..], next.value, at + k + 1); }
      }
    }
  }

  // ---- what stands behind a tip ----

  /** Each record up to this tip has its own commit marker, back to one a reconciliation accepted with all below it, or
      to the beginning. */
  predicate Backed<D(==)>(marks: seq<WalLine<D>>, tip: Digest<D>)
    decreases tip
  {
    match tip
    case Genesis(_) => true
    case Link(prev, seqNo, _) =>
      || (Commit(seqNo, tip) in marks && Backed(marks, prev))
      || exists m :: m in marks && m.Recovered? && m.receipt.tip == tip
  }

  lemma {:induction false} BackedMore<D>(marks: seq<WalLine<D>>, m: WalLine<D>, tip: Digest<D>)
    requires Backed(marks, tip)
    ensures Backed(marks + [m], tip)
    decreases tip
  {
    if tip.Link? {
      if x :| x in marks && x.Recovered? && x.receipt.tip == tip {
        assert x in marks + [m];
      } else {
        BackedMore(marks, m, tip.prev);
      }
    }
  }

  /** What the markers back: the trusted tip, and what a pending intent extends. */
  ghost predicate AllBacked<D>(h: History<D>) {
    && Backed(h.marks, h.view.trusted)
    && (h.view.pending.Some? ==>
          var p := h.view.pending.value;
          p.h.Link? && p.h.seqNo == p.seqNo && Backed(h.marks, p.h.prev))
  }

  /** An intent is for a record over the trusted tip. */
  ghost predicate Honest<D>(v: WalView<D>, m: WalLine<D>) {
    m.Intent? ==> m.h.Link? && m.h.seqNo == m.seqNo && m.h.prev == v.trusted
  }

  lemma RememberKeepsBacked<D>(h: History<D>, m: WalLine<D>, ended: bool)
    requires AllBacked(h) && Honest(h.view, m) && Remember(h, m, ended).Some?
    ensures AllBacked(Remember(h, m, ended).value)
  {
    hide Backed;
    var next := Remember(h, m, ended).value;
    BackedMore(h.marks, m, h.view.trusted);
    if h.view.pending.Some? { BackedMore(h.marks, m, h.view.pending.value.h.prev); }
    match m
    case Commit(seqNo, tip) => if h.view.pending == Some(Pending(seqNo, tip)) { CommitBacks(h.marks, seqNo, tip); }
    case Recovered(receipt) => RecoveryBacks(h.marks, receipt);
    case _ =>
  }

  lemma CommitBacks<D>(marks: seq<WalLine<D>>, seqNo: nat, tip: Digest<D>)
    requires tip.Link? && tip.seqNo == seqNo && Backed(marks, tip.prev)
    ensures Backed(marks + [Commit(seqNo, tip)], tip)
  {
    BackedMore(marks, Commit(seqNo, tip), tip.prev);
  }

  lemma RecoveryBacks<D>(marks: seq<WalLine<D>>, receipt: Receipt<D>)
    ensures Backed(marks + [Recovered(receipt)], receipt.tip)
  {
    var m := Recovered(receipt);
    assert m in marks + [m];
  }

  // ---- one append ----

  /** The history, and the one without an unterminated last line, after a possibly torn append of `m`. */
  ghost predicate HistoriesAfter<D>(h: History<D>, s: History<D>, m: WalLine<D>, h': History<D>, s': History<D>) {
    || (h' == h && s' == s)
    || (h' == s && s' == s)
    || (h == s && s' == h && Remember(h, m, false) == Some(h'))
    || (h == s && s' == h' && Remember(h, m, true) == Some(h'))
  }

  lemma PrintedMarker<D(!new)>(g: Generation<D>, h: History<D>, m: WalLine<D>, k: nat, ended: bool)
    requires Sound(g) && k <= |g.wal.enc(m)|
    ensures var body := g.wal.enc(m);
            && NL !in body
            && (k < |body| ==> CheckMark(g, h, body[..k], ended).None?)
            && (k == |body| ==> CheckMark(g, h, body[..k], ended) == Remember(h, m, ended))
  {
    var body := g.wal.enc(m);
    assert body[..|body|] == body;
  }

  lemma MarkPut<D(!new)>(g: Generation<D>, wal: bytes, m: WalLine<D>, k: nat)
    requires Sound(g) && FoldMarks(g, wal).Good? && k <= |g.wal.Line(m)|
    ensures var out := Put(wal, FoldMarks(g, wal).durable, g.wal.Line(m)[..k]);
            && SettledMarks(g, wal).Good?
            && (FoldMarks(g, out).Good? ==>
                  && SettledMarks(g, out).Good?
                  && HistoriesAfter(FoldMarks(g, wal).state, SettledMarks(g, wal).state, m,
                                    FoldMarks(g, out).state, SettledMarks(g, out).state))
  {
    hide Fold, Settled, LineLength, Remember;
    var r, body := FoldMarks(g, wal), g.wal.enc(m);
    MarkStrict(g);
    DurableOffset(MarkAccept(g), wal, NoHistory(g));
    if r.durable <= |wal| {
      PutClean(MarkAccept(g), wal, NoHistory(g), r.state, r.durable, body, k);
      if k <= |body| { PrintedMarker(g, r.state, m, k, false); assert (body + [NL])[..k] == body[..k]; }
      PrintedMarker(g, r.state, m, |body|, true);
      assert body[..|body|] == body;
    } else if k > 0 {
      PutOverhang(MarkAccept(g), wal, NoHistory(g), r.state, r.durable, body, k);
    }
  }

  /** In the log, and in the log without an unterminated last line, what counts is backed. */
  ghost predicate LogBacked<D(!new)>(g: Generation<D>, wal: bytes) {
    FoldMarks(g, wal).Good? ==>
      SettledMarks(g, wal).Good? && AllBacked(FoldMarks(g, wal).state) && AllBacked(SettledMarks(g, wal).state)
  }

  lemma AppendKeepsBacked<D(!new)>(g: Generation<D>, wal: bytes, m: WalLine<D>, out: bytes)
    requires Sound(g) && LogBacked(g, wal) && WalMay(g, wal, m, out)
    requires FoldLog(g, wal).Good? ==> Honest(FoldLog(g, wal).state, m)
    ensures LogBacked(g, out)
  {
    hide Fold, Settled, Put, Remember, AllBacked, Honest;
    SameView(g, wal, NoHistory(g), 0);
    if out != wal {
      var k :| 0 <= k <= |g.wal.Line(m)| && out == Put(wal, FoldLog(g, wal).durable, g.wal.Line(m)[..k]);
      MarkPut(g, wal, m, k);
      var h := FoldMarks(g, wal).state;
      if Remember(h, m, false).Some? { RememberKeepsBacked(h, m, false); }
      if Remember(h, m, true).Some? { RememberKeepsBacked(h, m, true); }
    }
  }

  // ---- runs ----

  lemma IntentIsHonest<D(!new)>(g: Generation<D>, d: Disk, f: Folded<D>, data: D, n: nat)
    requires Inv(g, d) && Readable(g, d) == Some(f)
    ensures Honest(FoldLog(g, d.wal).state, IntentOf(f, data, n))
  {
    hide Fold, Settled;
  }

  lemma TxnKeepsBacked<D(!new)>(g: Generation<D>, d: Disk, f: Folded<D>, data: D, e: Disk)
    requires Sound(g) && Inv(g, d) && LogBacked(g, d.wal) && Readable(g, d) == Some(f)
    requires Interrupted(g, d, f, data, e) || Committed(g, d, f, data, e)
    ensures LogBacked(g, e.wal)
  {
    hide Fold, Settled, Put, LogBacked, WalMay, WalDone, Inv;
    var n, p, c := FoldLeaf(g, d.leaf).durable, PoisonMark(POISONED), CommitOf(f, data);
    IntentIsHonest(g, d, f, data, n);
    if InIntent(g, d, f, data, e) {
      AppendKeepsBacked(g, d.wal, IntentOf(f, data, n), e.wal);
    } else {
      var wal1 :| WalDone(g, d.wal, IntentOf(f, data, n), wal1)
                  && (Appending(g, d.leaf, n, wal1, f, data, e) || Committing(g, d.leaf, n, wal1, f, data, e)
                      || WalDone(g, wal1, c, e.wal));
      DoneMayHaveBeen(g, d.wal, IntentOf(f, data, n), wal1);
      AppendKeepsBacked(g, d.wal, IntentOf(f, data, n), wal1);
      if Appending(g, d.leaf, n, wal1, f, data, e) {
        AppendKeepsBacked(g, wal1, p, e.wal);
      } else if Committing(g, d.leaf, n, wal1, f, data, e) {
        var wal2 :| WalMay(g, wal1, c, wal2) && WalMay(g, wal2, p, e.wal);
        AppendKeepsBacked(g, wal1, c, wal2);
        AppendKeepsBacked(g, wal2, p, e.wal);
      } else {
        DoneMayHaveBeen(g, wal1, c, e.wal);
        AppendKeepsBacked(g, wal1, c, e.wal);
      }
    }
  }

  lemma StepKeepsBacked<D(!new)>(g: Generation<D>, may: Proposal<D>, d: Disk, ev: Event<D>, e: Disk)
    requires Sound(g) && Inv(g, d) && LogBacked(g, d.wal) && Step(g, may, d, ev, e)
    ensures LogBacked(g, e.wal)
  {
    hide Fold, Settled, LogBacked, Inv, WalMay, Interrupted, Committed;
    match ev
    case TxnCall(Done(f, data)) => TxnKeepsBacked(g, d, f, data, e);
    case TxnCall(Declined(_)) =>
    case TxnCall(Refused) =>
    case TxnCall(_) =>
      if e != d {
        var f, data :| Interrupted(g, d, f, data, e) && may(f.datas, data);
        InterruptedReads(g, d, f, data, e);
        TxnKeepsBacked(g, d, f, data, e);
      }
    case ReadCall(_) =>
    case ReconcileCall(_) =>
      if FoldLeaf(g, d.leaf).Good? { AppendKeepsBacked(g, d.wal, Recovered(ReceiptOf(FoldLeaf(g, d.leaf))), e.wal); }
  }

  lemma InterruptedReads<D(!new)>(g: Generation<D>, d: Disk, f: Folded<D>, data: D, e: Disk)
    requires Interrupted(g, d, f, data, e)
    ensures Readable(g, d) == Some(f)
  {
  }

  lemma {:induction false} RunKeepsBacked<D(!new)>(
      g: Generation<D>, may: Proposal<D>, disks: seq<Disk>, evs: seq<Event<D>>, i: nat)
    requires Sound(g) && Run(g, may, disks, evs) && disks[0] == FRESH && i <= |evs|
    ensures LogBacked(g, disks[i].wal)
  {
    hide LogBacked, Step, Inv;
    if i == 0 {
      NothingToBack(g);
    } else {
      RunKeepsBacked(g, may, disks, evs, i - 1);
      RunKeepsInv(g, may, disks, evs, i - 1);
      StepKeepsBacked(g, may, disks[i - 1], evs[i - 1], disks[i]);
    }
  }

  lemma NothingToBack<D(!new)>(g: Generation<D>)
    requires Sound(g)
    ensures LogBacked(g, [])
  {
  }

  /** Main result. In every run, each record a read or transaction is answered with has its own commit marker in the log,
      or lies under a tip a reconciliation accepted. */
  lemma AnsweredRecordsHaveMarkers<D(!new)>(
      g: Generation<D>, may: Proposal<D>, disks: seq<Disk>, evs: seq<Event<D>>, i: nat)
    requires Sound(g) && Run(g, may, disks, evs) && disks[0] == FRESH && i < |evs|
    requires !evs[i].ReconcileCall? && AnsweredFrom(evs[i]).Some?
    ensures FoldMarks(g, disks[i].wal).Good?
    ensures var f := AnsweredFrom(evs[i]).value;
            f.datas == Records(f.tip) && Backed(FoldMarks(g, disks[i].wal).state.marks, f.tip)
  {
    hide Fold, Settled, Step, Backed;
    RunKeepsBacked(g, may, disks, evs, i);
    SuccessfulFoldIsTrusted(g, may, disks, evs, i);
    SameView(g, disks[i].wal, NoHistory(g), 0);
  }
}
