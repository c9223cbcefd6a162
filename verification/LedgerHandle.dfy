/** The ledger handle over its two files, with every I/O step able to fail, fall short, or be the last one the
    process makes. */
module LedgerHandle {
  import opened Wrappers
  import opened LineLog
  import opened Files
  import opened Journal
  import opened Wal
  import opened LedgerSteps
  import CrashSafety
  import Durability

  /** Cutting to the durable offset first changes nothing about where the write lands. */
  lemma PutAfterCut(raw: bytes, n: nat, x: bytes)
    ensures |raw| > n ==> Put(raw[..n], n, x) == Put(raw, n, x)
    ensures x == [] && |raw| >= n ==> Put(raw, n, x) == raw[..n]
    ensures x != [] ==> |Put(raw, n, x)| == n + |x| && Put(raw, n, x)[n..] == x
  {
  }

  /** Cut a torn tail off at `n` and write a line there. */
  method PutLine(host: Host, file: File, n: nat, line: bytes) returns (io: Io)
    modifies host, file
    ensures LeafDirty(old(file.Img()), n, line, file.Img())
    ensures io == Ok ==> file.data == Put(old(file.data), n, line)
    ensures old(host.script) == [] ==> host.script == [] && io == Ok
  {
    hide Put;
    assert line[..0] == [] && line[..|line|] == line;
    ghost var before := file.data;
    PutAfterCut(before, n, []);
    if |file.data| > n {
      io := file.Truncate(host, n);
      assert PutSome(before, n, line, before[..n]) by { assert before[..n] == Put(before, n, line[..0]); }
      if io != Ok { return; }
    }
    label cut:
    ghost var cut := file.data;
    io := file.WriteAll(host, n, line);
    ghost var k :| 0 <= k <= |line| && file.data == Put(cut, n, line[..k]);
    forall j | 0 <= j <= |line| ensures Put(cut, n, line[..j]) == Put(before, n, line[..j]) {
      PutAfterCut(before, n, line[..j]);
    }
    assert PutSome(before, n, line, file.data);
    forall y | PutSome(cut, n, line, y) ensures PutSome(before, n, line, y) {
      if y == cut {
      } else {
        var j :| 0 <= j <= |line| && y == Put(cut, n, line[..j]);
      }
    }
  }

  class LedgerHandle<D(==,!new)> {
    const g: Generation<D>
    const host: Host
    const leaf: File
    const wal: File
    var poisonReason: Option<string>
    var closed: bool

    constructor (g: Generation<D>, host: Host, leaf: File, wal: File)
      requires leaf != wal
      ensures this.g == g && this.host == host && this.leaf == leaf && this.wal == wal
      ensures poisonReason.None? && !closed
    {
      this.g, this.host, this.leaf, this.wal := g, host, leaf, wal;
      poisonReason := None;
      closed := false;
    }

    predicate Usable() reads this { !closed && poisonReason.None? }

    function OnDisk(): Disk reads leaf, wal { Disk(leaf.data, wal.data) }

    ghost function Stored(): Store reads leaf, wal { Store(leaf.Img(), wal.Img()) }

    /** Append one marker at the log's durable offset, dropping a torn tail first, and make it durable. */
    method WalAppend(m: WalLine<D>) returns (io: Io)
      modifies host, wal
      ensures WalDirty(g, old(wal.Img()), m, wal.Img())
      ensures io == Ok ==> WalSynced(g, old(wal.Img()), m, wal.Img())
      ensures old(host.script) == [] ==> host.script == [] && (FoldLog(g, old(wal.data)).Good? ==> io == Ok)
    {
      hide FoldLog, Put;
      io := host.Tick();
      if io != Ok { return; }
      var state := FoldWal(g, wal.data);
      if state.Corrupt? { return Error; }
      var line := g.wal.Line(m);
      ghost var n := FoldLog(g, wal.data).durable;
      io := PutLine(host, wal, state.durable, line);
      if io != Ok { return; }
      io := wal.Sync(host);
    }

    /** Remember the failure in memory, and on disk if the disk still takes it. */
    method Poison(reason: string) returns (io: Io)
      modifies this`poisonReason, host, wal
      ensures WalDirty(g, old(wal.Img()), PoisonMark(reason), wal.Img())
      ensures poisonReason == Some(reason)
      ensures old(host.script) == [] ==> host.script == []
    {
      poisonReason := Some(reason);
      io := WalAppend(PoisonMark(reason));
      if io == Ok { io := host.Tick(); }
    }

    /** The generation check, the leaf, its lock, the log and the fold: what a call sees before it decides. */
    method Inspect() returns (io: Io, f: Option<Folded<D>>, durable: nat)
      modifies host
      ensures f.Some? ==> io == Ok && f == Readable(g, OnDisk()) && durable == FoldLeaf(g, leaf.data).durable
      ensures old(host.script) == [] ==> host.script == [] && io == Ok && f == Readable(g, OnDisk())
    {
      f, durable := None, 0;
      io := host.Tick(); // walk the path, open and lock the leaf
      if io != Ok { return; }
      io := host.Tick(); // open and read the log
      if io != Ok { return; }
      var log := FoldWal(g, wal.data);
      if log.Corrupt? || log.state.poison.Some? || log.state.pending.Some? { return; }
      io := host.Tick(); // read the leaf
      if io != Ok { return; }
      var folded := FoldContent(g, leaf.data);
      if folded.Good? { f, durable := Some(folded.state), folded.durable; }
    }

    method Read() returns (r: Option<Folded<D>>)
      modifies host
      ensures ReadStep(g, old(OnDisk()), r, OnDisk())
      ensures old(host.script) == [] ==> host.script == [] && (Usable() ==> r == Readable(g, OnDisk()))
    {
      if !Usable() { return None; }
      var io, f, _ := Inspect();
      r := f;
    }

    /** The record part of a transaction: cut a torn tail, write at the durable offset, make it durable, and
        prove by reading back that it is there. */
    method AppendRecord(n: nat, line: bytes) returns (io: Io)
      requires line != []
      modifies host, leaf
      ensures LeafDirty(old(leaf.Img()), n, line, leaf.Img())
      ensures io == Ok ==> leaf.Img() == Synced(Put(old(leaf.data), n, line))
      ensures old(host.script) == [] ==> host.script == [] && io == Ok
    {
      io := PutLine(host, leaf, n, line);
      if io != Ok { return; }
      PutAfterCut(old(leaf.data), n, line);
      io := leaf.Sync(host); // fsync the record
      if io != Ok { return; }
      io := leaf.ReadBack(host, n, line);
      if io != Ok { return; }
      io := host.Tick(); // fsync the directory
      if io != Ok { return; }
      io := leaf.ReadBack(host, n, line); // the bytes are at the visible path
    }

    /** The mutating half of a transaction: record, then commit. A failure here poisons the ledger. */
    method Publish(f: Folded<D>, data: D, n: nat) returns (io: Io)
      requires leaf != wal && wal.Img() == Synced(wal.data)
      modifies this`poisonReason, host, leaf, wal
      ensures io == Ok ==>
                && leaf.Img() == Synced(Put(old(leaf.data), n, g.leaf.Line(NextRecord(f, data))))
                && WalSynced(g, old(wal.Img()), CommitOf(f, data), wal.Img())
                && poisonReason == old(poisonReason)
      ensures io != Ok ==>
                || AppendStored(g, old(leaf.Img()), n, old(wal.data), f, data, Stored())
                || CommitStored(g, old(leaf.Img()), n, old(wal.data), f, data, Stored())
      ensures io == Error ==> poisonReason == Some(POISONED)
      ensures old(host.script) == [] ==> host.script == [] && (FoldLog(g, old(wal.data)).Good? ==> io == Ok)
    {
      hide FoldLog, Put, PutSome, WalMay, WalDone;
      var rec := NextRecord(f, data);
      io := AppendRecord(n, g.leaf.Line(rec));
      if io != Ok {
        NoMark(g, wal.Img(), PoisonMark(POISONED));
        if io == Error { io := PoisonAfterError(); }
        return;
      }
      io := WalAppend(CommitOf(f, data));
      if io != Ok {
        ghost var wal2 := wal.Img();
        NoMark(g, wal2, PoisonMark(POISONED));
        if io == Error { io := PoisonAfterError(); }
        assert WalDirty(g, wal2, PoisonMark(POISONED), wal.Img());
      }
    }

    method PoisonAfterError() returns (io: Io)
      modifies this`poisonReason, host, wal
      ensures io != Ok && WalDirty(g, old(wal.Img()), PoisonMark(POISONED), wal.Img())
      ensures poisonReason == Some(POISONED)
      ensures old(host.script) == [] ==> host.script == []
    {
      io := Poison(POISONED);
      if io == Ok { io := Error; }
    }

    /** Fold, decide, write the intent, then publish. */
    method Txn(decide: seq<D> -> Decision<D>) returns (out: Outcome<D>)
      requires leaf != wal
      modifies this`poisonReason, host, leaf, wal
      ensures StoreTxnStep(g, (datas, data) => decide(datas) == Proposes(data), old(Stored()), out, Stored())
      ensures TxnStep(g, (datas, data) => decide(datas) == Proposes(data), old(OnDisk()), out, OnDisk())
      ensures old(!Usable()) ==> out == Refused
      ensures out.Done? ==> decide(out.before.datas) == Proposes(out.data)
      ensures out.Done? || out.Declined? || out.Refused? ==> poisonReason == old(poisonReason)
      ensures out.Threw? ==> leaf.Img() == old(leaf.Img()) || poisonReason == Some(POISONED)
      ensures out.Declined? ==> decide(out.before.datas) == Declines
      ensures old(host.script) == [] ==> host.script == []
      ensures old(host.script) == [] && old(Usable()) && Sound(g) && old(Readable(g, OnDisk())).Some? ==>
                var f := old(Readable(g, OnDisk())).value;
                match decide(f.datas)
                case Proposes(data) => old(CrashSafety.LogOverhang(g, OnDisk())) || out == Done(f, data)
                case Declines => out == Declined(f)
                case Raises => out == Refused
    {
      ghost var s := Stored();
      out := TxnOnFiles(decide);
      Durability.SeenStep(g, (datas, data) => decide(datas) == Proposes(data), s, CrashSafety.TxnCall(out), Stored());
    }

    method TxnOnFiles(decide: seq<D> -> Decision<D>) returns (out: Outcome<D>)
      requires leaf != wal
      modifies this`poisonReason, host, leaf, wal
      ensures StoreTxnStep(g, (datas, data) => decide(datas) == Proposes(data), old(Stored()), out, Stored())
      ensures old(!Usable()) ==> out == Refused
      ensures out.Done? ==> decide(out.before.datas) == Proposes(out.data)
      ensures out.Done? || out.Declined? || out.Refused? ==> poisonReason == old(poisonReason)
      ensures out.Threw? ==> leaf.Img() == old(leaf.Img()) || poisonReason == Some(POISONED)
      ensures out.Declined? ==> decide(out.before.datas) == Declines
      ensures old(host.script) == [] ==> host.script == []
      ensures old(host.script) == [] && old(Usable()) && Sound(g) && old(Readable(g, OnDisk())).Some? ==>
                var f := old(Readable(g, OnDisk())).value;
                match decide(f.datas)
                case Proposes(data) => old(CrashSafety.LogOverhang(g, OnDisk())) || out == Done(f, data)
                case Declines => out == Declined(f)
                case Raises => out == Refused
    {
      hide Fold, Put, WalMay, NextRecord, PutSome;
      if !Usable() { return Refused; }
      ghost var s := Stored();
      var io, f, n := Inspect();
      if io == Killed { return Died; }
      if f.None? { return Refused; }
      var choice := decide(f.value.datas);
      if choice.Raises? { return Refused; }
      if choice.Declines? { return Declined(f.value); }
      io := WalAppend(IntentOf(f.value, choice.data, n));
      if io != Ok {
        assert IntentStored(g, s, f.value, choice.data, Stored());
        assert InterruptedStore(g, s, f.value, choice.data, Stored());
        return if io == Killed then Died else Threw;
      }
      ghost var wal1 := wal.data;
      assert WalDone(g, s.wal.data, IntentOf(f.value, choice.data, n), wal1);
      if Sound(g) { CrashSafety.WalDoneView(g, s.wal.data, IntentOf(f.value, choice.data, n), wal1); }
      io := Publish(f.value, choice.data, n);
      if io != Ok {
        assert AppendStored(g, s.leaf, n, wal1, f.value, choice.data, Stored())
               || CommitStored(g, s.leaf, n, wal1, f.value, choice.data, Stored());
        assert InterruptedStore(g, s, f.value, choice.data, Stored());
        return if io == Killed then Died else Threw;
      }
      assert WalDone(g, wal1, CommitOf(f.value, choice.data), wal.data);
      assert Committed(g, Seen(s), f.value, choice.data, OnDisk());
      return Done(f.value, choice.data);
    }

    /** The explicit way back to service: fold, publish a receipt of what is accepted, then clear the log. */
    method Reconcile() returns (r: Option<Folded<D>>)
      requires leaf != wal
      modifies this`poisonReason, host, wal
      ensures StoreReconcileStep(g, old(Stored()), r, Stored())
      ensures ReconcileStep(g, old(OnDisk()), r, OnDisk())
      ensures r.Some? ==> poisonReason.None?
      ensures r.None? ==> poisonReason == old(poisonReason)
      ensures old(host.script) == [] ==> host.script == []
      ensures old(host.script) == [] && !closed && FoldLog(g, old(wal.data)).Good? && FoldLeaf(g, leaf.data).Good?
              ==> r.Some?
    {
      hide FoldLog, FoldLeaf, WalMay, WalDone;
      r := None;
      ghost var s := Stored();
      NothingReconciled(g, s);
      if closed { return; }
      var io := host.Tick(); // walk, open and lock the leaf
      if io != Ok { return; }
      var before := FoldWal(g, wal.data);
      if before.Corrupt? { return; }
      io := host.Tick(); // read the leaf
      if io != Ok { return; }
      var state := FoldContent(g, leaf.data);
      if state.Corrupt? { return; }
      var receipt := Receipt(state.durable, state.state.seqNo, state.state.tip);
      io := host.Tick(); // write, fsync and link the receipt
      if io != Ok { return; }
      io := WalAppend(Recovered(receipt));
      if io != Ok { return; }
      io := host.Tick(); // fsync the directory
      if io != Ok { return; }
      poisonReason := None;
      r := Some(state.state);
    }
  }

  /** A marker of which nothing got out. */
  lemma NoMark<D(!new)>(g: Generation<D>, wal: Image, m: WalLine<D>)
    requires wal.data in wal.may
    ensures WalDirty(g, wal, m, wal)
  {
  }

  lemma NothingReconciled<D(!new)>(g: Generation<D>, s: Store)
    requires Durability.Sane(s)
    ensures StoreReconcileStep(g, s, None, s)
  {
    hide FoldLeaf;
    if FoldLeaf(g, s.leaf.data).Good? { NoMark(g, s.wal, Recovered(ReceiptOf(FoldLeaf(g, s.leaf.data)))); }
  }
}
