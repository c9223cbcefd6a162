/** What one locked call on a ledger may do to its two files, whatever I/O fails and wherever the process dies.
    A transaction holds the exclusive lock from before its first read until it returns or dies, so calls of any
    number of handles interleave as whole steps. */
module LedgerSteps {
  import opened Wrappers
  import opened LineLog
  import opened Journal
  import opened Wal

  datatype Disk = Disk(leaf: bytes, wal: bytes)

  /** What the decision callback of a transaction makes of the folded journal. */
  datatype Decision<+D> = Proposes(data: D) | Declines | Raises

  datatype Outcome<+D> =
    | Done(before: Folded<D>, data: D)   // the record is committed and the call returned
    | Declined(before: Folded<D>)        // returned without appending
    | Refused                            // threw before anything was written
    | Threw                              // threw after something may have been written
    | Died                               // the process was killed inside the call

  /** What an ordinary read folds; None is a refusal (recovery required, or corruption). */
  function Readable<D(==)>(g: Generation<D>, d: Disk): Option<Folded<D>> {
    match FoldLog(g, d.wal)
    case Corrupt => None
    case Good(v, _) =>
      if !v.Clear() then None
      else
        match FoldLeaf(g, d.leaf)
        case Corrupt => None
        case Good(f, _) => Some(f)
  }

  ghost predicate WalDone<D>(g: Generation<D>, wal: bytes, m: WalLine<D>, out: bytes) {
    FoldLog(g, wal).Good? && out == Put(wal, FoldLog(g, wal).durable, g.wal.Line(m))
  }

  ghost predicate WalMay<D>(g: Generation<D>, wal: bytes, m: WalLine<D>, out: bytes) {
    out == wal || (FoldLog(g, wal).Good? && PutSome(wal, FoldLog(g, wal).durable, g.wal.Line(m), out))
  }

  function IntentOf<D>(f: Folded<D>, data: D, off: nat): WalLine<D> {
    Intent(f.seqNo, off, NextRecord(f, data).hash)
  }

  function CommitOf<D>(f: Folded<D>, data: D): WalLine<D> {
    Commit(f.seqNo, NextRecord(f, data).hash)
  }

  /** The intent was being written; the journal is untouched. */
  ghost predicate InIntent<D>(g: Generation<D>, d: Disk, f: Folded<D>, data: D, e: Disk)
    requires FoldLeaf(g, d.leaf).Good?
  {
    e.leaf == d.leaf && WalMay(g, d.wal, IntentOf(f, data, FoldLeaf(g, d.leaf).durable), e.wal)
  }

  /** The mark a failing transaction leaves; the error text it carries is not modelled. */
  const POISONED := "transaction failed after a possible mutation"

  /** The intent is durable and the journal may hold any piece of the record; a poison mark may follow. */
  ghost predicate Appending<D>(g: Generation<D>, leaf: bytes, n: nat, wal1: bytes, f: Folded<D>, data: D, e: Disk) {
    && PutSome(leaf, n, g.leaf.Line(NextRecord(f, data)), e.leaf)
    && WalMay(g, wal1, PoisonMark(POISONED), e.wal)
  }

  /** The record is whole and was read back; the commit was being written; a poison mark may follow. */
  ghost predicate Committing<D>(g: Generation<D>, leaf: bytes, n: nat, wal1: bytes, f: Folded<D>, data: D, e: Disk) {
    && e.leaf == Put(leaf, n, g.leaf.Line(NextRecord(f, data)))
    && exists wal2 :: WalMay(g, wal1, CommitOf(f, data), wal2) && WalMay(g, wal2, PoisonMark(POISONED), e.wal)
  }

  ghost predicate InAppend<D>(g: Generation<D>, d: Disk, f: Folded<D>, data: D, e: Disk)
    requires FoldLeaf(g, d.leaf).Good?
  {
    var n := FoldLeaf(g, d.leaf).durable;
    exists wal1 :: WalDone(g, d.wal, IntentOf(f, data, n), wal1) && Appending(g, d.leaf, n, wal1, f, data, e)
  }

  ghost predicate InCommit<D>(g: Generation<D>, d: Disk, f: Folded<D>, data: D, e: Disk)
    requires FoldLeaf(g, d.leaf).Good?
  {
    var n := FoldLeaf(g, d.leaf).durable;
    exists wal1 :: WalDone(g, d.wal, IntentOf(f, data, n), wal1) && Committing(g, d.leaf, n, wal1, f, data, e)
  }

  ghost predicate Committed<D>(g: Generation<D>, d: Disk, f: Folded<D>, data: D, e: Disk)
    requires FoldLeaf(g, d.leaf).Good?
  {
    var n := FoldLeaf(g, d.leaf).durable;
    exists wal1 ::
      && WalDone(g, d.wal, IntentOf(f, data, n), wal1)
      && e.leaf == Put(d.leaf, n, g.leaf.Line(NextRecord(f, data)))
      && WalDone(g, wal1, CommitOf(f, data), e.wal)
  }

  /** A transaction that proposed `data` on the folded journal `f` and did not return. */
  ghost predicate Interrupted<D>(g: Generation<D>, d: Disk, f: Folded<D>, data: D, e: Disk) {
    && Readable(g, d) == Some(f)
    && (InIntent(g, d, f, data, e) || InAppend(g, d, f, data, e) || InCommit(g, d, f, data, e))
  }

  /** Which record a caller's decision may propose on a folded journal. */
  type Proposal<!D> = (seq<D>, D) -> bool

  ghost predicate TxnStep<D(!new)>(g: Generation<D>, may: Proposal<D>, d: Disk, out: Outcome<D>, e: Disk) {
    match out
    case Done(f, data) => Readable(g, d) == Some(f) && Committed(g, d, f, data, e) && may(f.datas, data)
    case Declined(f) => Readable(g, d) == Some(f) && e == d
    case Refused => e == d
    case _ => e == d || exists f, data :: Interrupted(g, d, f, data, e) && may(f.datas, data)
  }

  lemma TxnStepWeaken<D(!new)>(
      g: Generation<D>, may: Proposal<D>, more: Proposal<D>, d: Disk, out: Outcome<D>, e: Disk)
    requires TxnStep(g, may, d, out, e) && forall datas, data :: may(datas, data) ==> more(datas, data)
    ensures TxnStep(g, more, d, out, e)
  {
  }

  ghost predicate ReadStep<D>(g: Generation<D>, d: Disk, out: Option<Folded<D>>, e: Disk) {
    e == d && (out.Some? ==> Readable(g, d) == out)
  }

  function ReceiptOf<D>(r: Scan<Folded<D>>): Receipt<D>
    requires r.Good?
  {
    Receipt(r.durable, r.state.seqNo, r.state.tip)
  }

  /** Reconciliation accepts what the journal folds to, and only writes the log. */
  ghost predicate ReconcileStep<D>(g: Generation<D>, d: Disk, out: Option<Folded<D>>, e: Disk) {
    && e.leaf == d.leaf
    && (FoldLeaf(g, d.leaf).Good? ==>
          && WalMay(g, d.wal, Recovered(ReceiptOf(FoldLeaf(g, d.leaf))), e.wal)
          && (out.Some? ==>
                && out.value == FoldLeaf(g, d.leaf).state
                && WalDone(g, d.wal, Recovered(ReceiptOf(FoldLeaf(g, d.leaf))), e.wal)))
    && (FoldLeaf(g, d.leaf).Corrupt? ==> e == d && out.None?)
  }

  // ---- what a power cut may leave ----

  datatype Store = Store(leaf: Image, wal: Image)

  function Seen(s: Store): Disk { Disk(s.leaf.data, s.wal.data) }

  ghost predicate WalDirty<D(!new)>(g: Generation<D>, wal: Image, m: WalLine<D>, out: Image) {
    && WalMay(g, wal.data, m, out.data)
    && out.data in out.may && forall x :: x in out.may ==> x in wal.may || WalMay(g, wal.data, m, x)
  }

  ghost predicate WalSynced<D(!new)>(g: Generation<D>, wal: Image, m: WalLine<D>, out: Image) {
    WalDone(g, wal.data, m, out.data) && out == Synced(out.data)
  }

  ghost predicate LeafDirty(leaf: Image, n: nat, line: bytes, out: Image) {
    && PutSome(leaf.data, n, line, out.data)
    && out.data in out.may && forall x :: x in out.may ==> x in leaf.may || PutSome(leaf.data, n, line, x)
  }

  ghost predicate IntentStored<D(!new)>(g: Generation<D>, s: Store, f: Folded<D>, data: D, t: Store)
    requires FoldLeaf(g, s.leaf.data).Good?
  {
    t.leaf == s.leaf && WalDirty(g, s.wal, IntentOf(f, data, FoldLeaf(g, s.leaf.data).durable), t.wal)
  }

  ghost predicate AppendStored<D(!new)>(g: Generation<D>, leaf: Image, n: nat, wal1: bytes, f: Folded<D>, data: D, t: Store) {
    LeafDirty(leaf, n, g.leaf.Line(NextRecord(f, data)), t.leaf) && WalDirty(g, Synced(wal1), PoisonMark(POISONED), t.wal)
  }

  ghost predicate CommitStored<D(!new)>(g: Generation<D>, leaf: Image, n: nat, wal1: bytes, f: Folded<D>, data: D, t: Store) {
    && t.leaf == Synced(Put(leaf.data, n, g.leaf.Line(NextRecord(f, data))))
    && exists wal2 :: WalDirty(g, Synced(wal1), CommitOf(f, data), wal2) && WalDirty(g, wal2, PoisonMark(POISONED), t.wal)
  }

  /** A transaction that proposed `data` and did not return. Its intent is synced before the journal is touched, and
      the journal before the commit is written. */
  ghost predicate InterruptedStore<D(!new)>(g: Generation<D>, s: Store, f: Folded<D>, data: D, t: Store) {
    && Readable(g, Seen(s)) == Some(f)
    && var n := FoldLeaf(g, s.leaf.data).durable;
       || IntentStored(g, s, f, data, t)
       || exists wal1 ::
            && WalDone(g, s.wal.data, IntentOf(f, data, n), wal1)
            && (AppendStored(g, s.leaf, n, wal1, f, data, t) || CommitStored(g, s.leaf, n, wal1, f, data, t))
  }

  ghost predicate CommittedStore<D(!new)>(g: Generation<D>, s: Store, f: Folded<D>, data: D, t: Store)
    requires FoldLeaf(g, s.leaf.data).Good?
  {
    Committed(g, Seen(s), f, data, Seen(t)) && t == Store(Synced(t.leaf.data), Synced(t.wal.data))
  }

  ghost predicate StoreTxnStep<D(!new)>(g: Generation<D>, may: Proposal<D>, s: Store, out: Outcome<D>, t: Store) {
    match out
    case Done(f, data) => Readable(g, Seen(s)) == Some(f) && CommittedStore(g, s, f, data, t) && may(f.datas, data)
    case Declined(f) => Readable(g, Seen(s)) == Some(f) && t == s
    case Refused => t == s
    case _ => t == s || exists f, data :: InterruptedStore(g, s, f, data, t) && may(f.datas, data)
  }

  ghost predicate StoreReconcileStep<D(!new)>(g: Generation<D>, s: Store, out: Option<Folded<D>>, t: Store) {
    && t.leaf == s.leaf
    && (FoldLeaf(g, s.leaf.data).Good? ==>
          var m := Recovered(ReceiptOf(FoldLeaf(g, s.leaf.data)));
          && WalDirty(g, s.wal, m, t.wal)
          && (out.Some? ==> out.value == FoldLeaf(g, s.leaf.data).state && WalSynced(g, s.wal, m, t.wal)))
    && (FoldLeaf(g, s.leaf.data).Corrupt? ==> t == s && out.None?)
  }
}
