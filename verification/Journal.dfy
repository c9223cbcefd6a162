/** The hash-chained journal: what one line must be to extend it, and what a whole file folds to. */
module Journal {
  import opened Wrappers
  import opened LineLog

  /** A collision-free hash: a digest is the chain it was computed over. */
  datatype Digest<+D> = Genesis(id: nat) | Link(prev: Digest<D>, seqNo: nat, data: D)

  datatype JournalRecord<+D> = JournalRecord(seqNo: nat, prev: Digest<D>, hash: Digest<D>, data: D)

  datatype Folded<+D> = Folded(datas: seq<D>, tip: Digest<D>, seqNo: nat)

  /** One line of the write-ahead log, as parsed. The last two are JSON that is not a well-formed marker. */
  datatype WalLine<+D> =
    | Intent(seqNo: nat, off: nat, h: Digest<D>)
    | Commit(seqNo: nat, h: Digest<D>)
    | PoisonMark(reason: string)
    | Recovered(receipt: Receipt<D>)
    | MalformedIntent
    | Unknown

  /** A recovery receipt; its hash is what the log holds, and the hash is taken to be the receipt. */
  datatype Receipt<+D> = Receipt(durable: nat, records: nat, tip: Digest<D>)

  /** What one ledger generation fixes: its chain root, the text of its two files, and which payloads pass
      the record schema (epoch, run, binding and attestation). */
  datatype Generation<!D> = Generation(
    genesis: Digest<D>,
    leaf: Codec<JournalRecord<D>>,
    wal: Codec<WalLine<D>>,
    valid: D -> bool)

  ghost predicate Sound<D(!new)>(g: Generation<D>) {
    g.genesis.Genesis? && Lawful(g.leaf) && Lawful(g.wal)
  }

  function RecordHash<D>(prev: Digest<D>, seqNo: nat, data: D): Digest<D> {
    Link(prev, seqNo, data)
  }

  function NextRecord<D>(f: Folded<D>, data: D): JournalRecord<D> {
    JournalRecord(f.seqNo, f.tip, RecordHash(f.tip, f.seqNo, data), data)
  }

  function Extend<D>(f: Folded<D>, data: D): Folded<D> {
    Folded(f.datas + [data], RecordHash(f.tip, f.seqNo, data), f.seqNo + 1)
  }

  function EmptyJournal<D>(g: Generation<D>): Folded<D> {
    Folded([], g.genesis, 0)
  }

  /** A line extends the chain when it parses, passes the schema, links to the tip and hashes to its claim. */
  function CheckLine<D(==)>(g: Generation<D>, f: Folded<D>, line: bytes): Option<Folded<D>> {
    match g.leaf.dec(line)
    case None => None
    case Some(rec) =>
      if !g.valid(rec.data) then None
      else if rec.prev != f.tip || rec.seqNo != f.seqNo then None
      else if rec.hash != RecordHash(f.tip, f.seqNo, rec.data) then None
      else Some(Folded(f.datas + [rec.data], rec.hash, f.seqNo + 1))
  }

  function LeafAccept<D(==)>(g: Generation<D>): Accept<Folded<D>> {
    (f: Folded<D>, line: bytes, ended: bool) => CheckLine(g, f, line)
  }

  function FoldLeaf<D(==)>(g: Generation<D>, raw: bytes): Scan<Folded<D>> {
    Fold(LeafAccept(g), raw, EmptyJournal(g), 0)
  }

  function SettledLeaf<D(==)>(g: Generation<D>, raw: bytes): Scan<Folded<D>> {
    Settled(LeafAccept(g), raw, EmptyJournal(g), 0)
  }

  lemma LeafStrict<D(!new)>(g: Generation<D>)
    requires Sound(g)
    ensures Strict(LeafAccept(g))
  {
  }

  /** A printed record is accepted exactly when its payload is valid, and no torn piece of it is. */
  lemma PrintedRecord<D(!new)>(g: Generation<D>, f: Folded<D>, data: D, k: nat)
    requires Sound(g) && k <= |g.leaf.enc(NextRecord(f, data))|
    ensures var body := g.leaf.enc(NextRecord(f, data));
            && NL !in body
            && (k < |body| ==> CheckLine(g, f, body[..k]).None?)
            && (k == |body| ==> CheckLine(g, f, body[..k]) == if g.valid(data) then Some(Extend(f, data)) else None)
  {
    var body := g.leaf.enc(NextRecord(f, data));
    assert body[..|body|] == body;
  }

  // ---- the loop of `foldContent` ----

  /** What the line at `at` makes of the fold of the rest. */
  lemma LeafLine<D>(g: Generation<D>, raw: bytes, at: nat, f: Folded<D>, durable: nat)
    requires at < |raw|
    ensures var rest := raw[at..];
            var k := LineLength(rest);
            && at + k <= |raw| && rest[..k] == raw[at..at + k]
            && var t := CheckLine(g, f, raw[at..at + k]);
               Fold(LeafAccept(g), rest, f, durable) ==
               if at + k == |raw| then (if t.None? then Good(f, durable) else Good(t.value, durable + k + 1))
               else if t.None? then Corrupt
               else Fold(LeafAccept(g), raw[at + k + 1..], t.value, durable + k + 1)
  {
    hide CheckLine;
    var rest := raw[at..];
    var k := LineLength(rest);
    FoldStep(LeafAccept(g), rest, f, durable);
    if k == |rest| { assert rest[..k] == rest; } else { assert rest[k + 1..] == raw[at + k + 1..]; }
  }

  method FoldContent<D(==)>(g: Generation<D>, raw: bytes) returns (r: Scan<Folded<D>>)
    ensures r == FoldLeaf(g, raw)
  {
    hide LineLength, Fold, LeafAccept, RecordHash;
    var datas: seq<D> := [];
    var tip := g.genesis;
    var seqNo, durable, at := 0, 0, 0;
    assert raw[0..] == raw;
    while at < |raw|
      invariant 0 <= at <= |raw|
      invariant FoldLeaf(g, raw) == Fold(LeafAccept(g), raw[at..], Folded(datas, tip, seqNo), durable)
    {
      LeafLine(g, raw, at, Folded(datas, tip, seqNo), durable);
      var k := LineLength(raw[at..]);
      var unterminated := at + k == |raw|;
      var rec := g.leaf.dec(raw[at..at + k]);
      if rec.None?
         || !g.valid(rec.value.data)
         || rec.value.prev != tip
         || rec.value.seqNo != seqNo
         || rec.value.hash != RecordHash(tip, seqNo, rec.value.data) {
        if unterminated { return Good(Folded(datas, tip, seqNo), durable); }
        return Corrupt;
      }
      datas := datas + [rec.value.data];
      tip := rec.value.hash;
      seqNo := seqNo + 1;
      durable := durable + k + 1;
      if unterminated { return Good(Folded(datas, tip, seqNo), durable); }
      at := at + k + 1;
    }
    assert raw[at..] == [];
    FoldEmpty(LeafAccept(g), Folded(datas, tip, seqNo), durable);
    return Good(Folded(datas, tip, seqNo), durable);
  }

  // ---- the tip determines the journal ----

  function Records<D>(tip: Digest<D>): seq<D> {
    match tip
    case Genesis(_) => []
    case Link(prev, _, data) => Records(prev) + [data]
  }

  /** What every fold state satisfies: the tip is the chain over exactly the folded records. */
  ghost predicate Chained<D>(g: Generation<D>, f: Folded<D>) {
    f.datas == Records(f.tip) && f.seqNo == |f.datas|
  }

  lemma {:induction false} FoldChained<D(!new)>(g: Generation<D>, raw: bytes, f: Folded<D>, at: nat)
    requires Chained(g, f)
    ensures var r := Fold(LeafAccept(g), raw, f, at); r.Good? ==> Chained(g, r.state)
    ensures var r := Settled(LeafAccept(g), raw, f, at); r.Good? ==> Chained(g, r.state)
    decreases |raw|
  {
    var k := LineLength(raw);
    if k < |raw| {
      var t := LeafAccept(g)(f, raw[..k], true);
      if t.Some? { FoldChained(g, raw[k + 1..], t.value, at + k + 1); }
    }
  }

  /** Two accepted journals of one generation with the same tip hold the same records, whatever their bytes. */
  lemma SameTipSameRecords<D(!new)>(g: Generation<D>, a: bytes, b: bytes)
    requires g.genesis.Genesis?
    requires FoldLeaf(g, a).Good? && FoldLeaf(g, b).Good?
    requires FoldLeaf(g, a).state.tip == FoldLeaf(g, b).state.tip
    ensures FoldLeaf(g, a).state == FoldLeaf(g, b).state
    ensures FoldLeaf(g, a).state.datas == Records(FoldLeaf(g, a).state.tip)
  {
    FoldChained(g, a, EmptyJournal(g), 0);
    FoldChained(g, b, EmptyJournal(g), 0);
  }

  // ---- writer and reader agree ----

  /** The journal a sequence of transactions prints, record after record. */
  function Print<D>(g: Generation<D>, f: Folded<D>, datas: seq<D>): bytes
    decreases |datas|
  {
    if datas == [] then []
    else g.leaf.Line(NextRecord(f, datas[0])) + Print(g, Extend(f, datas[0]), datas[1..])
  }

  function ExtendAll<D>(f: Folded<D>, datas: seq<D>): Folded<D>
    decreases |datas|
  {
    if datas == [] then f else ExtendAll(Extend(f, datas[0]), datas[1..])
  }

  lemma ExtendAllDatas<D>(f: Folded<D>, datas: seq<D>)
    ensures ExtendAll(f, datas).datas == f.datas + datas
    decreases |datas|
  {
    if datas != [] {
      ExtendAllDatas(Extend(f, datas[0]), datas[1..]);
      assert f.datas + [datas[0]] + datas[1..] == f.datas + datas;
    }
  }

  lemma {:induction false} PrintedFolds<D(!new)>(g: Generation<D>, f: Folded<D>, datas: seq<D>, at: nat)
    requires Sound(g)
    ensures var r := Fold(LeafAccept(g), Print(g, f, datas), f, at);
            if forall d :: d in datas ==> g.valid(d)
            then r == Good(ExtendAll(f, datas), at + |Print(g, f, datas)|)
            else r.Corrupt?
    decreases |datas|
  {
    if datas != [] {
      var body := g.leaf.enc(NextRecord(f, datas[0]));
      var rest := Print(g, Extend(f, datas[0]), datas[1..]);
      PrintedRecord(g, f, datas[0], |body|);
      assert body[..|body|] == body;
      FoldEndedLine(LeafAccept(g), body, rest, f, at);
      PrintedFolds(g, Extend(f, datas[0]), datas[1..], at + |body| + 1);
      assert forall d :: d in datas <==> d == datas[0] || d in datas[1..];
    }
  }

  /** Folding a printed journal returns exactly the printed records, to the last byte; and one payload the
      schema rejects makes the whole journal unreadable, which is why a writer must not append one. */
  lemma WriterAndReaderAgree<D(!new)>(g: Generation<D>, datas: seq<D>)
    requires Sound(g)
    ensures var raw := Print(g, EmptyJournal(g), datas);
            if forall d :: d in datas ==> g.valid(d)
            then FoldLeaf(g, raw).Good? && FoldLeaf(g, raw).state.datas == datas && FoldLeaf(g, raw).durable == |raw|
            else FoldLeaf(g, raw).Corrupt?
  {
    PrintedFolds(g, EmptyJournal(g), datas, 0);
    ExtendAllDatas(EmptyJournal(g), datas);
  }
}
