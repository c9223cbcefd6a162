/** The write-ahead log: an intent without its commit, or a poison mark, means the journal may not be read. */
module Wal {
  import opened Wrappers
  import opened LineLog
  import opened Journal

  datatype Pending<+D> = Pending(seqNo: nat, h: Digest<D>)

  /** What the code keeps of the log. */
  datatype WalState<+D> = WalState(pending: Option<Pending<D>>, poison: Option<string>)

  /** The same, with the journal tip the log vouches for: the last commit's record, or the tip a recovery
      receipt accepted. No operation reads `trusted`; it is what a successful read is specified against. */
  datatype WalView<+D> = WalView(pending: Option<Pending<D>>, poison: Option<string>, trusted: Digest<D>) {
    function State(): WalState<D> { WalState(pending, poison) }
    predicate Clear() { pending.None? && poison.None? }
  }

  function EmptyWal<D>(g: Generation<D>): WalView<D> {
    WalView(None, None, g.genesis)
  }

  /** A parsed line moves the view. An ill-formed marker is rejected when its line is terminated; on the
      unterminated last line it is skipped, yet counted. */
  function Apply<D(==)>(v: WalView<D>, m: WalLine<D>, ended: bool): Option<WalView<D>> {
    match m
    case Intent(seqNo, _, h) => Some(v.(pending := Some(Pending(seqNo, h))))
    case Commit(seqNo, h) =>
      if v.pending == Some(Pending(seqNo, h)) then Some(v.(pending := None, trusted := h))
      else if ended then None else Some(v)
    case PoisonMark(reason) => Some(v.(poison := Some(reason)))
    case Recovered(receipt) => Some(WalView(None, None, receipt.tip))
    case MalformedIntent => if ended then None else Some(v)
    case Unknown => if ended then None else Some(v)
  }

  function CheckWalLine<D(==)>(g: Generation<D>, v: WalView<D>, line: bytes, ended: bool): Option<WalView<D>> {
    match g.wal.dec(line)
    case None => None
    case Some(m) => Apply(v, m, ended)
  }

  function WalAccept<D(==)>(g: Generation<D>): Accept<WalView<D>> {
    (v: WalView<D>, line: bytes, ended: bool) => CheckWalLine(g, v, line, ended)
  }

  function FoldLog<D(==)>(g: Generation<D>, raw: bytes): Scan<WalView<D>> {
    Fold(WalAccept(g), raw, EmptyWal(g), 0)
  }

  function SettledLog<D(==)>(g: Generation<D>, raw: bytes): Scan<WalView<D>> {
    Settled(WalAccept(g), raw, EmptyWal(g), 0)
  }

  lemma WalStrict<D(!new)>(g: Generation<D>)
    requires Sound(g)
    ensures Strict(WalAccept(g))
  {
  }

  lemma PrintedMark<D(!new)>(g: Generation<D>, v: WalView<D>, m: WalLine<D>, k: nat, ended: bool)
    requires Sound(g) && k <= |g.wal.enc(m)|
    ensures var body := g.wal.enc(m);
            && NL !in body
            && (k < |body| ==> CheckWalLine(g, v, body[..k], ended).None?)
            && (k == |body| ==> CheckWalLine(g, v, body[..k], ended) == Apply(v, m, ended))
  {
    var body := g.wal.enc(m);
    assert body[..|body|] == body;
  }

  // ---- the loop of `foldWal` ----

  method FoldWal<D(==)>(g: Generation<D>, raw: bytes) returns (r: Scan<WalState<D>>)
    ensures FoldLog(g, raw).Corrupt? <==> r.Corrupt?
    ensures r.Good? ==> r == Good(FoldLog(g, raw).state.State(), FoldLog(g, raw).durable)
  {
    var pending: Option<Pending<D>> := None;
    var poison: Option<string> := None;
    ghost var trusted := g.genesis;
    var durable, at := 0, 0;
    hide LineLength;
    while at < |raw|
      invariant 0 <= at <= |raw|
      invariant FoldLog(g, raw) == Fold(WalAccept(g), raw[at..], WalView(pending, poison, trusted), durable)
    {
      ghost var before := WalView(pending, poison, trusted);
      var rest := raw[at..];
      var k := LineLength(rest);
      var unterminated := k == |rest|;
      var line := rest[..k];
      assert unterminated ==> line == rest;
      var rec := g.wal.dec(line);
      var rejected := false;
      match rec {
        case None => rejected := true;
        case Some(Intent(seqNo, _, h)) => pending := Some(Pending(seqNo, h));
        case Some(Commit(seqNo, h)) =>
          if pending == Some(Pending(seqNo, h)) {
            pending := None;
            trusted := h;
          } else if !unterminated {
            rejected := true;
          }
        case Some(PoisonMark(reason)) => poison := Some(reason);
        case Some(Recovered(receipt)) =>
          pending := None;
          poison := None;
          trusted := receipt.tip;
        case Some(_) => rejected := !unterminated;
      }
      ghost var step := WalAccept(g)(before, line, !unterminated);
      assert rejected <==> step.None?;
      if rejected {
        if unterminated { return Good(WalState(pending, poison), durable); }
        return Corrupt;
      }
      assert step == Some(WalView(pending, poison, trusted));
      assert !unterminated ==> raw[at..][k + 1..] == raw[at + k + 1..];
      durable := durable + k + 1;
      at := if unterminated then |raw| else at + k + 1;
    }
    return Good(WalState(pending, poison), durable);
  }

  // ---- what a log of whole markers means ----

  function PrintLog<D>(g: Generation<D>, marks: seq<WalLine<D>>): bytes
    decreases |marks|
  {
    if marks == [] then [] else g.wal.Line(marks[0]) + PrintLog(g, marks[1..])
  }

  function ApplyAll<D(==)>(v: WalView<D>, marks: seq<WalLine<D>>): Option<WalView<D>>
    decreases |marks|
  {
    if marks == [] then Some(v)
    else
      match Apply(v, marks[0], true)
      case None => None
      case Some(w) => ApplyAll(w, marks[1..])
  }

  lemma {:induction false} PrintedLogFolds<D(!new)>(g: Generation<D>, v: WalView<D>, marks: seq<WalLine<D>>, at: nat)
    requires Sound(g)
    ensures Fold(WalAccept(g), PrintLog(g, marks), v, at) ==
            match ApplyAll(v, marks) case None => Corrupt case Some(w) => Good(w, at + |PrintLog(g, marks)|)
    decreases |marks|
  {
    if marks != [] {
      hide Fold, Apply;
      var body := g.wal.enc(marks[0]);
      var rest := PrintLog(g, marks[1..]);
      PrintedMark(g, v, marks[0], |body|, true);
      assert body[..|body|] == body;
      FoldEndedLine(WalAccept(g), body, rest, v, at);
      if Apply(v, marks[0], true).Some? {
        PrintedLogFolds(g, Apply(v, marks[0], true).value, marks[1..], at + |body| + 1);
      }
    } else {
      FoldEmpty(WalAccept(g), v, at);
    }
  }

  lemma {:induction false} ApplyOneMore<D>(v: WalView<D>, marks: seq<WalLine<D>>, m: WalLine<D>)
    ensures ApplyAll(v, marks + [m]) == match ApplyAll(v, marks) case None => None case Some(w) => Apply(w, m, true)
    decreases |marks|
  {
    if marks != [] {
      hide Apply;
      assert (marks + [m])[1..] == marks[1..] + [m];
      if Apply(v, marks[0], true).Some? { ApplyOneMore(Apply(v, marks[0], true).value, marks[1..], m); }
    } else {
      assert ([m])[1..] == [];
    }
  }

  /** The last marker that opens, commits or settles a transaction. */
  predicate LastWord<D>(marks: seq<WalLine<D>>, i: nat) {
    && i < |marks| && (marks[i].Intent? || marks[i].Commit? || marks[i].Recovered?)
    && forall j: nat :: i < j < |marks| ==> !marks[j].Intent? && !marks[j].Commit? && !marks[j].Recovered?
  }

  /** The intent is open: nothing committed or settled it, and no later one took its place. */
  predicate OpenIntent<D(==)>(marks: seq<WalLine<D>>, i: nat, seqNo: nat, h: Digest<D>) {
    LastWord(marks, i) && marks[i].Intent? && marks[i].seqNo == seqNo && marks[i].h == h
  }

  /** Every commit is that of the one intent open at its place, and every line is a well-formed marker. */
  ghost predicate Orderly<D(!new)>(marks: seq<WalLine<D>>) {
    && (forall m :: m in marks ==> !m.MalformedIntent? && !m.Unknown?)
    && forall c: nat :: c < |marks| && marks[c].Commit? ==> exists i :: OpenIntent(marks[..c], i, marks[c].seqNo, marks[c].h)
  }

  predicate NamesAsTip<D(==)>(m: WalLine<D>, tip: Digest<D>) {
    (m.Commit? && m.h == tip) || (m.Recovered? && m.receipt.tip == tip)
  }

  predicate NamesTip<D>(m: WalLine<D>) { m.Commit? || m.Recovered? }

  /** What the markers say: an open intent is pending, a poison mark no recovery followed poisons, and the tip is that
      of the last commit or recovery. */
  ghost predicate Says<D(!new)>(genesis: Digest<D>, marks: seq<WalLine<D>>, v: WalView<D>) {
    && (forall p :: v.pending == Some(p) <==> exists i :: OpenIntent(marks, i, p.seqNo, p.h))
    && (v.poison.Some? <==> exists i: nat :: Poisons(marks, i))
    && (forall i: nat :: i < |marks| && NamesTip(marks[i]) && (forall j: nat :: i < j < |marks| ==> !NamesTip(marks[j])) ==>
          NamesAsTip(marks[i], v.trusted))
    && ((forall i: nat :: i < |marks| ==> !NamesTip(marks[i])) ==> v.trusted == genesis)
  }

  predicate Poisons<D>(marks: seq<WalLine<D>>, i: nat) {
    i < |marks| && marks[i].PoisonMark? && forall j: nat :: i < j < |marks| ==> !marks[j].Recovered?
  }

  lemma WordsMore<D(!new)>(marks: seq<WalLine<D>>, m: WalLine<D>)
    ensures var more := marks + [m];
            && more[..|marks|] == marks && more[|marks|] == m
            && (forall i: nat, seqNo, h :: OpenIntent(more, i, seqNo, h) <==>
                  if m.Intent? then i == |marks| && m.seqNo == seqNo && m.h == h
                  else !m.Commit? && !m.Recovered? && OpenIntent(marks, i, seqNo, h))
            && (forall i: nat :: Poisons(more, i) <==>
                  (i == |marks| && m.PoisonMark?) || (!m.Recovered? && Poisons(marks, i)))
  {
    var more := marks + [m];
    assert more[..|marks|] == marks && more[|marks|] == m;
    assert forall j: nat :: j < |marks| ==> more[j] == marks[j];
  }

  lemma OrderlyMore<D(!new)>(marks: seq<WalLine<D>>, m: WalLine<D>)
    ensures Orderly(marks + [m]) <==>
            && Orderly(marks) && !m.MalformedIntent? && !m.Unknown?
            && (m.Commit? ==> exists i :: OpenIntent(marks, i, m.seqNo, m.h))
  {
    hide OpenIntent;
    var more := marks + [m];
    assert more[..|marks|] == marks && more[|marks|] == m;
    assert forall j: nat :: j < |marks| ==> more[j] == marks[j] && more[..j] == marks[..j];
    assert forall x :: x in more <==> x in marks || x == m;
  }

  lemma SaysMore<D(!new)>(g: Generation<D>, marks: seq<WalLine<D>>, v: WalView<D>, m: WalLine<D>, w: WalView<D>)
    requires Says(g.genesis, marks, v) && Apply(v, m, true) == Some(w)
    ensures Says(g.genesis, marks + [m], w)
  {
    hide OpenIntent, Poisons;
    WordsMore(marks, m);
    var more := marks + [m];
    assert forall j: nat :: j < |marks| ==> more[j] == marks[j];
    if m.PoisonMark? { assert Poisons(more, |marks|); }
    if m.Intent? { assert OpenIntent(more, |marks|, m.seqNo, m.h); }
    if v.poison.Some? { var i: nat :| Poisons(marks, i); assert !m.Recovered? ==> Poisons(more, i); }
  }

  /** Main result. A log of whole lines is read exactly when it is orderly, and what is read is what it says. */
  lemma {:induction false} MarkersExactly<D(!new)>(g: Generation<D>, marks: seq<WalLine<D>>)
    requires Sound(g)
    ensures FoldLog(g, PrintLog(g, marks)).Good? <==> Orderly(marks)
    ensures FoldLog(g, PrintLog(g, marks)).Good? ==> Says(g.genesis, marks, FoldLog(g, PrintLog(g, marks)).state)
  {
    PrintedLogFolds(g, EmptyWal(g), marks, 0);
    AppliedExactly(g, marks);
  }

  lemma {:induction false} AppliedExactly<D(!new)>(g: Generation<D>, marks: seq<WalLine<D>>)
    ensures ApplyAll(EmptyWal(g), marks).Some? <==> Orderly(marks)
    ensures ApplyAll(EmptyWal(g), marks).Some? ==> Says(g.genesis, marks, ApplyAll(EmptyWal(g), marks).value)
    decreases |marks|
  {
    if marks != [] {
      hide OpenIntent, Orderly, Poisons, NamesAsTip, NamesTip;
      var front, m := marks[..|marks| - 1], marks[|marks| - 1];
      assert marks == front + [m];
      AppliedExactly(g, front);
      ApplyOneMore(EmptyWal(g), front, m);
      OrderlyMore(front, m);
      if ApplyAll(EmptyWal(g), marks).Some? {
        SaysMore(g, front, ApplyAll(EmptyWal(g), front).value, m, ApplyAll(EmptyWal(g), marks).value);
      } else if ApplyAll(EmptyWal(g), front).Some? && m.Commit? {
        var v := ApplyAll(EmptyWal(g), front).value;
        assert v.pending != Some(Pending(m.seqNo, m.h));
      }
    }
  }
}
