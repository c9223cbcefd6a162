/** Newline-delimited append-only files, as bytes.
    The journal and the write-ahead log are both read by one loop shape: split at newlines, accept line after
    line, and forgive only an unterminated final line. Both are extended by one writer shape: cut the file at
    the durable offset, write one line there. This module is that shape and what a torn write does to it. */
module LineLog {
  import opened Wrappers

  newtype byte = x: int | 0 <= x < 256
  type bytes = seq<byte>

  const NL: byte := 10
  /** What a hole left by a write past the end of the file reads as. */
  const GAP: byte := 0

  /** The result of folding a whole file: a state and the offset the next line is written at, or corruption. */
  datatype Scan<+S> = Good(state: S, durable: nat) | Corrupt

  /** How one line moves the state; the flag says whether the line was terminated. None rejects the line. */
  type Accept<!S> = (S, bytes, bool) -> Option<S>

  /** The length of the first line of `raw`, its newline not counted. */
  function LineLength(raw: bytes): (k: nat)
    ensures k <= |raw| && NL !in raw[..k]
    ensures k < |raw| ==> raw[k] == NL
  {
    if raw == [] || raw[0] == NL then 0 else 1 + LineLength(raw[1..])
  }

  /** A terminated line that is rejected is corruption; an unterminated one ends the fold. An accepted
      unterminated line is counted with the newline it does not have. */
  function Fold<S>(acc: Accept<S>, raw: bytes, s: S, at: nat): Scan<S>
    decreases |raw|
  {
    if raw == [] then Good(s, at)
    else
      var k := LineLength(raw);
      if k == |raw| then
        match acc(s, raw, false) {
          case None => Good(s, at)
          case Some(t) => Good(t, at + k + 1)
        }
      else
        match acc(s, raw[..k], true) {
          case None => Corrupt
          case Some(t) => Fold(acc, raw[k + 1..], t, at + k + 1)
        }
  }

  /** The fold of the terminated lines alone. */
  function Settled<S>(acc: Accept<S>, raw: bytes, s: S, at: nat): (r: Scan<S>)
    ensures r.Good? ==> at <= r.durable <= at + |raw|
    decreases |raw|
  {
    var k := LineLength(raw);
    if k == |raw| then Good(s, at)
    else
      match acc(s, raw[..k], true) {
        case None => Corrupt
        case Some(t) => Settled(acc, raw[k + 1..], t, at + k + 1)
      }
  }

  lemma {:induction false} SettledTail<S>(acc: Accept<S>, raw: bytes, s: S, at: nat)
    requires Settled(acc, raw, s, at).Good?
    ensures NL !in raw[Settled(acc, raw, s, at).durable - at..]
    decreases |raw|
  {
    hide LineLength;
    var k := LineLength(raw);
    if k < |raw| {
      var t := acc(s, raw[..k], true).value;
      var m := Settled(acc, raw, s, at).durable - (at + k + 1);
      SettledTail(acc, raw[k + 1..], t, at + k + 1);
      assert raw[k + 1..][m..] == raw[k + 1 + m..];
    } else {
      assert raw[..k] == raw[0..];
    }
  }

  /** No line with a hole in it, and no empty line, is ever accepted. */
  ghost predicate Strict<S(!new)>(acc: Accept<S>) {
    forall s, line, ended :: acc(s, line, ended).Some? ==> GAP !in line && line != []
  }

  lemma LineLengthUnique(raw: bytes, k: nat)
    requires k <= |raw| && NL !in raw[..k] && (k < |raw| ==> raw[k] == NL)
    ensures LineLength(raw) == k
  {
    if k > 0 {
      assert raw[0] == raw[..k][0];
      assert raw[1..][..k - 1] == raw[..k][1..];
      LineLengthUnique(raw[1..], k - 1);
    }
  }

  /** Splitting off the first terminated line. */
  lemma CutLine(raw: bytes, k: nat, m: nat, x: bytes)
    requires k == LineLength(raw) < |raw| && k + 1 <= m <= |raw|
    ensures var whole := raw[..m] + x;
            && LineLength(whole) == k < |whole|
            && whole[..k] == raw[..k]
            && whole[k + 1..] == raw[k + 1..][..m - (k + 1)] + x
  {
    var whole := raw[..m] + x;
    assert whole[..k] == raw[..k] && whole[k] == NL;
    LineLengthUnique(whole, k);
  }

  /** The first line decides, then the rest. */
  lemma FoldStep<S>(acc: Accept<S>, raw: bytes, s: S, at: nat)
    requires raw != []
    ensures var k := LineLength(raw);
            if k == |raw| then
              Fold(acc, raw, s, at) == (match acc(s, raw, false) case None => Good(s, at) case Some(t) => Good(t, at + k + 1))
            else
              Fold(acc, raw, s, at) ==
              (match acc(s, raw[..k], true) case None => Corrupt case Some(t) => Fold(acc, raw[k + 1..], t, at + k + 1))
  {
  }

  lemma FoldEmpty<S>(acc: Accept<S>, s: S, at: nat)
    ensures Fold(acc, [], s, at) == Good(s, at)
  {
  }

  /** One terminated line, then the rest. */
  lemma FoldFirst<S>(acc: Accept<S>, raw: bytes, k: nat, s: S, at: nat)
    requires k == LineLength(raw) < |raw|
    ensures acc(s, raw[..k], true).None? ==> Fold(acc, raw, s, at).Corrupt? && Settled(acc, raw, s, at).Corrupt?
    ensures acc(s, raw[..k], true).Some? ==>
              var t := acc(s, raw[..k], true).value;
              && Fold(acc, raw, s, at) == Fold(acc, raw[k + 1..], t, at + k + 1)
              && Settled(acc, raw, s, at) == Settled(acc, raw[k + 1..], t, at + k + 1)
  {
  }

  /** Reading one line of a file that is cut later and continued otherwise. */
  lemma FirstOfCut<S>(acc: Accept<S>, raw: bytes, k: nat, s: S, u: S, at: nat, m: nat, x: bytes)
    requires k == LineLength(raw) < |raw| && k + 1 + m <= |raw| && acc(s, raw[..k], true) == Some(u)
    ensures Fold(acc, raw[..k + 1 + m] + x, s, at) == Fold(acc, raw[k + 1..][..m] + x, u, at + k + 1)
    ensures Settled(acc, raw[..k + 1 + m] + x, s, at) == Settled(acc, raw[k + 1..][..m] + x, u, at + k + 1)
  {
    hide Fold, Settled;
    CutLine(raw, k, k + 1 + m, x);
    FoldFirst(acc, raw[..k + 1 + m] + x, k, s, at);
  }

  lemma SettledNothing<S>(acc: Accept<S>, raw: bytes, s: S, at: nat)
    requires LineLength(raw) == |raw|
    ensures Settled(acc, raw, s, at) == Good(s, at)
  {
  }

  /** What follows the settled prefix is all that is left to decide. */
  lemma {:induction false} SettledPrefix<S>(acc: Accept<S>, raw: bytes, s: S, at: nat, x: bytes, t: S, n: nat)
    requires Settled(acc, raw, s, at) == Good(t, n)
    ensures Fold(acc, raw[..n - at] + x, s, at) == Fold(acc, x, t, n)
    ensures Settled(acc, raw[..n - at] + x, s, at) == Settled(acc, x, t, n)
    decreases |raw|
  {
    hide Fold, Settled, LineLength;
    var k := LineLength(raw);
    if k == |raw| {
      SettledNothing(acc, raw, s, at);
      assert raw[..0] + x == x;
    } else {
      FoldFirst(acc, raw, k, s, at);
      var u, m := acc(s, raw[..k], true).value, n - (at + k + 1);
      SettledPrefix(acc, raw[k + 1..], u, at + k + 1, x, t, n);
      FirstOfCut(acc, raw, k, s, u, at, m, x);
      assert n - at == k + 1 + m;
    }
  }

  /** A file read after its settled prefix: only the unterminated tail can still move the state. */
  lemma FoldIsSettledThenTail<S>(acc: Accept<S>, raw: bytes, s: S, at: nat)
    ensures Settled(acc, raw, s, at).Corrupt? ==> Fold(acc, raw, s, at).Corrupt?
    ensures Settled(acc, raw, s, at).Good? ==>
              var r := Settled(acc, raw, s, at);
              Fold(acc, raw, s, at) == Fold(acc, raw[r.durable - at..], r.state, r.durable)
    decreases |raw|
  {
    var r := Settled(acc, raw, s, at);
    if r.Good? {
      SettledPrefix(acc, raw, s, at, raw[r.durable - at..], r.state, r.durable);
      assert raw[..r.durable - at] + raw[r.durable - at..] == raw;
    } else {
      var k := LineLength(raw);
      var step := acc(s, raw[..k], true);
      if step.Some? { FoldIsSettledThenTail(acc, raw[k + 1..], step.value, at + k + 1); }
    }
  }

  lemma FoldOneLine<S>(acc: Accept<S>, x: bytes, s: S, at: nat)
    requires NL !in x
    ensures Settled(acc, x, s, at) == Good(s, at)
    ensures x == [] ==> Fold(acc, x, s, at) == Good(s, at)
    ensures x != [] ==> Fold(acc, x, s, at) ==
                        (match acc(s, x, false) case None => Good(s, at) case Some(t) => Good(t, at + |x| + 1))
  {
    LineLengthUnique(x, |x|);
  }

  lemma FoldEndedLine<S>(acc: Accept<S>, x: bytes, y: bytes, s: S, at: nat)
    requires NL !in x
    ensures Fold(acc, x + [NL] + y, s, at) ==
            (match acc(s, x, true) case None => Corrupt case Some(t) => Fold(acc, y, t, at + |x| + 1))
    ensures Settled(acc, x + [NL] + y, s, at) ==
            (match acc(s, x, true) case None => Corrupt case Some(t) => Settled(acc, y, t, at + |x| + 1))
  {
    var whole := x + [NL] + y;
    assert whole[..|x|] == x;
    LineLengthUnique(whole, |x|);
    assert whole[|x| + 1..] == y;
  }

  /** `pwrite(x, at)` after `ftruncate` to `at`: a longer file is cut, a shorter one gains a hole. */
  function Put(raw: bytes, at: nat, x: bytes): bytes {
    if |raw| >= at then raw[..at] + x
    else if x == [] then raw
    else raw + seq(at - |raw|, i => GAP) + x
  }

  /** Writing `line` at the durable offset of a folded file got some bytes out, perhaps none. */
  ghost predicate PutSome(raw: bytes, at: nat, line: bytes, out: bytes) {
    out == raw || exists k :: 0 <= k <= |line| && out == Put(raw, at, line[..k])
  }

  /** A file as processes see it, and every content it may be found to have after a power cut: what it held when it
      was last synced, and whatever it has held since. */
  datatype Image = Image(data: bytes, may: iset<bytes>)

  function Synced(x: bytes): Image { Image(x, iset{x}) }

  /** The file ends in an accepted line that lacks its newline: the durable offset lies past its end. */
  predicate Overhangs<S>(acc: Accept<S>, raw: bytes, s: S) {
    var r := Fold(acc, raw, s, 0);
    r.Good? && r.durable > |raw|
  }

  lemma {:induction false} DurableOffset<S(!new)>(acc: Accept<S>, raw: bytes, s: S)
    requires Strict(acc) && Fold(acc, raw, s, 0).Good?
    ensures Settled(acc, raw, s, 0).Good?
    ensures var f, r := Fold(acc, raw, s, 0), Settled(acc, raw, s, 0);
            if f.durable <= |raw| then f == r
            else
              && f.durable == |raw| + 1 && r.durable < |raw|
              && NL !in raw[r.durable..]
              && acc(r.state, raw[r.durable..], false) == Some(f.state)
  {
    hide Fold, Settled, LineLength;
    FoldIsSettledThenTail(acc, raw, s, 0);
    SettledTail(acc, raw, s, 0);
    var r := Settled(acc, raw, s, 0);
    FoldOneLine(acc, raw[r.durable..], r.state, r.durable);
  }

  lemma PutOneLine<S(!new)>(acc: Accept<S>, body: bytes, k: nat, s: S, at: nat)
    requires NL !in body && k <= |body| + 1
    ensures var x := (body + [NL])[..k];
            && (k == 0 ==> Fold(acc, x, s, at) == Good(s, at) && Settled(acc, x, s, at) == Good(s, at))
            && (0 < k <= |body| ==>
                  && Settled(acc, x, s, at) == Good(s, at)
                  && Fold(acc, x, s, at) ==
                     (match acc(s, body[..k], false) case None => Good(s, at) case Some(t) => Good(t, at + k + 1)))
            && (k == |body| + 1 ==>
                  && Settled(acc, x, s, at) == Fold(acc, x, s, at)
                  && Fold(acc, x, s, at) == (match acc(s, body, true) case None => Corrupt case Some(t) => Good(t, at + k)))
  {
    var x := (body + [NL])[..k];
    if k <= |body| {
      assert x == body[..k];
      FoldOneLine(acc, x, s, at);
    } else {
      assert x == body + [NL] + [];
      FoldEndedLine(acc, body, [], s, at);
      if acc(s, body, true).Some? { FoldOneLine(acc, [], acc(s, body, true).value, at + k); }
    }
  }

  /** Without an overhang the bytes written at the durable offset decide alone. */
  lemma {:induction false} PutClean<S(!new)>(acc: Accept<S>, raw: bytes, s: S, t: S, n: nat, body: bytes, k: nat)
    requires Strict(acc) && Fold(acc, raw, s, 0) == Good(t, n) && n <= |raw|
    requires NL !in body && k <= |body| + 1
    ensures var out := Put(raw, n, (body + [NL])[..k]);
            && (k <= |body| ==> Settled(acc, out, s, 0) == Good(t, n))
            && (k == 0 ==> Fold(acc, out, s, 0) == Good(t, n))
            && (0 < k <= |body| ==>
                  Fold(acc, out, s, 0) == (match acc(t, body[..k], false) case None => Good(t, n) case Some(u) => Good(u, n + k + 1)))
            && (k == |body| + 1 ==>
                  && Settled(acc, out, s, 0) == Fold(acc, out, s, 0)
                  && Fold(acc, out, s, 0) == (match acc(t, body, true) case None => Corrupt case Some(u) => Good(u, n + k)))
  {
    hide Fold, Settled, LineLength, Strict;
    DurableOffset(acc, raw, s);
    var x := (body + [NL])[..k];
    assert Put(raw, n, x) == raw[..n] + x;
    SettledPrefix(acc, raw, s, 0, x, t, n);
    PutOneLine(acc, body, k, t, n);
  }

  /** A tail, a hole, and part of a line: never accepted, and corrupt once terminated. */
  lemma TailWithHole<S(!new)>(acc: Accept<S>, tail: bytes, body: bytes, k: nat, s: S, at: nat)
    requires Strict(acc) && NL !in tail && NL !in body && k <= |body| + 1
    ensures var x := tail + [GAP] + (body + [NL])[..k];
            && (k <= |body| ==> Fold(acc, x, s, at) == Good(s, at) == Settled(acc, x, s, at))
            && (k == |body| + 1 ==> Fold(acc, x, s, at).Corrupt? && Settled(acc, x, s, at).Corrupt?)
  {
    hide Fold, Settled, LineLength;
    var x := tail + [GAP] + (body + [NL])[..k];
    assert x[|tail|] == GAP;
    if k <= |body| {
      assert x == tail + [GAP] + body[..k];
      FoldOneLine(acc, x, s, at);
    } else {
      var y := tail + [GAP] + body;
      assert y[|tail|] == GAP;
      assert x == y + [NL] + [];
      FoldEndedLine(acc, y, [], s, at);
    }
  }

  /** With an overhang the first byte out already joins the unterminated line to garbage: that line is lost
      while the write stays torn, and the file is corrupt for good once the write is whole. */
  lemma PutOverhang<S(!new)>(acc: Accept<S>, raw: bytes, s: S, t: S, n: nat, body: bytes, k: nat)
    requires Strict(acc) && Fold(acc, raw, s, 0) == Good(t, n) && n > |raw|
    requires NL !in body && 0 < k <= |body| + 1
    ensures var out := Put(raw, n, (body + [NL])[..k]);
            && (k <= |body| ==>
                  && Settled(acc, raw, s, 0).Good?
                  && Fold(acc, out, s, 0) == Settled(acc, raw, s, 0) == Settled(acc, out, s, 0))
            && (k == |body| + 1 ==> Fold(acc, out, s, 0).Corrupt? && Settled(acc, out, s, 0).Corrupt?)
  {
    hide Fold, Settled, LineLength;
    DurableOffset(acc, raw, s);
    var r := Settled(acc, raw, s, 0);
    var tail := raw[r.durable..];
    var x := (body + [NL])[..k];
    HoleOf(raw, n, x, r.durable);
    TailWithHole(acc, tail, body, k, r.state, r.durable);
    SettledPrefix(acc, raw, s, 0, tail + [GAP] + x, r.state, r.durable);
  }

  lemma HoleOf(raw: bytes, n: nat, x: bytes, m: nat)
    requires n == |raw| + 1 && x != [] && m <= |raw|
    ensures Put(raw, n, x) == raw[..m] + (raw[m..] + [GAP] + x)
  {
    assert seq(n - |raw|, i => GAP) == [GAP];
  }

  /** A printer and a parser for one line. */
  datatype Codec<!R> = Codec(enc: R -> bytes, dec: bytes -> Option<R>) {
    function Line(r: R): bytes { enc(r) + [NL] }
  }

  /** The laws JSON text has: what is printed parses back and holds no raw newline, no proper prefix of it
      parses, and nothing that parses holds a NUL. */
  ghost predicate Lawful<R(!new)>(c: Codec<R>) {
    && (forall r :: c.dec(c.enc(r)) == Some(r) && NL !in c.enc(r))
    && (forall r, k {:trigger c.enc(r)[..k]} :: 0 <= k < |c.enc(r)| ==> c.dec(c.enc(r)[..k]).None?)
    && (forall line :: c.dec(line).Some? ==> GAP !in line && line != [])
  }

  // ---- a file as its lines ----

  /** A file as a reader splits it: whole lines, and what follows the last newline. */
  datatype TextFile = TextFile(lines: seq<bytes>, tail: bytes)

  function Split(raw: bytes): (f: TextFile)
    ensures NL !in f.tail && forall l :: l in f.lines ==> NL !in l
  {
    if raw == [] then TextFile([], [])
    else
      var f := Split(raw[..|raw| - 1]);
      var b := raw[|raw| - 1];
      if b == NL then TextFile(f.lines + [f.tail], []) else f.(tail := f.tail + [b])
  }

  lemma SplitByte(raw: bytes, b: byte)
    ensures Split(raw + [b]) ==
            if b == NL then TextFile(Split(raw).lines + [Split(raw).tail], []) else Split(raw).(tail := Split(raw).tail + [b])
  {
    assert (raw + [b])[..|raw|] == raw;
  }

  lemma {:induction false} SplitMore(raw: bytes, x: bytes)
    requires NL !in x
    ensures Split(raw + x) == Split(raw).(tail := Split(raw).tail + x)
  {
    hide Split;
    if x == [] {
      assert raw + x == raw && Split(raw).tail + x == Split(raw).tail;
    } else {
      var y, b := x[..|x| - 1], x[|x| - 1];
      assert NL !in y;
      SplitMore(raw, y);
      SplitByte(raw + y, b);
      assert raw + x == raw + y + [b] && Split(raw).tail + x == Split(raw).tail + y + [b];
    }
  }

  lemma SplitLine(raw: bytes, x: bytes)
    requires NL !in x
    ensures Split(raw + (x + [NL])) == TextFile(Split(raw).lines + [Split(raw).tail + x], [])
  {
    hide Split;
    SplitMore(raw, x);
    SplitByte(raw + x, NL);
    assert raw + (x + [NL]) == raw + x + [NL];
  }

  function Join(lines: seq<bytes>): bytes {
    if lines == [] then [] else Join(lines[..|lines| - 1]) + (lines[|lines| - 1] + [NL])
  }

  lemma {:induction false} SplitJoin(lines: seq<bytes>)
    requires forall l :: l in lines ==> NL !in l
    ensures Split(Join(lines)) == TextFile(lines, [])
  {
    hide Split;
    if lines == [] {
      SplitNothing();
    } else {
      var rest, last := lines[..|lines| - 1], lines[|lines| - 1];
      assert forall l :: l in rest ==> l in lines;
      SplitJoin(rest);
      SplitLine(Join(rest), last);
      assert rest + [last] == lines && [] + last == last;
    }
  }

  /** Splitting from the front: the first line, then the rest. */
  lemma {:induction false} SplitFirst(line: bytes, rest: bytes)
    requires NL !in line
    ensures Split(line + [NL] + rest) == TextFile([line] + Split(rest).lines, Split(rest).tail)
    decreases |rest|
  {
    hide Split;
    SplitNothing();
    if rest == [] {
      SplitLine([], line);
      assert line + [NL] + rest == [] + (line + [NL]) && [] + line == line;
    } else {
      var front, b := rest[..|rest| - 1], rest[|rest| - 1];
      SplitFirst(line, front);
      SplitByte(line + [NL] + front, b);
      SplitByte(front, b);
      assert line + [NL] + rest == line + [NL] + front + [b] && front + [b] == rest;
      var f := Split(front);
      assert [line] + f.lines + [f.tail] == [line] + (f.lines + [f.tail]);
    }
  }

  lemma SplitTail(raw: bytes)
    requires NL !in raw
    ensures Split(raw) == TextFile([], raw)
  {
    hide Split;
    SplitNothing();
    SplitMore([], raw);
    assert [] + raw == raw;
  }

  lemma SplitNothing()
    ensures Split([]) == TextFile([], [])
  {
  }
}
