/** No provider runs that a later incarnation could not find: each scope is on record before its provider may exec,
    and a resumed run dispatches nothing while any recorded scope is not proven dead. */
module OrphanGate {
  import opened Wrappers
  import opened LineLog
  import opened Files

  type Scope = nat

  const CR: byte := 13

  // ---- the scope journal ----

  /** What the reader replays: every nonempty line, and what follows the last newline unless it is empty. */
  function Entries(raw: bytes): (r: seq<bytes>)
    ensures forall l :: l in r <==> l != [] && (l in Split(raw).lines || l == Split(raw).tail)
  {
    var f := Split(raw);
    NonEmpty(f.lines) + if f.tail == [] then [] else [f.tail]
  }

  function NonEmpty(lines: seq<bytes>): (r: seq<bytes>)
    ensures forall l :: l in r <==> l in lines && l != []
  {
    if lines == [] then []
    else NonEmpty(lines[..|lines| - 1]) + if lines[|lines| - 1] == [] then [] else [lines[|lines| - 1]]
  }

  predicate Printable(b: byte) { 32 < b < 127 }

  predicate OneLine(x: bytes) { x != [] && NL !in x && CR !in x }

  /** The laws of the two scope-line grammars: a printed line is one line, starts with a printable character and
      parses back; and no line parses that has anything printable before a printed one. */
  ghost predicate ScopeGrammar(c: Codec<Scope>) {
    && (forall s: Scope :: OneLine(c.enc(s)) && Printable(c.enc(s)[0]) && c.dec(c.enc(s)) == Some(s))
    && (forall x, s: Scope {:trigger c.dec(x + c.enc(s))} :: x != [] && Printable(x[0]) ==> c.dec(x + c.enc(s)).None?)
  }

  // ---- recording ----

  ghost predicate Piece(raw: bytes, line: bytes, x: bytes) { exists k :: 0 <= k <= |line| && x == raw + line[..k] }

  /** An append of one line got some of it out; if it succeeded, all of it is there after a power cut too. */
  ghost predicate Records(c: Codec<Scope>, a: Image, s: Scope, ok: bool, b: Image) {
    && Piece(a.data, c.Line(s), b.data) && b.data in b.may
    && (forall x :: x in b.may ==> x in a.may || Piece(a.data, c.Line(s), x))
    && (ok ==> b == Synced(a.data + c.Line(s)))
  }

  lemma AppendIsPut(raw: bytes, x: bytes)
    ensures Put(raw, |raw|, x) == raw + x
  {
  }

  /** Append the line of a scope and make it durable under its name, or fail. */
  method RecordLaunchedScope(c: Codec<Scope>, file: File, host: Host, s: Scope) returns (ok: bool)
    modifies file, host
    ensures Records(c, old(file.Img()), s, ok, file.Img())
    ensures old(host.script) == [] ==> host.script == [] && (ok <==> OneLine(c.enc(s)))
  {
    hide Put;
    ghost var raw, line := file.data, c.Line(s);
    forall x ensures Put(raw, |raw|, x) == raw + x { AppendIsPut(raw, x); }
    assert raw + line[..0] == raw && line[..|line|] == line;
    if !OneLine(c.enc(s)) { return false; }
    var io := host.Tick(); // open the journal and check that it is private
    if io != Ok { return false; }
    io := file.WriteAll(host, |file.data|, c.Line(s));
    if io != Ok { return false; }
    io := host.Tick(); // sync the bytes
    if io != Ok { return false; }
    io := file.Sync(host); // and the name
    ok := io == Ok;
  }

  datatype Gate = Held | Released | Closed

  /** The handshake of one launch: the child is held at its gate until its scope is on record. */
  class Launch {
    const c: Codec<Scope>
    const scope: Scope
    const journal: File
    const host: Host
    var handshakeCompleted: bool
    var launchRefused: bool
    var gate: Gate

    constructor (c: Codec<Scope>, scope: Scope, journal: File, host: Host)
      ensures this.c == c && this.scope == scope && this.journal == journal && this.host == host
      ensures !handshakeCompleted && !launchRefused && gate == Held
    {
      this.c, this.scope, this.journal, this.host := c, scope, journal, host;
      handshakeCompleted, launchRefused, gate := false, false, Held;
    }

    method RefuseLaunch()
      modifies this
      ensures launchRefused && handshakeCompleted == old(handshakeCompleted)
      ensures gate == if old(gate) == Released then Released else Closed
    {
      launchRefused := true;
      if gate != Released { gate := Closed; }
    }

    /** Called when the status stream ends, and again when it closes; only the first call does anything. It makes at
        most two steps of the run: its line is recorded, and then, if that is durable and every other precondition
        held, its provider is released. Every other outcome refuses the launch. */
    method JournalAndRelease(hasPid: bool, needsStatus: bool, enrolled: bool, startedOk: bool, ghost w: World)
        returns (ghost v: World, ghost u: World)
      requires w.phase == Running && w.disk == journal.Img()
      requires !handshakeCompleted && !launchRefused ==> gate == Held && scope !in w.minted
      modifies this, journal, host
      ensures u.disk == journal.Img()
      ensures old(handshakeCompleted || launchRefused) ==>
                && u == v == w && gate == old(gate)
                && handshakeCompleted == old(handshakeCompleted) && launchRefused == old(launchRefused)
      ensures !old(handshakeCompleted || launchRefused) ==>
                && handshakeCompleted && gate != Held && (launchRefused <==> gate == Closed)
                && (gate == Released ==>
                      && hasPid && (needsStatus ==> enrolled) && startedOk
                      && RecordsScope(c, w, scope, true, v) && Releases(v, scope, u))
                && (gate == Closed ==> u == v && (v == w || exists ok :: RecordsScope(c, w, scope, ok, v)))
                && (old(host.script) == [] ==>
                      (gate == Released <==> hasPid && (needsStatus ==> enrolled) && startedOk && OneLine(c.enc(scope))))
    {
      v, u := w, w;
      if handshakeCompleted || launchRefused { return; }
      handshakeCompleted := true;
      if !hasPid || (needsStatus && !enrolled) {
        RefuseLaunch();
        return;
      }
      var recorded := RecordLaunchedScope(c, journal, host, scope);
      v := w.(disk := journal.Img(), minted := w.minted + {scope},
              recorded := if recorded then w.recorded + {scope} else w.recorded);
      u := v;
      assert RecordsScope(c, w, scope, recorded, v);
      if !recorded || !startedOk {
        RefuseLaunch();
        return;
      }
      gate := Released;
      u := v.(alive := v.alive[scope := v.incarnation], recorded := v.recorded - {scope});
    }
  }

  // ---- recovery ----

  datatype Outcome = Reaped | Gone | Foreign | Unresolved | Unsupported

  predicate ProvenDead(o: Outcome) { o == Reaped || o == Gone }

  /** One line of the journal: a line that cannot be read names something nobody can prove dead. */
  predicate Discharged(c: Codec<Scope>, line: bytes, reap: Scope -> Outcome) {
    c.dec(line).Some? && (reap(c.dec(line).value) == Reaped || reap(c.dec(line).value) == Gone)
  }

  /** What a recovery keeps of the entries: exactly what is not proven dead. */
  ghost predicate Keeps(c: Codec<Scope>, entries: seq<bytes>, reap: Scope -> Outcome, kept: seq<bytes>) {
    forall l :: l in kept <==> l in entries && !Discharged(c, l, reap)
  }

  /** `recoverAbandonedScopes`: replay lines one by one; what is not proven dead is kept, and blocks. A verifier's
      line is not this reaper's to discharge. */
  method RecoverAbandonedScopes(c: Codec<Scope>, v2: bytes -> bool, entries: seq<bytes>, reap: Scope -> Outcome)
      returns (reaped: seq<bytes>, retained: seq<bytes>, unresolved: seq<(bytes, Outcome)>)
    ensures forall l :: l in retained <==>
              l in entries && (v2(l) || c.dec(l).None? || reap(c.dec(l).value) !in {Reaped, Gone})
    ensures |unresolved| == |retained| && forall k :: 0 <= k < |retained| ==> unresolved[k].0 == retained[k]
    ensures forall u :: u in unresolved ==>
              && u.1 == (if v2(u.0) then Unsupported else match c.dec(u.0) case None => Foreign case Some(s) => reap(s))
              && u.1 in {Foreign, Unresolved, Unsupported}
    ensures forall l :: l in reaped <==> l in entries && !v2(l) && c.dec(l).Some? && reap(c.dec(l).value) == Reaped
  {
    reaped, retained, unresolved := [], [], [];
    for i := 0 to |entries|
      invariant forall l :: l in retained <==> l in entries[..i] && (v2(l) || !Discharged(c, l, reap))
      invariant |unresolved| == |retained| && forall k :: 0 <= k < |retained| ==> unresolved[k].0 == retained[k]
      invariant forall u :: u in unresolved ==>
                  && u.1 == (if v2(u.0) then Unsupported else match c.dec(u.0) case None => Foreign case Some(s) => reap(s))
                  && !ProvenDead(u.1)
      invariant forall l :: l in reaped <==> l in entries[..i] && !v2(l) && c.dec(l).Some? && reap(c.dec(l).value) == Reaped
    {
      var line := entries[i];
      assert entries[..i + 1] == entries[..i] + [line];
      var outcome := if v2(line) then Unsupported else match c.dec(line) case None => Foreign case Some(s) => reap(s);
      if ProvenDead(outcome) {
        if outcome == Reaped { reaped := reaped + [line]; }
      } else {
        retained := retained + [line];
        unresolved := unresolved + [(line, outcome)];
      }
    }
    assert entries[..|entries|] == entries;
  }

  datatype Recovery = Clear | Blocked | Died

  /** `reapAbandonedScopes`: each verifier's line to its own reaper, the others to the one above, and the record
      rewritten to exactly what still owes a proof, if it can be. A journal that cannot be read counts as absent. */
  method ReapAbandonedScopes(c: Codec<Scope>, v2: bytes -> bool, file: File, host: Host, reap: Scope -> Outcome,
                             ghost w: World, ghost survivors: set<Scope>)
      returns (r: Recovery, ghost kept: seq<bytes>, ghost v: World)
    requires w.phase == Recovering && w.disk == file.Img() && survivors <= w.alive.Keys
    requires forall l :: l in Entries(file.data) && Discharged(c, l, reap) ==> c.dec(l).value !in survivors
    modifies file, host
    ensures v.disk == file.Img()
    ensures r == Clear ==> v.phase == Running && (Recovers(c, w, reap, survivors, kept, v) || Unread(w, v))
    ensures r == Blocked ==> v.phase == Down && Recovers(c, w, reap, survivors, kept, v)
    ensures r == Died ==> v == w
    ensures r == Blocked || Recovers(c, w, reap, survivors, kept, v) ==>
              forall l :: l in kept <==> l in Entries(old(file.data)) && (c.dec(l).None? || reap(c.dec(l).value) !in {Reaped, Gone})
    ensures old(host.script) == [] ==> Recovers(c, w, reap, survivors, kept, v) && v.disk == Synced(Join(kept))
  {
    kept, v := [], w;
    var io := host.Tick();
    if io == Killed { return Died, kept, v; }
    if io != Ok {
      v := w.(phase := Running);
      return Clear, kept, v;
    }
    var entries := Entries(file.data);
    var legacy: seq<bytes>, verifiers: seq<bytes> := [], [];
    for i := 0 to |entries|
      invariant forall l :: l in legacy <==> l in entries[..i] && !v2(l)
      invariant forall l :: l in verifiers <==> l in entries[..i] && v2(l) && !Discharged(c, l, reap)
    {
      var line := entries[i];
      assert entries[..i + 1] == entries[..i] + [line];
      if !v2(line) { legacy := legacy + [line]; }
      else if !Discharged(c, line, reap) { verifiers := verifiers + [line]; }
    }
    assert entries[..|entries|] == entries;
    var reaped, retained, unresolved := RecoverAbandonedScopes(c, v2, legacy, reap);
    kept := retained + verifiers;
    io := file.Replace(host, Join(retained + verifiers));
    v := w.(disk := file.Img(), alive := Surviving(w.alive, survivors),
            phase := if kept == [] then Running else Down);
    r := if |unresolved| + |verifiers| == 0 then Clear else Blocked;
  }

  // ---- runs over incarnations ----

  datatype Phase = Down | Recovering | Running

  /** The journal on disk, the live providers with the incarnation that released each, the current incarnation, the
      scopes it has on record, and every scope ever minted. */
  datatype World = World(
    disk: Image, alive: map<Scope, nat>, phase: Phase, incarnation: nat, recorded: set<Scope>, minted: set<Scope>)

  function Surviving(alive: map<Scope, nat>, survivors: set<Scope>): map<Scope, nat> {
    map s | s in alive && s in survivors :: alive[s]
  }

  ghost const FIRST := World(Synced([]), map[], Down, 0, {}, {})

  ghost predicate Starts(w: World, v: World) {
    w.phase == Down && v == w.(phase := Recovering, incarnation := w.incarnation + 1)
  }

  /** Killing goes on during recovery; a scope proven dead holds nothing alive any more. The record is then left as it
      was, or replaced by what is retained, durably or not. */
  ghost predicate Recovers(c: Codec<Scope>, w: World, reap: Scope -> Outcome, survivors: set<Scope>, kept: seq<bytes>, v: World) {
    && w.phase == Recovering
    && survivors <= w.alive.Keys
    && (forall l :: l in Entries(w.disk.data) && Discharged(c, l, reap) ==> c.dec(l).value !in survivors)
    && Keeps(c, Entries(w.disk.data), reap, kept)
    && (v.disk == w.disk || v.disk == Image(Join(kept), w.disk.may + iset{Join(kept)}) || v.disk == Synced(Join(kept)))
    && v == w.(
         disk := v.disk, alive := Surviving(w.alive, survivors),
         phase := if kept == [] then Running else Down)
  }

  /** The recording half of a launch, of a scope never used before. */
  ghost predicate RecordsScope(c: Codec<Scope>, w: World, s: Scope, ok: bool, v: World) {
    && w.phase == Running && s !in w.minted
    && Records(c, w.disk, s, ok, v.disk)
    && v == w.(disk := v.disk, minted := w.minted + {s}, recorded := if ok then w.recorded + {s} else w.recorded)
  }

  ghost predicate Releases(w: World, s: Scope, v: World) {
    w.phase == Running && s in w.recorded && v == w.(alive := w.alive[s := w.incarnation], recorded := w.recorded - {s})
  }

  ghost predicate Exits(w: World, s: Scope, v: World) { v == w.(alive := w.alive - {s}) }

  /** The orchestrator dies, its providers do not. A child still held at its gate sees it close and never execs. */
  ghost predicate Kill(w: World, v: World) { v == w.(phase := Down, recorded := {}) }

  /** The host dies: every process with it, and perhaps what was not synced. */
  ghost predicate PowerLoss(w: World, x: bytes, v: World) {
    x in w.disk.may && v == w.(phase := Down, recorded := {}, alive := map[], disk := Synced(x))
  }

  ghost predicate Step(c: Codec<Scope>, w: World, v: World) {
    || Starts(w, v)
    || (exists reap, survivors, kept :: Recovers(c, w, reap, survivors, kept, v))
    || (exists s, ok :: RecordsScope(c, w, s, ok, v))
    || (exists s :: Releases(w, s, v))
    || (exists s :: Exits(w, s, v))
    || Kill(w, v)
    || (exists x :: PowerLoss(w, x, v))
  }

  /** A recovery that could not read the journal, and goes on as if there were none. It is no step of a run. */
  ghost predicate Unread(w: World, v: World) { w.phase == Recovering && v == w.(phase := Running) }

  ghost predicate Run(c: Codec<Scope>, worlds: seq<World>) {
    && |worlds| > 0 && worlds[0] == FIRST
    && forall i :: 0 <= i < |worlds| - 1 ==> Step(c, worlds[i], worlds[i + 1])
  }

  // ---- the invariant ----

  /** Some line of the journal names the scope, or cannot be read at all. */
  ghost predicate Covered(c: Codec<Scope>, raw: bytes, s: Scope) {
    exists l :: l in Split(raw).lines && l != [] && (c.dec(l) == Some(s) || c.dec(l).None?)
  }

  /** It does so in everything the journal may be found to hold after a power cut. */
  ghost predicate OnRecord(c: Codec<Scope>, disk: Image, s: Scope) {
    forall x :: x in disk.may ==> Covered(c, x, s)
  }

  ghost predicate CleanStart(raw: bytes) {
    var t := Split(raw).tail; t != [] ==> Printable(t[0])
  }

  ghost predicate Inv(c: Codec<Scope>, w: World) {
    && w.disk.data in w.disk.may
    && (forall x :: x in w.disk.may ==> CleanStart(x))
    && (forall s :: s in w.alive || s in w.recorded ==> OnRecord(c, w.disk, s) && s in w.minted)
    && (w.recorded != {} ==> w.phase == Running)
    && (forall s :: s in w.alive ==>
          && w.alive[s] <= w.incarnation
          && (w.phase == Running ==> w.alive[s] == w.incarnation)
          && (w.phase == Recovering ==> w.alive[s] < w.incarnation))
  }

  /** What a piece of a line does to the journal. */
  lemma SplitPiece(c: Codec<Scope>, raw: bytes, s: Scope, k: nat)
    requires ScopeGrammar(c) && k <= |c.Line(s)|
    ensures var f := Split(raw + c.Line(s)[..k]);
            && (k <= |c.enc(s)| ==> f == Split(raw).(tail := Split(raw).tail + c.enc(s)[..k]))
            && (k == |c.Line(s)| ==> f == TextFile(Split(raw).lines + [Split(raw).tail + c.enc(s)], []))
  {
    var e := c.enc(s);
    assert OneLine(e);
    if k <= |e| {
      assert c.Line(s)[..k] == e[..k];
      SplitMore(raw, e[..k]);
    } else {
      assert c.Line(s)[..k] == e + [NL];
      SplitLine(raw, e);
    }
  }

  lemma PieceKeeps(c: Codec<Scope>, raw: bytes, s: Scope, x: bytes)
    requires ScopeGrammar(c) && CleanStart(raw) && Piece(raw, c.Line(s), x)
    ensures CleanStart(x) && Split(raw).lines <= Split(x).lines
  {
    var k :| 0 <= k <= |c.Line(s)| && x == raw + c.Line(s)[..k];
    SplitPiece(c, raw, s, k);
    var t := Split(raw).tail;
    assert Printable(c.enc(s)[0]);
    if k <= |c.enc(s)| { assert t == [] ==> t + c.enc(s)[..k] == c.enc(s)[..k]; }
  }

  lemma LinesKeepCovered(c: Codec<Scope>, raw: bytes, x: bytes, s: Scope)
    requires Covered(c, raw, s) && Split(raw).lines <= Split(x).lines
    ensures Covered(c, x, s)
  {
    var l :| l in Split(raw).lines && l != [] && (c.dec(l) == Some(s) || c.dec(l).None?);
    assert l in Split(x).lines;
  }

  lemma WholeLineCovers(c: Codec<Scope>, raw: bytes, s: Scope)
    requires ScopeGrammar(c) && CleanStart(raw)
    ensures Covered(c, raw + c.Line(s), s)
  {
    assert c.Line(s)[..|c.Line(s)|] == c.Line(s);
    SplitPiece(c, raw, s, |c.Line(s)|);
    var l := Split(raw).tail + c.enc(s);
    assert Split(raw).tail == [] ==> l == c.enc(s);
    assert OneLine(c.enc(s)) && l in Split(raw + c.Line(s)).lines;
  }

  lemma RecordKeepsInv(c: Codec<Scope>, w: World, s: Scope, ok: bool, v: World)
    requires ScopeGrammar(c) && Inv(c, w) && RecordsScope(c, w, s, ok, v)
    ensures Inv(c, v)
  {
    hide Covered, CleanStart, ScopeGrammar, Piece, Split;
    var raw := w.disk.data;
    forall x | x in v.disk.may
      ensures CleanStart(x) && forall t :: t in w.alive || t in w.recorded ==> Covered(c, x, t)
    {
      if x !in w.disk.may {
        WholePiece(raw, c.Line(s));
        PieceKeeps(c, raw, s, x);
        forall t | t in w.alive || t in w.recorded ensures Covered(c, x, t) { LinesKeepCovered(c, raw, x, t); }
      }
    }
    if ok { WholeLineCovers(c, raw, s); }
  }

  lemma WholePiece(raw: bytes, line: bytes)
    ensures Piece(raw, line, raw + line)
  {
    assert line[..|line|] == line;
  }

  /** What is retained is what the rewritten journal holds. */
  lemma KeptLines(c: Codec<Scope>, raw: bytes, reap: Scope -> Outcome, kept: seq<bytes>)
    requires Keeps(c, Entries(raw), reap, kept)
    ensures Split(Join(kept)) == TextFile(kept, [])
  {
    forall l | l in kept ensures NL !in l { assert l in Entries(raw); }
    SplitJoin(kept);
  }

  /** Recovery keeps a provider covered, or has its scope's line discharged, and then it is dead. */
  lemma RecoverKeepsInv(c: Codec<Scope>, w: World, reap: Scope -> Outcome, survivors: set<Scope>, kept: seq<bytes>, v: World)
    requires Inv(c, w) && Recovers(c, w, reap, survivors, kept, v)
    ensures Inv(c, v)
  {
    hide Split, Join, Entries;
    KeptLines(c, w.disk.data, reap, kept);
    forall s | s in v.alive ensures Covered(c, Join(kept), s) && kept != [] {
      assert Covered(c, w.disk.data, s);
      var l :| l in Split(w.disk.data).lines && l != [] && (c.dec(l) == Some(s) || c.dec(l).None?);
      assert l in Entries(w.disk.data) && !Discharged(c, l, reap) && l in kept;
    }
  }

  lemma StepKeepsInv(c: Codec<Scope>, w: World, v: World)
    requires ScopeGrammar(c) && Inv(c, w) && Step(c, w, v)
    ensures Inv(c, v)
  {
    hide Recovers, RecordsScope, ScopeGrammar, Covered, CleanStart;
    if reap, survivors, kept :| Recovers(c, w, reap, survivors, kept, v) {
      RecoverKeepsInv(c, w, reap, survivors, kept, v);
    } else if s, ok :| RecordsScope(c, w, s, ok, v) {
      RecordKeepsInv(c, w, s, ok, v);
    }
  }

  lemma {:induction false} RunKeepsInv(c: Codec<Scope>, worlds: seq<World>, i: nat)
    requires ScopeGrammar(c) && Run(c, worlds) && i < |worlds|
    ensures Inv(c, worlds[i])
  {
    hide Step, ScopeGrammar;
    if i > 0 {
      RunKeepsInv(c, worlds, i - 1);
      StepKeepsInv(c, worlds[i - 1], worlds[i]);
    }
  }

  /** Main result. Whatever dies, is torn, or cannot be rewritten: while an incarnation may dispatch, every provider
      alive is its own; and every provider alive, and every one that may be released, is named in everything the
      journal can be found to hold, after a power cut too. */
  lemma NoOrphanWhileDispatching(c: Codec<Scope>, worlds: seq<World>, i: nat)
    requires ScopeGrammar(c) && Run(c, worlds) && i < |worlds|
    ensures worlds[i].phase == Running ==> forall s :: s in worlds[i].alive ==> worlds[i].alive[s] == worlds[i].incarnation
    ensures forall s :: s in worlds[i].alive || s in worlds[i].recorded ==> OnRecord(c, worlds[i].disk, s)
    ensures worlds[i].disk.data in worlds[i].disk.may
  {
    RunKeepsInv(c, worlds, i);
  }

  // ---- a recovery that cannot read the journal ----

  /** Nothing is recorded: an absent journal, an empty one, or at most a torn line. */
  predicate NamesNothing(raw: bytes) {
    forall l :: l in Split(raw).lines ==> l == []
  }

  /** A provider of an earlier incarnation runs while this one may dispatch. */
  ghost predicate Orphaned(w: World) {
    w.phase == Running && exists s :: s in w.alive && w.alive[s] != w.incarnation
  }

  /** Going on unread from a journal that names nothing is safe in every run: nothing is alive and nothing is about to
      be, and the run may go on from there. */
  lemma UnreadNothingIsSafe(c: Codec<Scope>, worlds: seq<World>, v: World)
    requires ScopeGrammar(c) && Run(c, worlds) && Unread(worlds[|worlds| - 1], v)
    requires NamesNothing(worlds[|worlds| - 1].disk.data)
    ensures v.alive == map[] && v.recorded == {} && !Orphaned(v) && Inv(c, v)
  {
    hide ScopeGrammar;
    var w := worlds[|worlds| - 1];
    RunKeepsInv(c, worlds, |worlds| - 1);
    forall s ensures !Covered(c, w.disk.data, s) { NothingIsCovered(c, w.disk.data, s); }
  }

  lemma NothingIsCovered(c: Codec<Scope>, raw: bytes, s: Scope)
    requires NamesNothing(raw)
    ensures !Covered(c, raw, s)
  {
  }

  function Lines(c: Codec<Scope>, ss: seq<Scope>): seq<bytes> {
    if ss == [] then [] else Lines(c, ss[..|ss| - 1]) + [c.enc(ss[|ss| - 1])]
  }

  lemma {:induction false} LinesOfScopes(c: Codec<Scope>, ss: seq<Scope>)
    requires ScopeGrammar(c)
    ensures |Lines(c, ss)| == |ss| && forall l :: l in Lines(c, ss) ==> OneLine(l)
  {
    if ss != [] {
      assert OneLine(c.enc(ss[|ss| - 1]));
      LinesOfScopes(c, ss[..|ss| - 1]);
    }
  }

  lemma MoreSteps(c: Codec<Scope>, worlds: seq<World>, v: World)
    requires Run(c, worlds) && Step(c, worlds[|worlds| - 1], v)
    ensures Run(c, worlds + [v])
  {
    hide Step;
    var more := worlds + [v];
    forall i | 0 <= i < |more| - 1 ensures Step(c, more[i], more[i + 1]) {
      if i < |worlds| - 1 { assert Step(c, worlds[i], worlds[i + 1]); }
    }
  }

  /** From any run that may dispatch, one launch of a scope never used, and its line is the journal's last. */
  lemma LaunchOne(c: Codec<Scope>, worlds: seq<World>, s: Scope) returns (more: seq<World>)
    requires Run(c, worlds) && worlds[|worlds| - 1].phase == Running && s !in worlds[|worlds| - 1].minted
    ensures Run(c, more)
    ensures var w, v := worlds[|worlds| - 1], more[|more| - 1];
            && v.phase == Running && v.disk == Synced(w.disk.data + c.Line(s)) && v.minted == w.minted + {s}
            && s in v.alive && v.alive[s] == v.incarnation
  {
    hide Split, Step, Recovers;
    var w := worlds[|worlds| - 1];
    var v := w.(disk := Synced(w.disk.data + c.Line(s)), minted := w.minted + {s}, recorded := w.recorded + {s});
    WholePiece(w.disk.data, c.Line(s));
    RecordStep(c, w, s, v);
    MoreSteps(c, worlds, v);
    var u := v.(alive := v.alive[s := v.incarnation], recorded := v.recorded - {s});
    ReleaseStep(c, v, s, u);
    MoreSteps(c, worlds + [v], u);
    more := worlds + [v] + [u];
  }

  lemma RecordStep(c: Codec<Scope>, w: World, s: Scope, v: World)
    requires RecordsScope(c, w, s, true, v)
    ensures Step(c, w, v)
  {
  }

  lemma ReleaseStep(c: Codec<Scope>, w: World, s: Scope, v: World)
    requires Releases(w, s, v)
    ensures Step(c, w, v)
  {
  }

  /** A first incarnation that launched these, in this order. */
  lemma {:induction false} LaunchAll(c: Codec<Scope>, ss: seq<Scope>) returns (worlds: seq<World>)
    requires forall i, j :: 0 <= i < j < |ss| ==> ss[i] != ss[j]
    ensures Run(c, worlds)
    ensures var w := worlds[|worlds| - 1];
            && w.phase == Running && w.disk == Synced(Join(Lines(c, ss))) && w.minted == (set s | s in ss)
            && (ss != [] ==> ss[|ss| - 1] in w.alive && w.alive[ss[|ss| - 1]] == w.incarnation)
  {
    hide Split, Entries, Step;
    if ss == [] {
      var w1 := FIRST.(phase := Recovering, incarnation := 1);
      var w2 := w1.(phase := Running);
      assert Step(c, FIRST, w1) by { StartStep(c, FIRST, w1); }
      FirstRecovery(c, w1, w2);
      MoreSteps(c, [FIRST], w1);
      MoreSteps(c, [FIRST] + [w1], w2);
      worlds := [FIRST] + [w1] + [w2];
    } else {
      var front, s := ss[..|ss| - 1], ss[|ss| - 1];
      worlds := LaunchAll(c, front);
      var lines := Lines(c, ss);
      assert lines[..|lines| - 1] == Lines(c, front) && lines[|lines| - 1] == c.enc(s);
      assert (set x | x in ss) == (set x | x in front) + {s} by { assert ss == front + [s]; }
      worlds := LaunchOne(c, worlds, s);
    }
  }

  lemma StartStep(c: Codec<Scope>, w: World, v: World)
    requires Starts(w, v)
    ensures Step(c, w, v)
  {
  }

  /** Whatever scopes whole lines of a journal name, there is a run that recovers from exactly that journal with the
      provider of its last line alive; going on unread orphans it. */
  lemma UnreadOrphans(c: Codec<Scope>, ss: seq<Scope>) returns (worlds: seq<World>, v: World)
    requires ss != [] && forall i, j :: 0 <= i < j < |ss| ==> ss[i] != ss[j]
    ensures Run(c, worlds) && worlds[|worlds| - 1].disk == Synced(Join(Lines(c, ss)))
    ensures Unread(worlds[|worlds| - 1], v) && Orphaned(v) && ss[|ss| - 1] in v.alive
  {
    hide Split, Step, Join, Lines;
    worlds := LaunchAll(c, ss);
    var w := worlds[|worlds| - 1];
    var down := w.(phase := Down, recorded := {});
    var up := down.(phase := Recovering, incarnation := w.incarnation + 1);
    KillStep(c, w, down);
    MoreSteps(c, worlds, down);
    StartStep(c, down, up);
    MoreSteps(c, worlds + [down], up);
    worlds := worlds + [down] + [up];
    v := up.(phase := Running);
  }

  lemma KillStep(c: Codec<Scope>, w: World, v: World)
    requires Kill(w, v)
    ensures Step(c, w, v)
  {
  }

  /** A recovery that recovers from this journal without having read it. */
  ghost predicate UnreadFrom(c: Codec<Scope>, raw: bytes, worlds: seq<World>, v: World) {
    Run(c, worlds) && worlds[|worlds| - 1].disk.data == raw && Unread(worlds[|worlds| - 1], v)
  }

  /** Main result. For every journal of whole lines: going on without reading it never leaves an orphan, in any run, if
      and only if it names nothing. So only an absent or empty journal may be taken for an absent one. */
  lemma UnreadRecoveryExactly(c: Codec<Scope>, ss: seq<Scope>)
    requires ScopeGrammar(c) && forall i, j :: 0 <= i < j < |ss| ==> ss[i] != ss[j]
    ensures (forall worlds, v :: UnreadFrom(c, Join(Lines(c, ss)), worlds, v) ==> !Orphaned(v)) <==>
              NamesNothing(Join(Lines(c, ss)))
    ensures NamesNothing(Join(Lines(c, ss))) <==> ss == []
  {
    hide Split, Run, Orphaned, ScopeGrammar, NamesNothing;
    var raw := Join(Lines(c, ss));
    NamesNothingExactly(c, ss);
    if ss == [] {
      forall worlds, v | UnreadFrom(c, raw, worlds, v) ensures !Orphaned(v) { UnreadNothingIsSafe(c, worlds, v); }
    } else {
      var worlds, v := UnreadOrphans(c, ss);
      assert UnreadFrom(c, raw, worlds, v);
    }
  }

  lemma NamesNothingExactly(c: Codec<Scope>, ss: seq<Scope>)
    requires ScopeGrammar(c)
    ensures NamesNothing(Join(Lines(c, ss))) <==> ss == []
  {
    hide Split, Join;
    LinesOfScopes(c, ss);
    SplitJoin(Lines(c, ss));
    if ss != [] { assert Lines(c, ss)[0] in Lines(c, ss) && OneLine(Lines(c, ss)[0]); }
  }

  // ---- lines of the journal ----

  /** A line that is there after a power cut too. */
  ghost predicate OnDisk(w: World, l: bytes) {
    forall x :: x in w.disk.may ==> l in Split(x).lines
  }

  /** The step discharged the line, so its scope is proven dead, and nothing of it is alive any more. */
  ghost predicate Discharges(c: Codec<Scope>, w: World, l: bytes, v: World) {
    w.phase == Recovering && c.dec(l).Some? && c.dec(l).value !in v.alive
  }

  lemma LineStays(c: Codec<Scope>, w: World, v: World, l: bytes)
    requires ScopeGrammar(c) && Inv(c, w) && Step(c, w, v) && l != [] && OnDisk(w, l)
    ensures OnDisk(v, l) || Discharges(c, w, l, v)
  {
    hide Split, Join, CleanStart, Piece, OnRecord, ScopeGrammar;
    if reap, survivors, kept :| Recovers(c, w, reap, survivors, kept, v) {
      KeptLines(c, w.disk.data, reap, kept);
      assert l in Entries(w.disk.data);
    } else if s, ok :| RecordsScope(c, w, s, ok, v) {
      forall x | x in v.disk.may ensures l in Split(x).lines {
        if x !in w.disk.may {
          WholePiece(w.disk.data, c.Line(s));
          PieceKeeps(c, w.disk.data, s, x);
          assert l in Split(w.disk.data).lines;
        }
      }
    }
  }

  /** A durable line leaves the journal only in a recovery that proves its scope dead. */
  lemma {:induction false} LinesLeaveOnlyWhenDead(c: Codec<Scope>, worlds: seq<World>, i: nat, j: nat, l: bytes)
    requires ScopeGrammar(c) && Run(c, worlds) && i <= j < |worlds| && l != []
    requires OnDisk(worlds[i], l) && !OnDisk(worlds[j], l)
    ensures exists k :: i <= k < j && Discharges(c, worlds[k], l, worlds[k + 1])
  {
    hide OnDisk, Discharges, Step, ScopeGrammar, Inv;
    if i < j {
      RunKeepsInv(c, worlds, j - 1);
      if OnDisk(worlds[j - 1], l) {
        assert Step(c, worlds[j - 1], worlds[j]);
        LineStays(c, worlds[j - 1], worlds[j], l);
        assert Discharges(c, worlds[j - 1], l, worlds[j - 1 + 1]);
      } else {
        LinesLeaveOnlyWhenDead(c, worlds, i, j - 1, l);
      }
    }
  }

  // ---- what makes a run impossible to resume ----

  ghost predicate AllReadable(c: Codec<Scope>, raw: bytes) {
    forall l :: l in Entries(raw) ==> c.dec(l).Some?
  }

  ghost predicate Resumes(c: Codec<Scope>, w: World, v: World) {
    v.phase == Running && exists reap, survivors, kept :: Recovers(c, w, reap, survivors, kept, v)
  }

  lemma ResumingReadsAll(c: Codec<Scope>, w: World, v: World)
    requires Resumes(c, w, v)
    ensures AllReadable(c, w.disk.data)
  {
    var reap, survivors, kept :| Recovers(c, w, reap, survivors, kept, v);
    forall l | l in Entries(w.disk.data) ensures c.dec(l).Some? { assert l !in kept; }
  }

  /** A recovery can go on at all, whatever is proven dead, exactly when every entry can be read. */
  lemma ResumeExactly(c: Codec<Scope>, w: World)
    requires w.phase == Recovering
    ensures (exists v :: Resumes(c, w, v)) <==> AllReadable(c, w.disk.data)
  {
    hide Entries;
    if AllReadable(c, w.disk.data) {
      var reap: Scope -> Outcome := s => Gone;
      var v := w.(alive := Surviving(w.alive, {}), phase := Running);
      assert Recovers(c, w, reap, {}, [], v);
      assert Resumes(c, w, v);
    }
    if v :| Resumes(c, w, v) { ResumingReadsAll(c, w, v); }
  }

  /** A recovery goes on whenever the journal can be read and everything it names is proven dead. */
  lemma ReadableResumes(c: Codec<Scope>, w: World, reap: Scope -> Outcome, survivors: set<Scope>, kept: seq<bytes>, v: World)
    requires Recovers(c, w, reap, survivors, kept, v) && forall s :: ProvenDead(reap(s))
    ensures v.phase == Running <==> AllReadable(c, w.disk.data)
  {
    hide Entries;
    if v.phase == Running {
      assert Resumes(c, w, v);
      ResumingReadsAll(c, w, v);
    } else {
      assert kept[0] in kept && kept[0] in Entries(w.disk.data);
    }
  }

  /** What recording does to a readable journal: a whole line keeps it readable exactly when it starts on a fresh line,
      and a torn one exactly when its piece, joined to what was there, happens to parse. */
  lemma RecordReadableExactly(c: Codec<Scope>, raw: bytes, s: Scope, k: nat)
    requires ScopeGrammar(c) && CleanStart(raw) && AllReadable(c, raw) && 0 < k <= |c.Line(s)|
    ensures AllReadable(c, raw + c.Line(s)[..k]) <==>
              if k == |c.Line(s)| then Split(raw).tail == [] else c.dec(Split(raw).tail + c.enc(s)[..k]).Some?
  {
    hide Split;
    SplitPiece(c, raw, s, k);
    var f, g, x := Split(raw), Split(raw + c.Line(s)[..k]), raw + c.Line(s)[..k];
    assert OneLine(c.enc(s));
    var e := if k == |c.Line(s)| then f.tail + c.enc(s) else f.tail + c.enc(s)[..k];
    assert e != [] && e in Entries(x);
    assert f.tail == [] ==> f.tail + c.enc(s) == c.enc(s);
    forall l | l in Entries(x) && l != e ensures c.dec(l).Some? { assert l in Entries(raw); }
  }

  /** The caller's check: it records only on a fresh line, and nothing of its write is lost or kept by halves. */
  ghost predicate Tidy(c: Codec<Scope>, w: World, v: World) {
    forall s, ok :: RecordsScope(c, w, s, ok, v) ==>
      && Split(w.disk.data).tail == []
      && forall x :: x in v.disk.may ==> x in w.disk.may || x == w.disk.data || x == w.disk.data + c.Line(s)
  }

  lemma TidyStep(c: Codec<Scope>, w: World, v: World)
    requires ScopeGrammar(c) && Inv(c, w) && Step(c, w, v) && Tidy(c, w, v)
    requires forall x :: x in w.disk.may ==> AllReadable(c, x)
    ensures forall x :: x in v.disk.may ==> AllReadable(c, x)
  {
    hide Split, Entries, AllReadable, CleanStart, OnRecord, ScopeGrammar;
    if reap, survivors, kept :| Recovers(c, w, reap, survivors, kept, v) {
      KeptReadable(c, w.disk.data, reap, kept);
    } else if s, ok :| RecordsScope(c, w, s, ok, v) {
      var line := c.Line(s);
      assert line[..|line|] == line;
      RecordReadableExactly(c, w.disk.data, s, |line|);
    }
  }

  lemma KeptReadable(c: Codec<Scope>, raw: bytes, reap: Scope -> Outcome, kept: seq<bytes>)
    requires Keeps(c, Entries(raw), reap, kept) && AllReadable(c, raw)
    ensures AllReadable(c, Join(kept))
  {
    hide Split, Join;
    KeptLines(c, raw, reap, kept);
  }

  /** So a run whose appends are never torn can always be resumed, once every scope on record is proven dead. */
  lemma {:induction false} TidyRunsResume(c: Codec<Scope>, worlds: seq<World>, i: nat)
    requires ScopeGrammar(c) && Run(c, worlds) && i < |worlds|
    requires forall k :: 0 <= k < |worlds| - 1 ==> Tidy(c, worlds[k], worlds[k + 1])
    ensures forall x :: x in worlds[i].disk.may ==> AllReadable(c, x)
    ensures worlds[i].phase == Recovering ==> exists v :: Resumes(c, worlds[i], v)
  {
    hide Step, ScopeGrammar, Tidy, Resumes;
    RunKeepsInv(c, worlds, i);
    if worlds[i].phase == Recovering { ResumeExactly(c, worlds[i]); }
    if i > 0 {
      TidyRunsResume(c, worlds, i - 1);
      RunKeepsInv(c, worlds, i - 1);
      assert Tidy(c, worlds[i - 1], worlds[i - 1 + 1]);
      TidyStep(c, worlds[i - 1], worlds[i]);
    }
  }

  /** And one durable line that cannot be read is for ever: no recovery of the run goes on again. */
  lemma UnreadableIsForever(c: Codec<Scope>, worlds: seq<World>, i: nat, j: nat, l: bytes)
    requires ScopeGrammar(c) && Run(c, worlds) && i <= j < |worlds| && l != [] && c.dec(l).None?
    requires OnDisk(worlds[i], l)
    ensures OnDisk(worlds[j], l) && forall v :: !Resumes(c, worlds[j], v)
  {
    hide Run, Resumes, Step;
    RunKeepsInv(c, worlds, j);
    if !OnDisk(worlds[j], l) {
      LinesLeaveOnlyWhenDead(c, worlds, i, j, l);
    }
    assert l in Entries(worlds[j].disk.data) && !AllReadable(c, worlds[j].disk.data);
    forall v ensures !Resumes(c, worlds[j], v) {
      if Resumes(c, worlds[j], v) { ResumingReadsAll(c, worlds[j], v); }
    }
  }

  /** The witness: a torn append, a whole one after it, whose provider runs, and a kill. The next incarnation recovers
      for ever. */
  lemma TornLineIsReached(c: Codec<Scope>) returns (worlds: seq<World>, l: bytes)
    requires ScopeGrammar(c)
    ensures Run(c, worlds) && worlds[|worlds| - 1].phase == Recovering && worlds[|worlds| - 1].alive != map[]
    ensures l != [] && c.dec(l).None? && OnDisk(worlds[|worlds| - 1], l)
  {
    hide Split, Entries;
    var a, b := c.Line(0)[..1], c.Line(1);
    var w1 := FIRST.(phase := Recovering, incarnation := 1);
    var w2 := w1.(phase := Running);
    var w3 := w2.(disk := Image(a, iset{[], a}), minted := {0});
    var w4 := w3.(disk := Synced(a + b), minted := {0, 1}, recorded := {1});
    var w5 := w4.(alive := map[1 := 1], recorded := {});
    var w6 := w5.(phase := Down);
    var w7 := w6.(phase := Recovering, incarnation := 2);
    worlds := [FIRST, w1, w2, w3, w4, w5, w6, w7];
    l := a + c.enc(1);
    TornLine(c);
    FirstRecovery(c, w1, w2);
    assert RecordsScope(c, w2, 0, false, w3) by {
      assert [] + c.Line(0)[..0] == [] && [] + a == a;
      assert Piece([], c.Line(0), a) && Piece([], c.Line(0), []);
    }
    assert RecordsScope(c, w3, 1, true, w4) by { WholePiece(a, b); assert w3.minted + {1} == {0, 1}; }
    assert Releases(w4, 1, w5) by { assert w4.recorded - {1} == {}; }
    assert 1 in w7.alive;
    assert Kill(w5, w6) && Starts(w6, w7) && Starts(FIRST, w1);
  }

  lemma FirstRecovery(c: Codec<Scope>, w: World, v: World)
    requires w.phase == Recovering && w.disk == Synced([]) && w.alive == map[] && v == w.(phase := Running)
    ensures Step(c, w, v)
  {
    var reap: Scope -> Outcome := s => Gone;
    assert Entries([]) == [];
    assert Recovers(c, w, reap, {}, [], v);
  }

  lemma TornLine(c: Codec<Scope>)
    requires ScopeGrammar(c)
    ensures var a := c.Line(0)[..1];
            var l := a + c.enc(1);
            && c.Line(0) != [] && l != [] && c.dec(l).None? && l in Split(a + c.Line(1)).lines
  {
    hide Split;
    var a := c.Line(0)[..1];
    assert OneLine(c.enc(0)) && OneLine(c.enc(1)) && a == c.enc(0)[..1];
    SplitMore([], a);
    SplitNothing();
    assert [] + a == a;
    assert c.Line(1)[..|c.Line(1)|] == c.Line(1);
    SplitPiece(c, a, 1, |c.Line(1)|);
  }

  lemma SplitNothing()
    ensures Split([]) == TextFile([], [])
  {
  }
}
