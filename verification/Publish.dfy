/** Opening a ledger directory: any number of openers race to publish the generation's key and manifest by
    hard link, and any of them may die between any two calls. */
module Publish {
  import opened Wrappers
  import opened Attest

  datatype Manifest = Manifest(epoch: string, genesis: nat, runNonce: string)

  /** A write-once artifact: the inode published under its name, and the private temporary names left beside it.
      A temporary name is represented by the inode it names; a whole artifact is behind each. */
  datatype Slot<+T> = Slot(published: Option<Inode<T>>, temps: set<nat>)
  datatype Inode<+T> = Inode(ino: nat, value: T)

  /** The directory: both artifacts, the size of the journal leaf if there is one, and the next unused inode. */
  datatype Shared = Shared(key: Slot<Key>, manifest: Slot<Manifest>, leaf: Option<nat>, next: nat)

  /** Where one opener is; the source lines of each state are the call it makes next. */
  datatype Opener =
    | Begin                                              // read the manifest
    | FindKey                                            // no manifest: read the key
    | PublishKey(key: Inode<Key>)                        // no key: a temporary holds a fresh one; link it
    | DropKeyTemp(ino: nat)                              // linked, or lost the race: unlink the temporary
    | AdoptKey                                           // read back what is published
    | MakeLeaf(k: Key)                                   // open or create the leaf, which must be empty
    | WriteManifest(k: Key)                              // write a manifest to a temporary
    | PublishManifest(k: Key, manifest: Inode<Manifest>) // link it
    | DropManifestTemp(k: Key, ino: nat, won: Option<Manifest>)
    | AdoptManifest(k: Key)                              // lost the race: read the winner's
    | RequireKey(m: Manifest)                            // a manifest was there first: its key must be too
    | Opened(m: Manifest, k: Key)
    | Failed

  /** The openers by process; each opens for a run of its own. */
  datatype System = System(dir: Shared, openers: map<nat, Opener>, runs: map<nat, string>)

  /** Opening a published name drops the publisher's own leftover second name for that inode, and only that. */
  function Swept<T>(s: Slot<T>): Slot<T> {
    match s.published
    case None => s
    case Some(i) => s.(temps := s.temps - {i.ino})
  }

  function Linked<T>(s: Slot<T>, i: Inode<T>): Slot<T> {
    if s.published.None? then s.(published := Some(i)) else s
  }

  function ReadManifest(d: Shared, run: string): Opener {
    match d.manifest.published
    case None => FindKey
    case Some(i) => if i.value.runNonce == run then RequireKey(i.value) else Failed
  }

  /** One call of one opener. `key` and `manifest` are what it would mint. */
  function Call(d: Shared, o: Opener, run: string, key: Key, manifest: Manifest): (Shared, Opener) {
    match o
    case Begin => (d.(manifest := Swept(d.manifest)), ReadManifest(d, run))
    case FindKey =>
      if d.key.published.Some? then (d.(key := Swept(d.key)), MakeLeaf(d.key.published.value.value))
      else (d.(key := d.key.(temps := d.key.temps + {d.next}), next := d.next + 1), PublishKey(Inode(d.next, key)))
    case PublishKey(i) =>
      if i.ino !in d.key.temps then (d, Failed) else (d.(key := Linked(d.key, i)), DropKeyTemp(i.ino))
    case DropKeyTemp(ino) => (d.(key := d.key.(temps := d.key.temps - {ino})), AdoptKey)
    case AdoptKey =>
      if d.key.published.None? then (d, Failed)
      else (d.(key := Swept(d.key)), MakeLeaf(d.key.published.value.value))
    case MakeLeaf(k) =>
      (match d.leaf
       case None => (d.(leaf := Some(0)), WriteManifest(k))
       case Some(size) => (d, if size > 0 then Failed else WriteManifest(k)))
    case WriteManifest(k) =>
      (d.(manifest := d.manifest.(temps := d.manifest.temps + {d.next}), next := d.next + 1),
       PublishManifest(k, Inode(d.next, manifest.(runNonce := run))))
    case PublishManifest(k, i) =>
      if i.ino !in d.manifest.temps then (d, Failed)
      else (d.(manifest := Linked(d.manifest, i)),
            DropManifestTemp(k, i.ino, if d.manifest.published.None? then Some(i.value) else None))
    case DropManifestTemp(k, ino, won) =>
      (d.(manifest := d.manifest.(temps := d.manifest.temps - {ino})),
       match won case Some(m) => Opened(m, k) case None => AdoptManifest(k))
    case AdoptManifest(k) =>
      (match d.manifest.published
       case None => (d, Failed)
       case Some(i) =>
         (d.(manifest := Swept(d.manifest)), if i.value.runNonce == run then Opened(i.value, k) else Failed))
    case RequireKey(m) =>
      (match d.key.published
       case None => (d, Failed)
       case Some(i) => (d.(key := Swept(d.key)), Opened(m, i.value)))
    case Opened(_, _) => (d.(leaf := match d.leaf case None => None case Some(size) => Some(size + 1)), o)
    case Failed => (d, o)
  }

  ghost predicate Starts(s: System, p: nat, run: string, t: System) {
    p !in s.openers && p !in s.runs && t == System(s.dir, s.openers[p := Begin], s.runs[p := run])
  }

  ghost predicate Advances(s: System, p: nat, c: (Shared, Opener), t: System)
    requires p in s.openers
  {
    || t == s.(dir := c.0, openers := s.openers[p := c.1])
    || t == s.(dir := c.0, openers := s.openers[p := Failed])
    || t == s.(openers := s.openers[p := Failed])
  }

  ghost predicate Calls(s: System, p: nat, key: Key, manifest: Manifest, t: System) {
    && p in s.openers && p in s.runs
    && Advances(s, p, Call(s.dir, s.openers[p], s.runs[p], key, manifest), t)
  }

  ghost predicate Dies(s: System, p: nat, t: System) {
    t == s.(openers := s.openers - {p})
  }

  /** A process starts to open, makes its next call, fails in that call with its effect or without, or dies. */
  ghost predicate Step(s: System, t: System) {
    || (exists p, run :: Starts(s, p, run, t))
    || (exists p, key, manifest :: Calls(s, p, key, manifest, t))
    || (exists p :: Dies(s, p, t))
  }

  ghost predicate Run(states: seq<System>) {
    && |states| > 0
    && forall i :: 0 <= i < |states| - 1 ==> Step(states[i], states[i + 1])
  }

  /** A directory nobody is opening: nothing yet, or what dead openers and finished ones left. */
  ghost predicate Initial(s: System) {
    && s.openers == map[] && s.runs == map[]
    && (s.dir.manifest.published.Some? ==> s.dir.key.published.Some?)
    && Numbered(s.dir.key, s.dir.next) && Numbered(s.dir.manifest, s.dir.next)
  }

  ghost predicate Numbered<T>(s: Slot<T>, next: nat) {
    && (forall i :: i in s.temps ==> i < next)
    && (s.published.Some? ==> s.published.value.ino < next)
  }

  // ---- the invariant ----

  function KeyOf(d: Shared): Option<Key> {
    match d.key.published case None => None case Some(i) => Some(i.value)
  }

  function ManifestOf(d: Shared): Option<Manifest> {
    match d.manifest.published case None => None case Some(i) => Some(i.value)
  }

  /** A temporary still to be linked is in the directory, is no one else's, and is not what is published. */
  ghost predicate Pending<T>(s: Slot<T>, i: Inode<T>, next: nat) {
    i.ino in s.temps && i.ino < next && (s.published.Some? ==> s.published.value.ino != i.ino)
  }

  ghost predicate Knows(d: Shared, o: Opener, run: string) {
    match o
    case PublishKey(i) => Pending(d.key, i, d.next)
    case DropKeyTemp(ino) => KeyOf(d).Some? && ino < d.next
    case AdoptKey => KeyOf(d).Some?
    case MakeLeaf(k) => KeyOf(d) == Some(k)
    case WriteManifest(k) => KeyOf(d) == Some(k)
    case PublishManifest(k, i) => KeyOf(d) == Some(k) && Pending(d.manifest, i, d.next) && i.value.runNonce == run
    case DropManifestTemp(k, ino, won) =>
      && KeyOf(d) == Some(k) && ManifestOf(d).Some? && ino < d.next
      && (won.Some? ==> won == ManifestOf(d) && won.value.runNonce == run)
    case AdoptManifest(k) => KeyOf(d) == Some(k) && ManifestOf(d).Some?
    case RequireKey(m) => ManifestOf(d) == Some(m) && m.runNonce == run
    case Opened(m, k) => KeyOf(d) == Some(k) && ManifestOf(d) == Some(m) && m.runNonce == run
    case _ => true
  }

  /** The temporary an opener has made and not yet dropped. */
  function OwnTemp(o: Opener): Option<nat> {
    match o
    case PublishKey(i) => Some(i.ino)
    case DropKeyTemp(ino) => Some(ino)
    case PublishManifest(_, i) => Some(i.ino)
    case DropManifestTemp(_, ino, _) => Some(ino)
    case _ => None
  }

  /** Two openers never hold one temporary. */
  ghost predicate Apart(o: Opener, q: Opener) {
    OwnTemp(o).Some? ==> OwnTemp(o) != OwnTemp(q)
  }

  ghost predicate DirOk(d: Shared) {
    && (ManifestOf(d).Some? ==> KeyOf(d).Some?)
    && Numbered(d.key, d.next) && Numbered(d.manifest, d.next)
  }

  ghost predicate Inv(s: System) {
    && DirOk(s.dir)
    && s.openers.Keys <= s.runs.Keys
    && (forall p :: p in s.openers ==> Knows(s.dir, s.openers[p], s.runs[p]))
    && (forall p, q :: p in s.openers && q in s.openers && p != q ==> Apart(s.openers[p], s.openers[q]))
  }

  /** What is published stays published, and numbers only grow. */
  ghost predicate Grows(d: Shared, e: Shared) {
    && (KeyOf(d).Some? ==> KeyOf(e) == KeyOf(d))
    && (ManifestOf(d).Some? ==> ManifestOf(e) == ManifestOf(d))
    && d.next <= e.next
  }

  lemma CallOk(d: Shared, o: Opener, run: string, key: Key, manifest: Manifest)
    requires DirOk(d) && Knows(d, o, run)
    ensures var (e, o') := Call(d, o, run, key, manifest);
            && DirOk(e) && Grows(d, e) && Knows(e, o', run)
            && (OwnTemp(o').Some? ==> OwnTemp(o') == OwnTemp(o) || OwnTemp(o') == Some(d.next))
  {
  }

  lemma CallKeepsOthers(d: Shared, o: Opener, run: string, key: Key, manifest: Manifest, q: Opener, run': string)
    requires DirOk(d) && Knows(d, o, run) && Knows(d, q, run') && Apart(o, q) && Apart(q, o)
    ensures var (e, o') := Call(d, o, run, key, manifest);
            Knows(e, q, run') && Apart(o', q) && Apart(q, o')
  {
  }

  lemma FailedKnows(d: Shared, run: string, q: Opener)
    ensures Knows(d, Failed, run) && Grows(d, d) && Apart(Failed, q) && Apart(q, Failed)
  {
  }

  lemma CallKeepsInv(s: System, p: nat, key: Key, manifest: Manifest, t: System)
    requires Inv(s) && Calls(s, p, key, manifest, t)
    ensures Inv(t) && Grows(s.dir, t.dir)
  {
    hide Call, Knows, Grows, DirOk, Apart;
    var o, run := s.openers[p], s.runs[p];
    CallOk(s.dir, o, run, key, manifest);
    FailedKnows(t.dir, run, Failed);
    FailedKnows(s.dir, run, Failed);
    forall q | q in s.openers && q != p
      ensures Knows(t.dir, s.openers[q], s.runs[q]) && Apart(t.openers[p], s.openers[q]) && Apart(s.openers[q], t.openers[p])
    {
      CallKeepsOthers(s.dir, o, run, key, manifest, s.openers[q], s.runs[q]);
      FailedKnows(t.dir, run, s.openers[q]);
    }
  }

  lemma StartKeepsInv(s: System, p: nat, run: string, t: System)
    requires Inv(s) && Starts(s, p, run, t)
    ensures Inv(t) && Grows(s.dir, t.dir)
  {
    hide DirOk;
    forall q | q in t.openers ensures Knows(t.dir, t.openers[q], t.runs[q]) {
      assert q != p ==> Knows(s.dir, s.openers[q], s.runs[q]);
    }
  }

  lemma DeathKeepsInv(s: System, p: nat, t: System)
    requires Inv(s) && Dies(s, p, t)
    ensures Inv(t) && Grows(s.dir, t.dir)
  {
    hide DirOk, Knows, Apart;
    forall q | q in t.openers ensures Knows(t.dir, t.openers[q], t.runs[q]) {
      assert Knows(s.dir, s.openers[q], s.runs[q]);
    }
  }

  lemma StepKeepsInv(s: System, t: System)
    requires Inv(s) && Step(s, t)
    ensures Inv(t) && Grows(s.dir, t.dir)
  {
    hide Inv, Starts, Calls, Dies, Grows;
    if p, key, manifest :| Calls(s, p, key, manifest, t) {
      CallKeepsInv(s, p, key, manifest, t);
    } else if p, run :| Starts(s, p, run, t) {
      StartKeepsInv(s, p, run, t);
    } else {
      var p :| Dies(s, p, t);
      DeathKeepsInv(s, p, t);
    }
  }

  lemma {:induction false} RunKeepsInv(states: seq<System>, i: nat, j: nat)
    requires Run(states) && Initial(states[0]) && i <= j < |states|
    ensures Inv(states[i]) && Inv(states[j]) && Grows(states[i].dir, states[j].dir)
    decreases j
  {
    if i < j {
      RunKeepsInv(states, i, j - 1);
      StepKeepsInv(states[j - 1], states[j]);
    } else if j > 0 {
      RunKeepsInv(states, j - 1, j - 1);
      StepKeepsInv(states[j - 1], states[j]);
    }
  }

  /** Main result. Whatever the interleaving and the deaths, a visible manifest has a visible key beside it at
      every step, and once a key or a manifest is visible no other one ever is. */
  lemma ManifestImpliesKey(states: seq<System>, i: nat, j: nat)
    requires Run(states) && Initial(states[0]) && i <= j < |states|
    ensures ManifestOf(states[i].dir).Some? ==> KeyOf(states[i].dir).Some?
    ensures KeyOf(states[i].dir).Some? ==> KeyOf(states[j].dir) == KeyOf(states[i].dir)
    ensures ManifestOf(states[i].dir).Some? ==> ManifestOf(states[j].dir) == ManifestOf(states[i].dir)
  {
    RunKeepsInv(states, i, j);
  }

  /** Main result. All opens that succeed, at whatever times and in whatever processes, hold the same manifest
      and the same key, and were for the run that manifest names. */
  lemma AllOpensAgree(states: seq<System>, i: nat, j: nat, p: nat, q: nat)
    requires Run(states) && Initial(states[0]) && i <= j < |states|
    requires p in states[i].openers && states[i].openers[p].Opened?
    requires q in states[j].openers && states[j].openers[q].Opened?
    ensures p in states[i].runs && q in states[j].runs && states[i].runs[p] == states[j].runs[q]
    ensures states[i].openers[p] == states[j].openers[q]
  {
    RunKeepsInv(states, i, j);
    assert Knows(states[i].dir, states[i].openers[p], states[i].runs[p]);
    assert Knows(states[j].dir, states[j].openers[q], states[j].runs[q]);
  }

  /** No opener's sweep of leftovers ever removes a temporary that is still to be linked. */
  lemma SweepSparesTheRace(states: seq<System>, i: nat, p: nat)
    requires Run(states) && Initial(states[0]) && i < |states| && p in states[i].openers
    ensures var o := states[i].openers[p];
            && (o.PublishKey? ==> o.key.ino in states[i].dir.key.temps)
            && (o.PublishManifest? ==> o.manifest.ino in states[i].dir.manifest.temps)
  {
    RunKeepsInv(states, i, i);
    assert Knows(states[i].dir, states[i].openers[p], states[i].runs[p]);
  }

  /** A generation whose key is gone: nothing opens it, and no key is ever minted for it. */
  ghost predicate Keyless(s: System) {
    && ManifestOf(s.dir).Some? && KeyOf(s.dir).None?
    && forall p :: p in s.openers ==> s.openers[p].Begin? || s.openers[p].RequireKey? || s.openers[p].Failed?
  }

  lemma {:induction false} LostKeyIsNeverReplaced(states: seq<System>, i: nat)
    requires Run(states) && Keyless(states[0]) && i < |states|
    ensures Keyless(states[i])
  {
    if i > 0 {
      LostKeyIsNeverReplaced(states, i - 1);
      var s, t := states[i - 1], states[i];
      assert Step(s, t);
      if p, run :| Starts(s, p, run, t) {
      } else if p, key, manifest :| Calls(s, p, key, manifest, t) {
        assert s.openers[p].Begin? || s.openers[p].RequireKey? || s.openers[p].Failed?;
      }
    }
  }

  /** Bytes in a leaf that no manifest owns are neither adopted nor reset. */
  ghost predicate Unowned(s: System, size: nat) {
    && s.dir.leaf == Some(size) && size > 0 && ManifestOf(s.dir).None?
    && forall p :: p in s.openers ==> BeforeLeaf(s.openers[p])
  }

  predicate BeforeLeaf(o: Opener) {
    o.Begin? || o.FindKey? || o.PublishKey? || o.DropKeyTemp? || o.AdoptKey? || o.MakeLeaf? || o.Failed?
  }

  lemma {:induction false} UnownedLeafIsRefused(states: seq<System>, size: nat, i: nat)
    requires Run(states) && Unowned(states[0], size) && i < |states|
    ensures Unowned(states[i], size)
  {
    if i > 0 {
      UnownedLeafIsRefused(states, size, i - 1);
      var s, t := states[i - 1], states[i];
      assert Step(s, t);
      if p, run :| Starts(s, p, run, t) {
      } else if p, key, manifest :| Calls(s, p, key, manifest, t) {
        assert BeforeLeaf(s.openers[p]);
      }
    }
  }

  // ---- an opener left alone ----

  /** How many calls an opener has left at most. */
  function Left(o: Opener): nat {
    match o
    case Begin => 10
    case FindKey => 9
    case PublishKey(_) => 8
    case DropKeyTemp(_) => 7
    case AdoptKey => 6
    case MakeLeaf(_) => 5
    case WriteManifest(_) => 4
    case PublishManifest(_, _) => 3
    case DropManifestTemp(_, _, _) => 2
    case AdoptManifest(_) => 1
    case RequireKey(_) => 1
    case Opened(_, _) => 0
    case Failed => 0
  }

  /** The opener makes its calls, and nobody else does. */
  function Alone(d: Shared, o: Opener, run: string, key: Key, manifest: Manifest): (Shared, Opener)
    decreases Left(o)
  {
    if Left(o) == 0 then (d, o)
    else var (e, q) := Call(d, o, run, key, manifest); Alone(e, q, run, key, manifest)
  }

  predicate ForRun(d: Shared, run: string) { ManifestOf(d).Some? ==> ManifestOf(d).value.runNonce == run }

  /** What decides an open, from wherever the opener is: a published manifest must be of its run and have its key, and a
      generation it is still to make must find no bytes in the leaf. */
  predicate WillOpen(d: Shared, o: Opener, run: string) {
    match o
    case Begin => if ManifestOf(d).Some? then ForRun(d, run) && KeyOf(d).Some? else d.leaf.None? || d.leaf == Some(0)
    case RequireKey(_) => KeyOf(d).Some?
    case DropManifestTemp(_, _, won) => won.Some? || ForRun(d, run)
    case Opened(_, _) => true
    case Failed => false
    case _ => ForRun(d, run) && (Left(o) >= 5 ==> d.leaf.None? || d.leaf == Some(0))
  }

  /** Main result. From any state an opener can be in, whatever others did before, its remaining calls end; and they open
      the generation that is then published exactly when it will open, and fail otherwise. */
  lemma {:induction false} OpensExactly(d: Shared, o: Opener, run: string, key: Key, manifest: Manifest)
    requires DirOk(d) && Knows(d, o, run)
    ensures var (e, q) := Alone(d, o, run, key, manifest);
            if WillOpen(d, o, run) then q.Opened? && ManifestOf(e) == Some(q.m) && KeyOf(e) == Some(q.k) && q.m.runNonce == run
            else q.Failed?
    decreases Left(o)
  {
    if Left(o) > 0 {
      var (e, q) := Call(d, o, run, key, manifest);
      CallOk(d, o, run, key, manifest);
      CallDecides(d, o, run, key, manifest);
      OpensExactly(e, q, run, key, manifest);
    }
  }

  lemma CallDecides(d: Shared, o: Opener, run: string, key: Key, manifest: Manifest)
    requires DirOk(d) && Knows(d, o, run) && Left(o) > 0
    ensures var (e, q) := Call(d, o, run, key, manifest); WillOpen(e, q, run) <==> WillOpen(d, o, run)
  {
  }
}
