/** Tearing a scope down: kill, wait until the kernel says it is empty, remove its cgroups bottom up, and believe only
    the directory being gone. Others may make, remove and replace cgroups at the same time, and any call may fail. */
module Teardown {
  import opened Wrappers

  type Path = seq<string>

  /** A link leads to something that is no directory, or nowhere. */
  datatype Entry = Directory(dev: nat, ino: nat) | SymLink(dangling: bool) | Plain

  type Tree = map<Path, Entry>

  /** What others do to the tree. */
  datatype Move = Vanish(p: Path) | Appear(p: Path, e: Entry)

  datatype Fault = Fine | Busy | IoError

  /** What others do just before a file-system call, and how the call fares. */
  datatype Moment = Moment(moves: seq<Move>, fault: Fault)

  datatype Removal = Removed | Absent | Refused

  predicate Strictly(path: Path, p: Path) { |path| < |p| && path == p[..|path|] }

  /** No cgroup below: attribute files do not count. */
  predicate NoneBelow(tree: Tree, path: Path) {
    forall p :: p in tree && Strictly(path, p) ==> !tree[p].Directory?
  }

  function Without(tree: Tree, path: Path): Tree {
    map p | p in tree && p != path && !Strictly(path, p) :: tree[p]
  }

  /** The tree there is, what each name first stood for, and the names that were made again after they were gone. */
  datatype Names = Names(tree: Tree, known: Tree, again: set<Path>) {
    predicate Valid() { forall p :: p in tree ==> p in known && (p in again || known[p] == tree[p]) }
  }

  function Moved(n: Names, m: Move): Names {
    match m
    case Vanish(p) => if NoneBelow(n.tree, p) then n.(tree := Without(n.tree, p)) else n
    case Appear(p, e) =>
      if p in n.tree || p == [] || p[..|p| - 1] !in n.tree then n
      else if p in n.known then n.(tree := n.tree[p := e], again := n.again + {p})
      else n.(tree := n.tree[p := e], known := n.known[p := e])
  }

  function MovedAll(n: Names, moves: seq<Move>): Names
    decreases |moves|
  {
    if moves == [] then n else MovedAll(Moved(n, moves[0]), moves[1..])
  }

  /** The names as the next call finds them. */
  function Next(n: Names, script: seq<Moment>): Names {
    if script == [] then n else MovedAll(n, script[0].moves)
  }

  /** What may happen between two moments: names go, and a name that comes is new or made again. */
  predicate Evolves(a: Names, b: Names) {
    && a.Valid() && b.Valid() && a.again <= b.again
    && (forall p :: p in a.known ==> p in b.known && b.known[p] == a.known[p])
    && (forall p :: p in b.tree && p !in a.tree ==> p !in a.known || p in b.again)
  }

  predicate Shrinks(before: Tree, after: Tree) {
    forall p :: p in after ==> p in before && after[p] == before[p]
  }

  function Below(tree: Tree, path: Path): set<Path> { set p | p in tree && (p == path || Strictly(path, p)) }

  /** What was removed stays gone, with all below it, unless its name is made again. */
  ghost predicate Emptied(ours: set<(Path, Entry)>, n: Names) {
    forall o :: o in ours && o.0 !in n.again ==>
      o.0 in n.known && o.0 !in n.tree && forall q :: q in n.tree ==> !Strictly(o.0, q)
  }

  /** An object a walk from `path` may touch: a directory at or below it, and below it on this device and the only one
      its name ever stood for, unless the name was made again. */
  predicate Within(n: Names, o: (Path, Entry), path: Path, dev: nat) {
    && o.1.Directory? && o.0 in n.known && (o.0 == path || Strictly(path, o.0))
    && (o.0 in n.again || (n.known[o.0] == o.1 && (o.0 == path || o.1.dev == dev)))
  }

  /** The objects that were removed, and those whose entries were listed. */
  datatype Log = Log(ours: set<(Path, Entry)>, walked: set<(Path, Entry)>)

  ghost predicate AllWithin(n: Names, before: Log, after: Log, path: Path, dev: nat) {
    && before.ours <= after.ours && before.walked <= after.walked
    && (forall o :: o in after.ours && o !in before.ours ==> Within(n, o, path, dev))
    && (forall o :: o in after.walked && o !in before.walked ==> Within(n, o, path, dev))
  }

  /** A scope the walk can remove: every cgroup below is on the device and hangs on another. */
  predicate Removable(tree: Tree, path: Path, dev: nat) {
    && path in tree && tree[path].Directory?
    && forall p :: p in tree && Strictly(path, p) ==>
         (tree[p].Directory? ==> tree[p].dev == dev) && p[..|p| - 1] in tree && tree[p[..|p| - 1]].Directory?
  }

  class CgroupFs {
    var names: Names
    var script: seq<Moment>
    ghost var log: Log

    constructor (tree: Tree, script: seq<Moment>)
      ensures Valid() && names == Names(tree, tree, {}) && this.script == script && log == Log({}, {})
    {
      this.names, this.script := Names(tree, tree, {}), script;
      log := Log({}, {});
    }

    ghost predicate Valid() reads this { names.Valid() && Emptied(log.ours, names) }

    /** The others' moves, if any; the last of them leaves the tree to us. */
    method Disturb() returns (f: Fault)
      requires Valid()
      modifies this`names, this`script
      ensures Valid() && Evolves(old(names), names) && names == Next(old(names), old(script))
      ensures if old(script) == [] then script == [] && f == Fine else script == old(script)[1..] && f == old(script)[0].fault
    {
      if script == [] {
        EvolvesNot(names);
        return Fine;
      }
      MovesEvolve(log.ours, names, script[0].moves);
      names := MovedAll(names, script[0].moves);
      f, script := script[0].fault, script[1..];
    }

    /** The directory's entries; None when it cannot be read for a reason other than its absence. */
    method ReadDir(path: Path) returns (r: Option<seq<string>>, absent: bool)
      requires Valid()
      modifies this`names, this`script, this`log
      ensures Valid() && Evolves(old(names), names) && names == Next(old(names), old(script))
      ensures script == if old(script) == [] then [] else old(script)[1..]
      ensures r.Some? ==> path in names.tree && names.tree[path].Directory? && log == old(log).(walked := old(log).walked + {(path, names.tree[path])})
      ensures r.Some? ==> forall name :: name in r.value <==> path + [name] in names.tree
      ensures r.Some? ==> forall i, j :: 0 <= i < j < |r.value| ==> r.value[i] != r.value[j]
      ensures absent ==> path !in names.tree
      ensures r.None? ==> log == old(log)
      ensures path in names.tree && names.tree[path].Directory? && (old(script) == [] || old(script)[0].fault.Fine?) ==> r.Some?
    {
      hide Evolves, Next, Emptied;
      var f := Disturb();
      var tree := names.tree;
      if path !in tree { return None, true; }
      if f.IoError? || !tree[path].Directory? { return None, false; }
      absent := false;
      var list: seq<string> := [];
      var rest := tree.Keys;
      while rest != {}
        invariant rest <= tree.Keys
        invariant forall name :: name in list <==> path + [name] in tree.Keys - rest
        invariant forall i, j :: 0 <= i < j < |list| ==> list[i] != list[j]
      {
        var p :| p in rest;
        if Strictly(path, p) && |p| == |path| + 1 {
          assert p == path + [p[|path|]];
          list := list + [p[|path|]];
        }
        rest := rest - {p};
      }
      r := Some(list);
      log := log.(walked := log.walked + {(path, tree[path])});
    }

    method Lstat(path: Path) returns (r: Option<Entry>)
      requires Valid()
      modifies this`names, this`script
      ensures Valid() && Evolves(old(names), names) && names == Next(old(names), old(script))
      ensures script == if old(script) == [] then [] else old(script)[1..]
      ensures r == if path in names.tree then Some(names.tree[path]) else None
    {
      var f := Disturb();
      r := if path in names.tree then Some(names.tree[path]) else None;
    }

    /** Follows a link: one that leads nowhere is absent. */
    method StatIsAbsent(path: Path) returns (absent: bool)
      requires Valid()
      modifies this`names, this`script
      ensures Valid() && Evolves(old(names), names) && names == Next(old(names), old(script))
      ensures absent <==> path !in names.tree || names.tree[path] == SymLink(true)
    {
      var f := Disturb();
      absent := path !in names.tree || names.tree[path] == SymLink(true);
    }

    /** The kernel removes a cgroup only when nothing is in it. */
    method Rmdir(path: Path) returns (r: Removal)
      requires Valid()
      modifies this`names, this`script, this`log
      ensures Valid() && Evolves(old(names), names)
      ensures script == if old(script) == [] then [] else old(script)[1..]
      ensures r != Refused ==> path !in names.tree
      ensures old(script) == [] ==> Shrinks(old(names).tree, names.tree)
      ensures var n := Next(old(names), old(script));
              && names == (if r == Removed then n.(tree := Without(n.tree, path)) else n)
              && (r == Absent <==> path !in n.tree)
              && (r == Removed ==> n.Valid() && path in n.tree && n.tree[path].Directory? && NoneBelow(n.tree, path))
              && (old(script) == [] && path in n.tree && n.tree[path].Directory? && NoneBelow(n.tree, path) ==> r == Removed)
              && log == (if r == Removed then old(log).(ours := old(log).ours + {(path, n.tree[path])}) else old(log))
    {
      hide Next, Evolves, Emptied;
      ghost var n0 := names;
      NextOfNone(n0);
      var f := Disturb();
      if path !in names.tree { return Absent; }
      if !f.Fine? || !names.tree[path].Directory? || !NoneBelow(names.tree, path) { return Refused; }
      ghost var n1 := names;
      RemovalEvolves(log.ours, names, path);
      log := log.(ours := log.ours + {(path, names.tree[path])});
      names := names.(tree := Without(names.tree, path));
      Later(n0, n1, names);
      r := Removed;
    }

    /** `removeCgroupDescendants`. None when the entry vanished under its `lstat`, which throws. It ends because each
        listing waits for more of the others' moves, or there are none left and the child is smaller. If the others are
        done before it starts, it removes the scope whole and nothing else. */
    method RemoveDescendants(path: Path, expectedDev: nat) returns (r: Option<bool>)
      requires Valid()
      modifies this
      ensures Valid() && Evolves(old(names), names)
      ensures if old(script) == [] then script == [] && Shrinks(old(names).tree, names.tree) else |script| < |old(script)|
      ensures r == Some(true) ==> path !in names.tree
      ensures AllWithin(names, old(log), log, path, expectedDev)
      ensures var n := Next(old(names), old(script));
              Calm(old(script)) && Removable(n.tree, path, expectedDev) ==>
                && r == Some(true) && script == [] && names == n.(tree := Without(n.tree, path))
                && (path, n.tree[path]) in log.ours && (path, n.tree[path]) in log.walked
      decreases |script|, |Below(names.tree, path)|
    {
      hide Emptied, Evolves, Below, Strictly, Within, AllWithin, Shrinks, Removable, Removing, Next, Without, NoneBelow;
      ghost var n0, script0, log0 := names, script, log;
      var entries, absent := ReadDir(path);
      ghost var m := names;
      ghost var calm := Calm(script0) && Removable(m.tree, path, expectedDev);
      NextOfNone(n0);
      SameShrinks(m.tree);
      EvolvesNot(m);
      NothingTouched(m, log0, path, expectedDev);
      if calm { RemovableIsThere(m.tree, path, expectedDev); }
      if entries.None? { return Some(absent); }
      ListedWithin(names, log0, path, expectedDev);
      if calm { RemovingStarts(m, path, expectedDev, entries.value); }
      for i := 0 to |entries.value|
        invariant Valid() && Evolves(n0, names) && Evolves(m, names)
        invariant if script0 == [] then script == [] && Shrinks(n0.tree, names.tree) else |script| < |script0|
        invariant AllWithin(names, log0, log, path, expectedDev)
        invariant (path, m.tree[path]) in log.walked
        invariant calm ==> script == [] && Removing(m, names, path, expectedDev, entries.value, i)
      {
        var child := path + [entries.value[i]];
        ghost var n1, log1 := names, log;
        var entry := Lstat(child);
        NextOfNone(n1);
        AfterALook(n0, m, n1, names, log0, log1, path, expectedDev);
        if calm { ChildIsThere(m, names, path, expectedDev, entries.value, i); }
        if entry.None? { return None; }
        if !entry.value.Directory? {
          if calm { PlainStays(m, names, path, expectedDev, entries.value, i); }
          continue;
        }
        if entry.value.dev != expectedDev { return Some(false); }
        if script0 == [] { BelowIsSmaller(n0.tree, names.tree, path, child); }
        ghost var n2 := names;
        NextOfNone(n2);
        var removed := RemoveDescendants(child, expectedDev);
        AfterALook(n0, m, n2, names, log0, log1, path, expectedDev);
        ChildWithin(n2, names, log0, log1, log, path, child, expectedDev);
        if removed != Some(true) { return removed; }
        if calm { ChildGone(m, n2, names, path, expectedDev, entries.value, i); }
      }
      r := RemoveItself(path, expectedDev, n0, m, log0, calm, entries.value);
    }

    /** The end of a walk: the scope itself, its children dealt with. */
    method RemoveItself(
        path: Path, dev: nat, ghost n0: Names, ghost m: Names, ghost log0: Log, ghost calm: bool, ghost list: seq<string>)
        returns (r: Option<bool>)
      requires Valid() && Evolves(n0, names) && AllWithin(names, log0, log, path, dev)
      requires calm ==> script == [] && Removing(m, names, path, dev, list, |list|)
      modifies this`names, this`script, this`log
      ensures Valid() && Evolves(n0, names) && AllWithin(names, log0, log, path, dev) && log.walked == old(log).walked
      ensures if old(script) == [] then script == [] else |script| < |old(script)|
      ensures old(script) == [] && Shrinks(n0.tree, old(names).tree) ==> Shrinks(n0.tree, names.tree)
      ensures r == Some(true) ==> path !in names.tree
      ensures calm ==>
                && r == Some(true) && names == m.(tree := Without(m.tree, path))
                && path in m.tree && (path, m.tree[path]) in log.ours
    {
      hide Emptied, Evolves, Strictly, Within, AllWithin, Shrinks, Removable, Removing, Next, Without, NoneBelow;
      ghost var n3, log3, script3 := names, log, script;
      if calm { AllGone(m, n3, path, dev, list); }
      NextOfNone(n3);
      var done := Rmdir(path);
      Later(n0, n3, names);
      StillWithin(n3, names, log0, log3, path, dev);
      if done == Removed { RemovedWithin(Next(n3, script3), log0, log3, path, dev); }
      r := Some(done != Refused);
    }
  }

  /** The others are done before the next call, which nothing fails. */
  predicate Calm(script: seq<Moment>) { script == [] || (|script| == 1 && script[0].fault.Fine?) }

  /** The walk has dealt with the first `i` of the children it listed, and with nothing else. */
  ghost predicate Removing(m: Names, n: Names, path: Path, dev: nat, list: seq<string>, i: nat) {
    && n == m.(tree := n.tree) && Shrinks(m.tree, n.tree) && Removable(n.tree, path, dev)
    && (forall p :: p in m.tree && p !in n.tree ==> Strictly(path, p))
    && (forall p :: p in m.tree && Strictly(path, p) && |p| == |path| + 1 ==> exists k :: 0 <= k < |list| && p == path + [list[k]])
    && (forall k :: i <= k < |list| ==> path + [list[k]] in n.tree)
    && (forall k :: 0 <= k < i && k < |list| && path + [list[k]] in n.tree ==> !n.tree[path + [list[k]]].Directory?)
    && (forall j, k :: 0 <= j < k < |list| ==> list[j] != list[k])
  }

  lemma RemovableIsThere(tree: Tree, path: Path, dev: nat)
    requires Removable(tree, path, dev)
    ensures path in tree && tree[path].Directory?
  {
  }

  lemma NextOfNone(n: Names)
    ensures Next(n, []) == n
  {
  }

  lemma RemovingStarts(m: Names, path: Path, dev: nat, list: seq<string>)
    requires Removable(m.tree, path, dev) && forall name :: name in list <==> path + [name] in m.tree
    requires forall j, k :: 0 <= j < k < |list| ==> list[j] != list[k]
    ensures Removing(m, m, path, dev, list, 0)
  {
    forall p | p in m.tree && Strictly(path, p) && |p| == |path| + 1
      ensures exists k :: 0 <= k < |list| && p == path + [list[k]]
    {
      assert p == path + [p[|path|]];
      assert p[|path|] in list;
    }
  }

  lemma ChildIsThere(m: Names, n: Names, path: Path, dev: nat, list: seq<string>, i: nat)
    requires Removing(m, n, path, dev, list, i) && i < |list|
    ensures var child := path + [list[i]];
            && child in n.tree
            && (n.tree[child].Directory? ==> n.tree[child].dev == dev && Removable(n.tree, child, dev))
  {
    var child := path + [list[i]];
    forall p | p in n.tree && Strictly(child, p) ensures Strictly(path, p) { assert p[..|path|] == p[..|child|][..|path|]; }
  }

  lemma PlainStays(m: Names, n: Names, path: Path, dev: nat, list: seq<string>, i: nat)
    requires Removing(m, n, path, dev, list, i) && i < |list|
    requires path + [list[i]] in n.tree && !n.tree[path + [list[i]]].Directory?
    ensures Removing(m, n, path, dev, list, i + 1)
  {
  }

  lemma ChildGone(m: Names, n: Names, after: Names, path: Path, dev: nat, list: seq<string>, i: nat)
    requires Removing(m, n, path, dev, list, i) && i < |list|
    requires after == n.(tree := Without(n.tree, path + [list[i]]))
    ensures Removing(m, after, path, dev, list, i + 1)
  {
    hide Removable;
    var child := path + [list[i]];
    WithoutKeepsRemovable(n.tree, path, child, dev);
    forall p | p in m.tree && p !in after.tree ensures Strictly(path, p) {
      if p in n.tree && p != child { StrictlyTwice(path, child, p); }
    }
    forall k | i < k < |list| ensures path + [list[k]] in after.tree {
      assert (path + [list[k]])[|path|] != child[|path|];
    }
    assert child !in after.tree;
  }

  lemma StrictlyTwice(a: Path, b: Path, c: Path)
    requires Strictly(a, b) && Strictly(b, c)
    ensures Strictly(a, c)
  {
    assert c[..|a|] == c[..|b|][..|a|];
  }

  lemma WithoutKeepsRemovable(tree: Tree, path: Path, child: Path, dev: nat)
    requires Removable(tree, path, dev) && Strictly(path, child)
    ensures Removable(Without(tree, child), path, dev)
  {
    var after := Without(tree, child);
    forall p | p in after && Strictly(path, p) ensures p[..|p| - 1] in after {
      BelowTheParent(child, p);
    }
  }

  lemma BelowTheParent(child: Path, p: Path)
    requires p != []
    ensures p[..|p| - 1] == child || Strictly(child, p[..|p| - 1]) ==> Strictly(child, p)
  {
    var parent := p[..|p| - 1];
    assert |child| <= |parent| ==> parent[..|child|] == p[..|child|];
  }

  /** A cgroup left below would hang on one of the children, and those are dealt with. */
  lemma AllGone(m: Names, n: Names, path: Path, dev: nat, list: seq<string>)
    requires Removing(m, n, path, dev, list, |list|)
    ensures path in n.tree && path in m.tree && n.tree[path] == m.tree[path] && n.tree[path].Directory? && NoneBelow(n.tree, path)
    ensures n == m.(tree := n.tree)
    ensures Without(n.tree, path) == Without(m.tree, path)
  {
    forall p | p in n.tree && Strictly(path, p) ensures !n.tree[p].Directory? {
      if n.tree[p].Directory? { HangsOnAChild(m, n, path, dev, list, p); }
    }
  }

  lemma HangsOnAChild(m: Names, n: Names, path: Path, dev: nat, list: seq<string>, p: Path)
    requires Removing(m, n, path, dev, list, |list|) && p in n.tree && Strictly(path, p)
    ensures !n.tree[p].Directory?
    decreases |p|
  {
    if |p| > |path| + 1 {
      var parent := p[..|p| - 1];
      assert parent[..|path|] == p[..|path|];
      HangsOnAChild(m, n, path, dev, list, parent);
    }
  }


  lemma EvolvesNot(n: Names)
    requires n.Valid()
    ensures Evolves(n, n)
  {
  }

  lemma MoveEvolves(ours: set<(Path, Entry)>, n: Names, m: Move)
    requires n.Valid() && Emptied(ours, n)
    ensures Evolves(n, Moved(n, m)) && Emptied(ours, Moved(n, m))
  {
    if m.Appear? && m.p != [] {
      forall o | o in ours && Strictly(o.0, m.p) ensures m.p[..|m.p| - 1] == o.0 || Strictly(o.0, m.p[..|m.p| - 1]) {
        ParentBelow(o.0, m.p);
      }
    }
  }

  lemma {:induction false} MovesEvolve(ours: set<(Path, Entry)>, n: Names, moves: seq<Move>)
    requires n.Valid() && Emptied(ours, n)
    ensures Evolves(n, MovedAll(n, moves)) && Emptied(ours, MovedAll(n, moves))
    decreases |moves|
  {
    hide Evolves, Emptied, Moved;
    if moves == [] {
      EvolvesNot(n);
    } else {
      var next := Moved(n, moves[0]);
      MoveEvolves(ours, n, moves[0]);
      ValidLater(n, next);
      MovesEvolve(ours, next, moves[1..]);
      Later(n, next, MovedAll(n, moves));
    }
  }

  lemma ValidLater(a: Names, b: Names)
    requires Evolves(a, b)
    ensures b.Valid()
  {
  }

  lemma RemovalEvolves(ours: set<(Path, Entry)>, n: Names, path: Path)
    requires n.Valid() && Emptied(ours, n) && path in n.tree
    ensures Evolves(n, n.(tree := Without(n.tree, path)))
    ensures Emptied(ours + {(path, n.tree[path])}, n.(tree := Without(n.tree, path)))
  {
  }

  lemma ParentBelow(o: Path, p: Path)
    requires Strictly(o, p)
    ensures p[..|p| - 1] == o || Strictly(o, p[..|p| - 1])
  {
    assert p[..|p| - 1][..|o|] == p[..|o|];
  }

  lemma Later(a: Names, b: Names, c: Names)
    requires Evolves(a, b) && Evolves(b, c)
    ensures Evolves(a, c)
    ensures Shrinks(a.tree, b.tree) && Shrinks(b.tree, c.tree) ==> Shrinks(a.tree, c.tree)
  {
  }

  lemma SameShrinks(tree: Tree)
    ensures Shrinks(tree, tree)
  {
  }

  lemma NothingTouched(n: Names, log: Log, path: Path, dev: nat)
    ensures AllWithin(n, log, log, path, dev)
  {
  }

  lemma ListedWithin(n: Names, log: Log, path: Path, dev: nat)
    requires n.Valid() && path in n.tree && n.tree[path].Directory?
    ensures AllWithin(n, log, log.(walked := log.walked + {(path, n.tree[path])}), path, dev)
  {
  }

  lemma AfterALook(n0: Names, m: Names, a: Names, b: Names, before: Log, after: Log, path: Path, dev: nat)
    requires Evolves(n0, a) && Evolves(m, a) && Evolves(a, b) && AllWithin(a, before, after, path, dev)
    ensures Evolves(n0, b) && Evolves(m, b) && AllWithin(b, before, after, path, dev)
    ensures Shrinks(n0.tree, a.tree) && Shrinks(a.tree, b.tree) ==> Shrinks(n0.tree, b.tree)
  {
    hide Evolves, AllWithin;
    Later(n0, a, b);
    Later(m, a, b);
    StillWithin(a, b, before, after, path, dev);
  }

  lemma RemovedWithin(n: Names, before: Log, log: Log, path: Path, dev: nat)
    requires n.Valid() && path in n.tree && n.tree[path].Directory?
    requires AllWithin(n.(tree := Without(n.tree, path)), before, log, path, dev)
    ensures AllWithin(n.(tree := Without(n.tree, path)), before, log.(ours := log.ours + {(path, n.tree[path])}), path, dev)
  {
  }

  lemma StillWithin(a: Names, b: Names, before: Log, after: Log, path: Path, dev: nat)
    requires Evolves(a, b) && AllWithin(a, before, after, path, dev)
    ensures AllWithin(b, before, after, path, dev)
  {
  }

  /** A child was on the device when it was looked at: what was touched at or below it is within the parent's walk. */
  lemma ChildWithin(m: Names, n: Names, before: Log, middle: Log, after: Log, path: Path, child: Path, dev: nat)
    requires Evolves(m, n) && |child| == |path| + 1 && child[..|path|] == path
    requires child in m.tree && m.tree[child].Directory? && m.tree[child].dev == dev
    requires AllWithin(n, before, middle, path, dev) && AllWithin(n, middle, after, child, dev)
    ensures AllWithin(n, before, after, path, dev) && middle.walked <= after.walked
  {
    forall o | Within(n, o, child, dev) ensures Within(n, o, path, dev) {
      if o.0 != child { assert o.0[..|path|] == o.0[..|child|][..|path|]; }
    }
  }

  lemma BelowIsSmaller(a: Tree, b: Tree, path: Path, child: Path)
    requires Shrinks(a, b) && path in a && |child| == |path| + 1 && child[..|path|] == path
    ensures |Below(b, child)| < |Below(a, path)|
  {
    forall p | p in Below(b, child) ensures p in Below(a, path) - {path} {
      if p != child { assert p[..|path|] == p[..|child|][..|path|]; }
    }
    SubsetSize(Below(b, child), Below(a, path) - {path});
  }

  lemma {:induction false} SubsetSize(s: set<Path>, t: set<Path>)
    requires s <= t
    ensures |s| <= |t|
    decreases |t|
  {
    if s != {} {
      var p :| p in s;
      SubsetSize(s - {p}, t - {p});
    }
  }

  // ---- settling a scope ----

  datatype Population = Zero | NotZero | Gone | Unreadable

  datatype Answer = Ok | NoEntry | Failure

  /** What the kernel answers about the pinned scope and the process group, reading by reading. */
  class Kernel {
    var groups: seq<bool>
    var populations: seq<Population>
    const pinned: (nat, nat)
    const kill: Answer
    ghost var lastPopulation: Option<Population>
    ghost var lastGroup: Option<bool>

    constructor (groups: seq<bool>, populations: seq<Population>, pinned: (nat, nat), kill: Answer)
      ensures this.groups == groups && this.populations == populations && this.pinned == pinned && this.kill == kill
    {
      this.groups, this.populations, this.pinned, this.kill := groups, populations, pinned, kill;
      lastPopulation, lastGroup := None, None;
    }

    method GroupAlive() returns (alive: bool)
      modifies this`groups, this`lastGroup
      ensures lastGroup == Some(alive)
      ensures if old(groups) == [] then !alive && groups == [] else alive == old(groups)[0] && groups == old(groups)[1..]
    {
      alive := groups != [] && groups[0];
      if groups != [] { groups := groups[1..]; }
      lastGroup := Some(alive);
    }

    method ReadPopulation() returns (p: Population)
      modifies this`populations, this`lastPopulation
      ensures lastPopulation == Some(p)
      ensures if old(populations) == [] then p == NotZero && populations == []
              else p == old(populations)[0] && populations == old(populations)[1..]
    {
      p := if populations == [] then NotZero else populations[0];
      if populations != [] { populations := populations[1..]; }
      lastPopulation := Some(p);
    }

    /** Poll until the scope is unpopulated or gone, then believe only one more reading. */
    method Drain(polls: nat) returns (empty: bool)
      modifies this`populations, this`lastPopulation
      ensures empty ==> lastPopulation == Some(Zero) || lastPopulation == Some(Gone)
      ensures old(|populations| > 1 && forall p :: p in populations ==> p == Zero || p == Gone) ==> empty
    {
      ghost var all := populations;
      ghost var dead := |all| > 1 && forall p :: p in all ==> p == Zero || p == Gone;
      assert dead ==> all[0] in all && all[1] in all;
      var population := NotZero;
      var left := polls;
      while left > 0 && population != Zero && population != Gone
        invariant dead ==> if population == NotZero then populations == all else populations == all[1..]
        invariant dead && population != NotZero ==> population == Zero || population == Gone
      {
        left := left - 1;
        population := ReadPopulation();
        if population == Unreadable { return false; }
      }
      population := ReadPopulation();
      empty := population == Zero || population == Gone;
    }
  }

  /** The pinned object is the expected one, its processes are dead, and the kernel says so from now on. */
  ghost predicate Dead(kernel: Kernel, dev: nat, ino: nat)
    reads kernel
  {
    && kernel.pinned == (dev, ino) && kernel.kill != Failure && kernel.groups == [] && |kernel.populations| > 1
    && forall p :: p in kernel.populations ==> p == Zero || p == Gone
  }

  /** `settleProbeScope`: deadlines are bounds on how often it polls. */
  method Settle(
      fs: CgroupFs, kernel: Kernel, path: Path, dev: nat, ino: nat, pid: bool,
      gracePolls: nat, drainPolls: nat, removePolls: nat)
      returns (settled: bool)
    requires fs.Valid()
    modifies fs, kernel
    ensures fs.Valid() && Evolves(old(fs.names), fs.names)
    ensures settled ==> kernel.lastPopulation == Some(Zero) || kernel.lastPopulation == Some(Gone)
    ensures settled ==> path !in fs.names.tree || fs.names.tree[path] == SymLink(true)
    ensures settled && pid ==> kernel.lastGroup == Some(false)
    ensures settled ==> kernel.pinned == (dev, ino)
    ensures fs.log != old(fs.log) ==> NameIs(fs.names, path, Directory(dev, ino))
    ensures AllWithin(fs.names, old(fs.log), fs.log, path, dev)
    ensures old(Dead(kernel, dev, ino)) && old(fs.script) == [] && removePolls > 0
            && (path in old(fs.names).tree ==>
                  old(fs.names).tree[path] == Directory(dev, ino) && Removable(old(fs.names).tree, path, dev))
            ==> settled
  {
    hide Emptied, Evolves, Next, Removable;
    ghost var n0 := fs.names;
    EvolvesNot(n0);
    NextOfNone(n0);
    settled := false;
    if pid {
      var alive := kernel.GroupAlive();
      var polls := gracePolls;
      while alive && polls > 0
        invariant old(Dead(kernel, dev, ino)) ==> !alive && kernel.groups == []
        invariant kernel.populations == old(kernel.populations)
        modifies kernel`groups, kernel`lastGroup
      {
        polls := polls - 1;
        alive := kernel.GroupAlive();
      }
    }
    if kernel.pinned != (dev, ino) || kernel.kill == Failure { return; }
    var empty := kernel.Drain(drainPolls);
    if !empty { return; }
    var named := fs.Lstat(path);
    if named.None? {
      settled := true;
    } else {
      if named.value != Directory(dev, ino) { return; }
      InKnown(fs.names, path);
      var removed := RemoveWhole(fs, path, dev, n0, ino, removePolls);
      if !removed { return; }
      ghost var n1 := fs.names;
      NextOfNone(n1);
      var absent := fs.StatIsAbsent(path);
      Later(n0, n1, fs.names);
      KnownStays(n1, fs.names, path);
      StillWithin(n1, fs.names, old(fs.log), fs.log, path, dev);
      if !absent { return; }
      settled := true;
    }
    if pid {
      var alive := kernel.GroupAlive();
      settled := !alive;
    }
  }

  /** The name is that object, or was made again. */
  predicate NameIs(n: Names, path: Path, e: Entry) {
    path in n.known && (path in n.again || n.known[path] == e)
  }

  lemma InKnown(n: Names, path: Path)
    requires n.Valid() && path in n.tree
    ensures NameIs(n, path, n.tree[path])
  {
  }

  lemma KnownStays(a: Names, b: Names, path: Path)
    requires Evolves(a, b) && path in a.known
    ensures path in b.known && b.known[path] == a.known[path] && (path in a.again ==> path in b.again)
  {
  }

  /** Try the removal until it succeeds, throws, or time is up. */
  method RemoveWhole(fs: CgroupFs, path: Path, dev: nat, ghost n0: Names, ghost ino: nat, polls: nat) returns (removed: bool)
    requires fs.Valid() && Evolves(n0, fs.names) && NameIs(fs.names, path, Directory(dev, ino))
    modifies fs
    ensures fs.Valid() && Evolves(n0, fs.names) && NameIs(fs.names, path, Directory(dev, ino))
    ensures AllWithin(fs.names, old(fs.log), fs.log, path, dev)
    ensures var n := Next(old(fs.names), old(fs.script));
            polls > 0 && Calm(old(fs.script)) && Removable(n.tree, path, dev) ==>
              && removed && fs.script == [] && fs.names == n.(tree := Without(n.tree, path))
              && (path, n.tree[path]) in fs.log.ours && (path, n.tree[path]) in fs.log.walked
  {
    hide Emptied, Evolves, Within, Next, Removable;
    removed := false;
    var left := polls;
    ghost var log0, names0, script0 := fs.log, fs.names, fs.script;
    ghost var n := Next(names0, script0);
    while left > 0 && !removed
      invariant fs.Valid() && Evolves(n0, fs.names) && NameIs(fs.names, path, Directory(dev, ino))
      invariant AllWithin(fs.names, log0, fs.log, path, dev)
      invariant left <= polls && (left == polls ==> fs.names == names0 && fs.script == script0 && !removed)
      invariant left < polls && Calm(script0) && Removable(n.tree, path, dev) ==>
                  && removed && fs.script == [] && fs.names == n.(tree := Without(n.tree, path)) && path in n.tree
                  && (path, n.tree[path]) in fs.log.ours && (path, n.tree[path]) in fs.log.walked
    {
      left := left - 1;
      ghost var n1, log1 := fs.names, fs.log;
      if Removable(n.tree, path, dev) { RemovableIsThere(n.tree, path, dev); }
      var r := fs.RemoveDescendants(path, dev);
      Later(n0, n1, fs.names);
      KnownStays(n1, fs.names, path);
      StillWithin(n1, fs.names, log0, log1, path, dev);
      if r.None? { return false; }
      removed := r.value;
    }
  }

  /** What the device check does not see: a scope whose name is made again between the look at it and the walk. Whatever
      object takes its place on the device is listed and removed. */
  method ReplacementIsRemoved(parent: Path, name: string, dev: nat, ino: nat, other: nat)
      returns (fs: CgroupFs, named: Option<Entry>, removed: bool)
    ensures fresh(fs) && named == Some(Directory(dev, ino)) && removed
    ensures var path := parent + [name];
            && path in fs.names.again
            && (path, Directory(dev, other)) in fs.log.ours && (path, Directory(dev, other)) in fs.log.walked
  {
    var path := parent + [name];
    var tree: Tree := map[parent := Directory(dev, 0), path := Directory(dev, ino)];
    var replaced := Moment([Vanish(path), Appear(path, Directory(dev, other))], Fine);
    fs := new CgroupFs(tree, [Moment([], Fine), replaced]);
    ghost var n := fs.names;
    named := fs.Lstat(path);
    assert fs.script == [replaced] && fs.names == n;
    InKnown(fs.names, path);
    Replaced(n, parent, name, dev, ino, other);
    EvolvesNot(fs.names);
    removed := RemoveWhole(fs, path, dev, fs.names, ino, 1);
  }

  lemma Replaced(n: Names, parent: Path, name: string, dev: nat, ino: nat, other: nat)
    requires var path := parent + [name];
             n.tree == map[parent := Directory(dev, 0), path := Directory(dev, ino)] && n.known == n.tree
    ensures var path := parent + [name];
            var after := Next(n, [Moment([Vanish(path), Appear(path, Directory(dev, other))], Fine)]);
            Removable(after.tree, path, dev) && after.tree[path] == Directory(dev, other) && path in after.again
  {
    var path := parent + [name];
    var gone, made := Vanish(path), Appear(path, Directory(dev, other));
    assert path[..|path| - 1] == parent;
    var after := Moved(Moved(n, gone), made);
    assert [gone, made][1..] == [made] && [made][1..] == [];
    assert MovedAll(Moved(n, gone), [made]) == MovedAll(after, []) == after;
    assert MovedAll(n, [gone, made]) == after;
  }
}
