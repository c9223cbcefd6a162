/** Files of a host on which every I/O step can fail, fall short, or be the last one the process makes. */
module Files {
  import opened LineLog

  /** What the next I/O call does. A failing or dying call keeps some prefix of what it was writing. */
  datatype Fault = Fine | Short(n: nat) | Fails(keep: nat) | Dies(keep: nat)

  datatype Io = Ok | Error | Killed

  /** The host: a script of I/O faults, fine once it runs out. */
  class Host {
    var script: seq<Fault>

    constructor (script: seq<Fault>)
      ensures this.script == script
    {
      this.script := script;
    }

    method Next() returns (f: Fault)
      modifies this
      ensures old(script) == [] ==> f == Fine && script == []
    {
      if script == [] { return Fine; }
      f, script := script[0], script[1..];
    }

    /** An I/O call that changes no file: an open, a lock, a stat, a read, an fsync. */
    method Tick() returns (io: Io)
      modifies this
      ensures old(script) == [] ==> io == Ok && script == []
    {
      var f := Next();
      io := match f case Fine => Ok case Short(_) => Ok case Fails(_) => Error case Dies(_) => Killed;
    }
  }

  /** A file: what it holds, and (specification only) every content it has held since it was last synced. */
  class File {
    var data: bytes
    ghost var may: iset<bytes>

    constructor (data: bytes)
      ensures this.data == data && Img() == Synced(data)
    {
      this.data := data;
      may := iset{data};
    }

    ghost function Img(): Image
      reads this
    {
      Image(data, may + iset{data})
    }

    method Truncate(host: Host, n: nat) returns (io: Io)
      requires n <= |data|
      modifies this, host
      ensures data == old(data) || data == old(data)[..n]
      ensures forall x :: x in Img().may ==> x in old(Img()).may || x == old(data)[..n]
      ensures io == Ok ==> data == old(data)[..n]
      ensures old(host.script) == [] ==> io == Ok && host.script == []
    {
      var f := host.Next();
      may := may + iset{data};
      match f {
        case Fine => data := data[..n]; io := Ok;
        case Short(_) => data := data[..n]; io := Ok;
        case Fails(_) => io := Error;
        case Dies(keep) =>
          if keep > 0 { data := data[..n]; }
          io := Killed;
      }
    }

    /** `pwriteAll`: loop over short writes; whatever stops it, a prefix of `x` is in the file. */
    method WriteAll(host: Host, at: nat, x: bytes) returns (io: Io)
      requires |data| <= at
      modifies this, host
      ensures exists k :: 0 <= k <= |x| && data == Put(old(data), at, x[..k])
      ensures forall y :: y in Img().may ==> y in old(Img()).may || PutSome(old(data), at, x, y)
      ensures io == Ok ==> data == Put(old(data), at, x)
      ensures old(host.script) == [] ==> io == Ok && host.script == []
    {
      hide Put;
      var off := 0;
      ghost var before, may0 := data, Img().may;
      PutNothing(before, at);
      assert x[..0] == [];
      while off < |x|
        invariant 0 <= off <= |x| && data == Put(before, at, x[..off])
        invariant off > 0 ==> |data| == at + off
        invariant forall y :: y in Img().may ==> y in may0 || PutSome(before, at, x, y)
        invariant old(host.script) == [] ==> host.script == []
      {
        var f := host.Next();
        var n := match f case Fine => |x| - off
                         case Short(m) => if m < |x| - off then m else |x| - off
                         case Fails(m) => if m < |x| - off then m else |x| - off
                         case Dies(m) => if m < |x| - off then m else |x| - off;
        PutMore(before, at, x, off, n);
        may := may + iset{data};
        data := Put(data, at + off, x[off..off + n]);
        off := off + n;
        if f.Fails? || (f.Short? && n == 0) { return Error; }
        if f.Dies? { return Killed; }
      }
      assert x[..off] == x;
      io := Ok;
    }

    /** fsync: from here on only what the file holds can be found in it. */
    method Sync(host: Host) returns (io: Io)
      modifies this`may, host
      ensures Img() == if io == Ok then Synced(data) else old(Img())
      ensures old(host.script) == [] ==> io == Ok && host.script == []
    {
      io := host.Tick();
      if io == Ok {
        may := iset{data};
        assert Img().may == iset{data};
      }
    }

    /** `writeStateFileDurable`: a synced temporary file takes the name in one step, and the name is synced. */
    method Replace(host: Host, x: bytes) returns (io: Io)
      modifies this, host
      ensures Img() == old(Img()) || Img() == Image(x, old(Img()).may + iset{x}) || Img() == Synced(x)
      ensures io == Ok ==> Img() == Synced(x)
      ensures old(host.script) == [] ==> io == Ok && host.script == []
    {
      ghost var before := Img();
      io := host.Tick(); // create, write and sync the temporary file
      if io != Ok { return; }
      var f := host.Next(); // rename
      if f.Fails? { return Error; }
      if f.Dies? && f.keep == 0 { return Killed; }
      may := may + iset{data};
      data := x;
      assert Img() == Image(x, before.may + iset{x});
      if f.Dies? { return Killed; }
      io := Sync(host);
    }

    /** The bytes just written are at their offset and nothing follows them. */
    method ReadBack(host: Host, at: nat, x: bytes) returns (io: Io)
      modifies host
      ensures io == Ok ==> |data| == at + |x| && data[at..] == x
      ensures old(host.script) == [] && |data| == at + |x| && data[at..] == x ==> io == Ok
      ensures old(host.script) == [] ==> host.script == []
    {
      io := host.Tick();
      if io == Ok && (|data| != at + |x| || data[at..] != x) { io := Error; }
    }
  }

  lemma PutNothing(raw: bytes, at: nat)
    requires |raw| <= at
    ensures Put(raw, at, []) == raw
  {
  }

  lemma PutMore(raw: bytes, at: nat, x: bytes, off: nat, n: nat)
    requires |raw| <= at && off + n <= |x|
    ensures var cur := Put(raw, at, x[..off]);
            && (off > 0 ==> |cur| == at + off)
            && Put(cur, at + off, x[off..off + n]) == Put(raw, at, x[..off + n])
            && (off + n > 0 ==> |Put(raw, at, x[..off + n])| == at + off + n)
  {
    var y, z := x[..off], x[off..off + n];
    assert y + z == x[..off + n];
    if off > 0 {
      PutLonger(raw, at, y);
      PutLonger(raw, at, y + z);
      var pad := seq(at - |raw|, i => GAP);
      assert raw + pad + y + z == raw + pad + (y + z);
    } else {
      assert y == [] && y + z == z;
      if n > 0 { PutLonger(raw, at, z); }
    }
  }

  lemma PutLonger(raw: bytes, at: nat, x: bytes)
    requires |raw| <= at && x != []
    ensures Put(raw, at, x) == raw + seq(at - |raw|, i => GAP) + x && |Put(raw, at, x)| == at + |x|
  {
    if |raw| == at {
      assert raw[..at] == raw && raw + seq(at - |raw|, i => GAP) == raw;
    }
  }
}
