/** The text a verifier scope is known by: its identity as one journal field, and the status line its launcher sends
    before it may exec. */
module ScopeText {
  import opened Wrappers
  import opened Money
  import opened Attest

  const MAX_U64 := 18446744073709551615
  const MAX_SAFE := 9007199254740991

  // ---- fields separated by one character ----

  function Cut(s: string, sep: char): (k: nat)
    ensures k <= |s| && sep !in s[..k] && (k < |s| ==> s[k] == sep)
  {
    if s == "" || s[0] == sep then 0 else 1 + Cut(s[1..], sep)
  }

  lemma CutAt(x: string, sep: char, y: string)
    requires sep !in x
    ensures Cut(x, sep) == |x| && Cut(x + [sep] + y, sep) == |x|
  {
    if x != "" {
      assert (x + [sep] + y)[1..] == x[1..] + [sep] + y;
      CutAt(x[1..], sep, y);
    }
  }

  function Fields(s: string, sep: char): (f: seq<string>)
    ensures |f| > 0
    decreases |s|
  {
    var k := Cut(s, sep);
    if k == |s| then [s] else [s[..k]] + Fields(s[k + 1..], sep)
  }

  function Join(f: seq<string>, sep: char): string
    requires |f| > 0
  {
    if |f| == 1 then f[0] else f[0] + [sep] + Join(f[1..], sep)
  }

  lemma {:induction false} JoinFields(s: string, sep: char)
    ensures Join(Fields(s, sep), sep) == s
    ensures forall x :: x in Fields(s, sep) ==> sep !in x
    decreases |s|
  {
    var k := Cut(s, sep);
    if k < |s| {
      JoinFields(s[k + 1..], sep);
      assert Fields(s, sep)[1..] == Fields(s[k + 1..], sep);
      assert s[..k] + [sep] + s[k + 1..] == s;
    } else {
      assert s[..k] == s;
    }
  }

  lemma {:induction false} FieldsJoin(f: seq<string>, sep: char)
    requires |f| > 0 && forall x :: x in f ==> sep !in x
    ensures Fields(Join(f, sep), sep) == f
  {
    var s := Join(f, sep);
    if |f| == 1 {
      CutAt(f[0], sep, "");
    } else {
      var rest := Join(f[1..], sep);
      CutAt(f[0], sep, rest);
      assert s[..|f[0]|] == f[0] && s[|f[0]| + 1..] == rest;
      FieldsJoin(f[1..], sep);
    }
  }

  // ---- scope identities ----

  datatype Identity = Identity(dev: string, ino: string, name: string, pid: nat, startTicks: string)

  /** A canonical unsigned 64-bit decimal. */
  predicate IsDecimal64(s: string, positive: bool) {
    IsDecimal(s) && Numeral(s) <= MAX_U64 && (positive ==> Numeral(s) > 0)
  }

  const NAME_PREFIX := "loop-"

  predicate IsScopeName(s: string) {
    |s| == 21 && s[..5] == NAME_PREFIX && IsHex(s[5..])
  }

  predicate ValidIdentity(i: Identity) {
    && IsDecimal64(i.dev, false) && IsDecimal64(i.ino, true) && IsScopeName(i.name)
    && 0 < i.pid <= MAX_SAFE && IsDecimal64(i.startTicks, true)
  }

  const TAG := "cgroup2v2"

  function FieldsOf(i: Identity): seq<string> { [TAG, i.dev, i.ino, i.name, FormatNano(i.pid), i.startTicks] }

  function ScopeId(i: Identity): Option<string> {
    if !ValidIdentity(i) then None else Some(Join(FieldsOf(i), ':'))
  }

  function ParseScopeId(s: string): Option<Identity> {
    var f := Fields(s, ':');
    if |f| != 6 || f[0] != TAG then None
    else if !IsDecimal64(f[1], false) || !IsDecimal64(f[2], true) || !IsScopeName(f[3]) || !IsDecimal64(f[5], true) then None
    else if !IsDecimal(f[4]) || !(0 < Numeral(f[4]) <= MAX_SAFE) then None
    else Some(Identity(f[1], f[2], f[3], Numeral(f[4]), f[5]))
  }

  lemma {:induction false} CanonicalNumeral(s: string)
    requires IsDecimal(s)
    ensures FormatNano(Numeral(s)) == s
  {
    var n := |s| - 1;
    assert s[..n] + [s[n]] == s;
    if n == 0 {
      assert s[..0] == "";
    } else {
      assert s[..n] != "0" by { assert s[..n][0] == s[0]; }
      CanonicalNumeral(s[..n]);
      assert Numeral(s[..n]) > 0 by { Positive(s[..n]); }
    }
  }

  lemma {:induction false} Positive(s: string)
    requires IsNumeral(s) && s != "" && s[0] != '0'
    ensures Numeral(s) > 0
  {
    if |s| > 1 {
      assert s[..|s| - 1][0] == s[0];
      Positive(s[..|s| - 1]);
    }
  }

  lemma FormatIsDecimal(n: nat)
    ensures IsDecimal(FormatNano(n)) && ':' !in FormatNano(n)
  {
    FormatNames(n);
  }

  /** Printing and parsing are inverse to each other, on every valid identity and on every string that parses. */
  lemma ScopeIdReadsBack(i: Identity, s: string)
    ensures ValidIdentity(i) <==> ScopeId(i).Some?
    ensures ParseScopeId(s) == Some(i) <==> ScopeId(i) == Some(s)
  {
    hide Join, Fields, FormatNano, Numeral;
    FormatIsDecimal(i.pid);
    FormatNames(i.pid);
    if ScopeId(i) == Some(s) {
      assert forall x :: x in FieldsOf(i) ==> ':' !in x by { NoColon(i); }
      FieldsJoin(FieldsOf(i), ':');
    }
    if ParseScopeId(s) == Some(i) {
      var f := Fields(s, ':');
      JoinFields(s, ':');
      CanonicalNumeral(f[4]);
      assert f == FieldsOf(i);
    }
  }

  /** The text of a whole number within a range. */
  ghost predicate IsNumber(s: string, low: nat, high: nat) { exists n: nat :: low <= n <= high && s == FormatNano(n) }

  /** What an identity is: three canonical 64-bit numbers, a process id that is a safe integer, and a cgroup name of a
      fixed prefix and sixteen hexadecimal digits. */
  lemma IdentityExactly(i: Identity)
    ensures ValidIdentity(i) <==>
              && IsNumber(i.dev, 0, MAX_U64) && IsNumber(i.ino, 1, MAX_U64) && IsNumber(i.startTicks, 1, MAX_U64)
              && 1 <= i.pid <= MAX_SAFE
              && exists digits: string :: |digits| == 16 && IsHex(digits) && i.name == "loop-" + digits
  {
    hide FormatNano, Numeral, IsHex;
    NumberExactly(i.dev, false);
    NumberExactly(i.ino, true);
    NumberExactly(i.startTicks, true);
    if IsScopeName(i.name) { assert i.name == "loop-" + i.name[5..]; }
    if digits :| |digits| == 16 && IsHex(digits) && i.name == "loop-" + digits { assert i.name[5..] == digits; }
  }

  lemma NumberExactly(s: string, positive: bool)
    ensures IsDecimal64(s, positive) <==> IsNumber(s, if positive then 1 else 0, MAX_U64)
  {
    hide FormatNano, Numeral;
    if IsDecimal64(s, positive) { CanonicalNumeral(s); }
    if n: nat :| (if positive then 1 else 0) <= n <= MAX_U64 && s == FormatNano(n) {
      FormatIsDecimal(n);
      FormatNames(n);
    }
  }

  lemma NoColon(i: Identity)
    requires ValidIdentity(i)
    ensures forall x :: x in FieldsOf(i) ==> ':' !in x
  {
    FormatIsDecimal(i.pid);
    assert i.name == i.name[..5] + i.name[5..];
  }

  // ---- enrolment status ----

  const STATUS_MAX := 128

  datatype Verdict = Enrolled | Oversized | InvalidUtf8 | Malformed | PidMismatch | NonceMismatch

  /** Which byte strings a fatal UTF-8 decoder accepts; plain text is accepted. */
  type Utf8 = string -> bool

  ghost predicate Decoder(utf8: Utf8) {
    forall s :: (forall k :: 0 <= k < |s| ==> s[k] < 128 as char) ==> utf8(s)
  }

  /** A byte-order mark, which the decoder drops. Bytes are written as the characters of their values. */
  const BOM := [0xEF as char, 0xBB as char, 0xBF as char]

  function Undecorated(raw: string): string { if BOM <= raw then raw[3..] else raw }

  predicate IsStatusNonce(s: string) { |s| == 32 && IsHex(s) }

  const ENROLLED := "ENROLLED"

  function ParseStatus(utf8: Utf8, raw: string, pid: nat, nonce: string): Verdict {
    if |raw| > STATUS_MAX then Oversized
    else
      var text := Undecorated(raw);
      if !utf8(text) then InvalidUtf8
      else if text == "" || text[|text| - 1] != '\n' then Malformed
      else
        var f := Fields(text[..|text| - 1], ' ');
        if |f| != 3 || f[0] != ENROLLED || !IsDecimal(f[1]) || f[1] == "0" || !IsStatusNonce(f[2]) then Malformed
        else if Numeral(f[1]) > MAX_SAFE || Numeral(f[1]) != pid then PidMismatch
        else if !IsStatusNonce(nonce) || f[2] != nonce then NonceMismatch
        else Enrolled
  }

  function StatusLine(pid: nat, nonce: string): string {
    Join([ENROLLED, FormatNano(pid), nonce], ' ') + "\n"
  }

  lemma EnrolledIsTheLine(utf8: Utf8, raw: string, pid: nat, nonce: string)
    requires ParseStatus(utf8, raw, pid, nonce) == Enrolled
    ensures 0 < pid <= MAX_SAFE && IsStatusNonce(nonce) && |raw| <= STATUS_MAX && Undecorated(raw) == StatusLine(pid, nonce)
  {
    hide Join, Fields, Numeral, FormatNano, Undecorated, IsHex;
    var text := Undecorated(raw);
    var body := text[..|text| - 1];
    var f := Fields(body, ' ');
    JoinFields(body, ' ');
    CanonicalNumeral(f[1]);
    assert f == [ENROLLED, FormatNano(pid), nonce];
    assert text == body + "\n";
    if f[1] != "0" { Positive(f[1]); }
  }

  lemma TheLineIsEnrolled(utf8: Utf8, raw: string, pid: nat, nonce: string)
    requires Decoder(utf8)
    requires 0 < pid <= MAX_SAFE && IsStatusNonce(nonce) && |raw| <= STATUS_MAX && Undecorated(raw) == StatusLine(pid, nonce)
    ensures ParseStatus(utf8, raw, pid, nonce) == Enrolled
  {
    hide Join, Fields, Numeral, FormatNano, Undecorated, IsHex;
    var text := Undecorated(raw);
    var f := [ENROLLED, FormatNano(pid), nonce];
    FormatIsDecimal(pid);
    FormatNames(pid);
    NoSpace(pid, nonce);
    assert text[..|text| - 1] == Join(f, ' ');
    FieldsJoin(f, ' ');
    PlainLine(pid, nonce);
  }

  lemma NoSpace(pid: nat, nonce: string)
    requires IsStatusNonce(nonce)
    ensures forall x :: x in [ENROLLED, FormatNano(pid), nonce] ==> ' ' !in x
  {
  }

  /** The stream is accepted exactly when it is the one expected line, with or without a byte-order mark before it. */
  lemma EnrolledExactly(utf8: Utf8, raw: string, pid: nat, nonce: string)
    requires Decoder(utf8)
    ensures ParseStatus(utf8, raw, pid, nonce) == Enrolled <==>
            && 0 < pid <= MAX_SAFE && IsStatusNonce(nonce) && |raw| <= STATUS_MAX
            && Undecorated(raw) == StatusLine(pid, nonce)
  {
    hide ParseStatus, StatusLine, Undecorated, IsStatusNonce, Decoder;
    if ParseStatus(utf8, raw, pid, nonce) == Enrolled {
      EnrolledIsTheLine(utf8, raw, pid, nonce);
    } else if 0 < pid <= MAX_SAFE && IsStatusNonce(nonce) && |raw| <= STATUS_MAX && Undecorated(raw) == StatusLine(pid, nonce) {
      TheLineIsEnrolled(utf8, raw, pid, nonce);
    }
  }

  /** A launcher's line that is well-formed and not the expected one is told from noise: it names another process, or the
      right one and another launch. */
  lemma OthersLine(utf8: Utf8, pid: nat, nonce: string, otherPid: nat, otherNonce: string)
    requires Decoder(utf8) && IsStatusNonce(nonce) && IsStatusNonce(otherNonce) && otherPid > 0
    requires |StatusLine(otherPid, otherNonce)| <= STATUS_MAX
    ensures ParseStatus(utf8, StatusLine(otherPid, otherNonce), pid, nonce) ==
            if otherPid != pid || otherPid > MAX_SAFE then PidMismatch
            else if otherNonce != nonce then NonceMismatch else Enrolled
  {
    hide Join, Fields, Numeral, FormatNano, IsHex;
    var text := StatusLine(otherPid, otherNonce);
    var f := [ENROLLED, FormatNano(otherPid), otherNonce];
    FormatIsDecimal(otherPid);
    FormatNames(otherPid);
    NoSpace(otherPid, otherNonce);
    assert text[..|text| - 1] == Join(f, ' ');
    FieldsJoin(f, ' ');
    PlainLine(otherPid, otherNonce);
    assert text[0] != BOM[0];
  }

  lemma PlainLine(pid: nat, nonce: string)
    requires IsStatusNonce(nonce)
    ensures forall k :: 0 <= k < |StatusLine(pid, nonce)| ==> StatusLine(pid, nonce)[k] < 128 as char
  {
    hide FormatNano;
    var f := [ENROLLED, FormatNano(pid), nonce];
    assert Join(f[1..], ' ') == f[1] + [' '] + Join(f[1..][1..], ' ');
  }

  /** The status pipe as the scope keeps it: one byte more than the longest line it accepts, and no more. */
  class StatusBuffer {
    var status: string

    constructor ()
      ensures status == ""
    {
      status := "";
    }

    method NoteStatus(chunk: string)
      requires |status| <= STATUS_MAX + 1
      modifies this
      ensures |status| <= STATUS_MAX + 1 && status == Kept(old(status) + chunk)
    {
      if |status| > STATUS_MAX { return; }
      var remaining := STATUS_MAX + 1 - |status|;
      status := status + if remaining < |chunk| then chunk[..remaining] else chunk;
    }
  }

  function Kept(s: string): string { if |s| > STATUS_MAX + 1 then s[..STATUS_MAX + 1] else s }

  function Concat(chunks: seq<string>): string {
    if chunks == [] then "" else Concat(chunks[..|chunks| - 1]) + chunks[|chunks| - 1]
  }

  /** The buffer after a stream of chunks. */
  function Buffered(chunks: seq<string>): string {
    if chunks == [] then "" else Kept(Buffered(chunks[..|chunks| - 1]) + chunks[|chunks| - 1])
  }

  lemma {:induction false} BufferIsPrefix(chunks: seq<string>)
    ensures Buffered(chunks) == Kept(Concat(chunks))
  {
    if chunks != [] {
      var front, last := chunks[..|chunks| - 1], chunks[|chunks| - 1];
      BufferIsPrefix(front);
      var all := Concat(front);
      if |all| > STATUS_MAX + 1 {
        assert Kept(all) + last == all[..STATUS_MAX + 1] + last;
        assert (Kept(all) + last)[..STATUS_MAX + 1] == (all + last)[..STATUS_MAX + 1];
      }
    }
  }

  /** However the pipe splits the stream, the bounded buffer gives the verdict of the whole unbounded stream. */
  lemma VerdictIgnoresChunking(utf8: Utf8, chunks: seq<string>, pid: nat, nonce: string)
    ensures ParseStatus(utf8, Buffered(chunks), pid, nonce) == ParseStatus(utf8, Concat(chunks), pid, nonce)
  {
    BufferIsPrefix(chunks);
  }
}
