/** The strict fold of a version 1 journal: what balance a migration has to carry. */
module Legacy {
  import opened Wrappers
  import opened Money
  import opened LineLog
  import opened Journal

  datatype V1Data =
    | V1Reserve(callId: string, worst: JsValue)
    | V1Settle(callId: string, usd: JsValue, reported: Option<bool>)
    | V1Other   // not an object, no call id, or an unknown type

  /** One line as parsed; anything that does not even link to the chain is a record with a foreign link. */
  datatype V1Line = Blank | NotJson | NotRecord | V1Record(prev: Digest<V1Data>, seqNo: nat, hash: Digest<V1Data>, data: V1Data)

  type V1Parser = bytes -> V1Line

  const V1_GENESIS: Digest<V1Data> := Genesis(0)

  datatype V1Call = V1Call(callId: string, worst: nat, settled: bool, usd: Option<nat>)

  /** The calls in the order they were reserved, and the chain so far. */
  datatype V1State = V1State(calls: seq<V1Call>, tip: Digest<V1Data>, seqNo: nat)

  function CallAt(calls: seq<V1Call>, callId: string): (i: nat)
    ensures i <= |calls|
    ensures i < |calls| ==> calls[i].callId == callId
    ensures forall j :: 0 <= j < i ==> calls[j].callId != callId
  {
    FirstAt(calls, (c: V1Call) => c.callId, callId)
  }

  /** A second reservation of an id, an orphan or second settlement, or an inexact amount is corruption. */
  function ApplyV1(calls: seq<V1Call>, d: V1Data): Option<seq<V1Call>> {
    match d
    case V1Reserve(callId, worst) =>
      if CallAt(calls, callId) < |calls| || UsdToNano(worst).Refused? then None
      else Some(calls + [V1Call(callId, UsdToNano(worst).value, false, None)])
    case V1Settle(callId, usd, reported) =>
      var i := CallAt(calls, callId);
      if i == |calls| || calls[i].settled || reported.None? then None
      else if !reported.value then Some(calls[i := calls[i].(settled := true, usd := None)])
      else if UsdToNano(usd).Refused? then None
      else Some(calls[i := calls[i].(settled := true, usd := Some(UsdToNano(usd).value))])
    case V1Other => None
  }

  function StepV1(s: V1State, line: V1Line): Option<V1State> {
    match line
    case V1Record(prev, seqNo, hash, data) =>
      if prev != s.tip || seqNo != s.seqNo || hash != RecordHash(s.tip, s.seqNo, data) then None
      else
        (match ApplyV1(s.calls, data)
         case None => None
         case Some(calls) => Some(V1State(calls, hash, s.seqNo + 1)))
    case _ => None
  }

  /** Every line must extend the chain, except an unterminated last line that is no JSON at all. */
  function FoldV1(parse: V1Parser, raw: bytes, s: V1State): Option<V1State>
    decreases |raw|
  {
    if raw == [] then Some(s)
    else
      var k := LineLength(raw);
      var line := parse(raw[..k]);
      if k == |raw| && (line.Blank? || line.NotJson?) then Some(s)
      else
        match StepV1(s, line)
        case None => None
        case Some(t) => if k == |raw| then Some(t) else FoldV1(parse, raw[k + 1..], t)
  }

  const V1_START := V1State([], V1_GENESIS, 0)

  function Charge(c: V1Call): nat {
    if c.settled && c.usd.Some? then c.usd.value else c.worst
  }

  function SumCharges(calls: seq<V1Call>): nat {
    if calls == [] then 0 else SumCharges(calls[..|calls| - 1]) + Charge(calls[|calls| - 1])
  }

  /** What a migration may carry: how many records, and their balance, which the number it will be reserved as
      must denote exactly. */
  datatype LegacyFold = LegacyFold(records: nat, nano: nat)

  /** The double nearest to an amount of nano-USD. Rounding is not modelled: any function may be given. */
  type NanoToUsd = nat -> JsValue

  function FoldLegacy(parse: V1Parser, asUsd: NanoToUsd, raw: bytes): Option<LegacyFold> {
    match FoldV1(parse, raw, V1_START)
    case None => None
    case Some(s) =>
      var nano := SumCharges(s.calls);
      if nano > MAX_NANO || UsdToNano(asUsd(nano)) != Ok(nano) then None
      else Some(LegacyFold(s.seqNo, nano))
  }

  // ---- the loops of `foldLegacyV1Bytes` ----

  lemma FoldV1First(parse: V1Parser, raw: bytes, s: V1State)
    requires raw != []
    ensures var k := LineLength(raw);
            var line := parse(raw[..k]);
            if k == |raw| && (line.Blank? || line.NotJson?) then FoldV1(parse, raw, s) == Some(s)
            else
              match StepV1(s, line)
              case None => FoldV1(parse, raw, s).None?
              case Some(t) => FoldV1(parse, raw, s) == if k == |raw| then FoldV1(parse, [], t) else FoldV1(parse, raw[k + 1..], t)
  {
  }

  method FoldLines(parse: V1Parser, raw: bytes) returns (r: Option<V1State>)
    ensures r == FoldV1(parse, raw, V1_START)
  {
    var live: seq<V1Call> := [];
    var tip := V1_GENESIS;
    var seqNo, at := 0, 0;
    hide LineLength, FoldV1, CallAt, UsdToNano;
    assert raw[0..] == raw;
    while at < |raw|
      invariant 0 <= at <= |raw|
      invariant FoldV1(parse, raw, V1_START) == FoldV1(parse, raw[at..], V1State(live, tip, seqNo))
    {
      var rest := raw[at..];
      var k := LineLength(rest);
      var unterminated := k == |rest|;
      FoldV1First(parse, rest, V1State(live, tip, seqNo));
      assert !unterminated ==> rest[k + 1..] == raw[at + k + 1..];
      assert raw[|raw|..] == [];
      var line := parse(rest[..k]);
      if unterminated && (line.Blank? || line.NotJson?) { return Some(V1State(live, tip, seqNo)); }
      if !line.V1Record? || line.prev != tip || line.seqNo != seqNo || line.hash != RecordHash(tip, seqNo, line.data) {
        return None;
      }
      match line.data {
        case V1Reserve(callId, worst) =>
          if CallAt(live, callId) < |live| || UsdToNano(worst).Refused? { return None; }
          live := live + [V1Call(callId, UsdToNano(worst).value, false, None)];
        case V1Settle(callId, usd, reported) =>
          var i := CallAt(live, callId);
          if i == |live| || live[i].settled || reported.None? { return None; }
          if reported.value && UsdToNano(usd).Refused? { return None; }
          live := live[i := live[i].(settled := true, usd := if reported.value then Some(UsdToNano(usd).value) else None)];
        case V1Other => return None;
      }
      tip := line.hash;
      seqNo := seqNo + 1;
      at := if unterminated then |raw| else at + k + 1;
    }
    assert raw[at..] == [];
    FoldV1Nothing(parse, V1State(live, tip, seqNo));
    return Some(V1State(live, tip, seqNo));
  }

  lemma FoldV1Nothing(parse: V1Parser, s: V1State)
    ensures FoldV1(parse, [], s) == Some(s)
  {
  }

  method FoldLegacyV1Bytes(parse: V1Parser, asUsd: NanoToUsd, raw: bytes) returns (r: Option<LegacyFold>)
    ensures r == FoldLegacy(parse, asUsd, raw)
    ensures forall f :: r == Some(f) <==> CanCarry(parse, asUsd, raw, f)
  {
    forall f ensures FoldLegacy(parse, asUsd, raw) == Some(f) <==> CanCarry(parse, asUsd, raw, f) {
      FoldsExactly(parse, asUsd, raw, f);
    }
    hide FoldV1, UsdToNano, CanCarry;
    var folded := FoldLines(parse, raw);
    if folded.None? { return None; }
    var live := folded.value.calls;
    var nano := 0;
    for i := 0 to |live|
      invariant nano == SumCharges(live[..i])
    {
      assert live[..i + 1][..i] == live[..i];
      nano := nano + (if live[i].settled && live[i].usd.Some? then live[i].usd.value else live[i].worst);
    }
    assert live[..|live|] == live;
    if nano > MAX_NANO || UsdToNano(asUsd(nano)) != Ok(nano) { return None; }
    return Some(LegacyFold(folded.value.seqNo, nano));
  }

  // ---- the balance, said of the records themselves ----

  predicate Settles(datas: seq<V1Data>, j: nat, callId: string)
    requires j < |datas|
  {
    datas[j].V1Settle? && datas[j].callId == callId
  }

  /** The reported amount some settlement of the call gives, if one does. */
  function ReportedFor(datas: seq<V1Data>, callId: string): Option<nat> {
    if datas == [] then None
    else
      var n := |datas| - 1;
      if Settles(datas, n, callId) && datas[n].reported == Some(true) && UsdToNano(datas[n].usd).Ok?
      then Some(UsdToNano(datas[n].usd).value)
      else ReportedFor(datas[..n], callId)
  }

  /** What a reservation still costs: its reported amount if it has one, and its worst case otherwise. */
  function Owed(datas: seq<V1Data>, i: nat): nat
    requires i < |datas| && datas[i].V1Reserve?
  {
    match ReportedFor(datas, datas[i].callId)
    case Some(usd) => usd
    case None => if UsdToNano(datas[i].worst).Ok? then UsdToNano(datas[i].worst).value else 0
  }

  function OwedUpTo(datas: seq<V1Data>, n: nat): nat
    requires n <= |datas|
  {
    if n == 0 then 0
    else OwedUpTo(datas, n - 1) + if datas[n - 1].V1Reserve? then Owed(datas, n - 1) else 0
  }

  function Balance(datas: seq<V1Data>): nat { OwedUpTo(datas, |datas|) }

  /** No call id is reserved twice, so no reservation replaces another; none is settled before it is reserved, or
      twice; and every amount is exact. */
  ghost predicate Strict(datas: seq<V1Data>) {
    && (forall d :: d in datas ==> !d.V1Other?)
    && (forall i, j :: 0 <= i < j < |datas| && datas[i].V1Reserve? && datas[j].V1Reserve? ==>
          datas[i].callId != datas[j].callId)
    && (forall i, j :: 0 <= i < j < |datas| && datas[i].V1Settle? && datas[j].V1Settle? ==>
          datas[i].callId != datas[j].callId)
    && (forall j :: 0 <= j < |datas| && datas[j].V1Settle? ==>
          exists i :: 0 <= i < j && datas[i].V1Reserve? && datas[i].callId == datas[j].callId)
    && (forall d :: d in datas && d.V1Reserve? ==> UsdToNano(d.worst).Ok?)
    && (forall d :: d in datas && d.V1Settle? ==> d.reported.Some? && (d.reported.value ==> UsdToNano(d.usd).Ok?))
  }

  predicate SettledIn(datas: seq<V1Data>, callId: string) {
    exists j :: 0 <= j < |datas| && Settles(datas, j, callId)
  }

  predicate ReservedAt(datas: seq<V1Data>, i: nat, callId: string) {
    i < |datas| && datas[i].V1Reserve? && datas[i].callId == callId
  }

  /** The calls of the fold are the reservations of the records, each with what settled it. */
  ghost predicate Tracks(datas: seq<V1Data>, calls: seq<V1Call>) {
    && (forall k :: 0 <= k < |calls| ==> CallAt(calls, calls[k].callId) == k)
    && (forall i :: 0 <= i < |datas| && datas[i].V1Reserve? ==> CallAt(calls, datas[i].callId) < |calls|)
    && (forall c :: c in calls ==> CallTracks(datas, c))
  }

  ghost predicate CallTracks(datas: seq<V1Data>, c: V1Call) {
    && (c.settled <==> SettledIn(datas, c.callId))
    && c.usd == ReportedFor(datas, c.callId)
    && exists i: nat :: ReservedAt(datas, i, c.callId) && UsdToNano(datas[i].worst) == Ok(c.worst)
  }

  lemma ReportedForMore(datas: seq<V1Data>, d: V1Data, callId: string)
    ensures ReportedFor(datas + [d], callId) ==
            if d.V1Settle? && d.callId == callId && d.reported == Some(true) && UsdToNano(d.usd).Ok?
            then Some(UsdToNano(d.usd).value) else ReportedFor(datas, callId)
    ensures SettledIn(datas + [d], callId) <==> SettledIn(datas, callId) || (d.V1Settle? && d.callId == callId)
  {
    hide UsdToNano;
    var more := datas + [d];
    assert more[..|more| - 1] == datas && more[|datas|] == d;
    if SettledIn(datas, callId) {
      var j :| 0 <= j < |datas| && Settles(datas, j, callId);
      assert Settles(more, j, callId);
    }
    if d.V1Settle? && d.callId == callId { assert Settles(more, |datas|, callId); }
    if SettledIn(more, callId) {
      var j :| 0 <= j < |more| && Settles(more, j, callId);
      assert j < |datas| ==> Settles(datas, j, callId);
    }
  }

  lemma {:induction false} NotSettledNotReported(datas: seq<V1Data>, callId: string)
    requires !SettledIn(datas, callId)
    ensures ReportedFor(datas, callId).None?
  {
    hide UsdToNano;
    if datas != [] {
      var n := |datas| - 1;
      assert datas[..n] + [datas[n]] == datas;
      ReportedForMore(datas[..n], datas[n], callId);
      NotSettledNotReported(datas[..n], callId);
    }
  }

  /** A record that reports nothing moves nobody's balance. */
  lemma {:induction false} OwedUnmoved(datas: seq<V1Data>, d: V1Data, n: nat)
    requires n <= |datas| && !(d.V1Settle? && d.reported == Some(true) && UsdToNano(d.usd).Ok?)
    ensures OwedUpTo(datas + [d], n) == OwedUpTo(datas, n)
  {
    if n > 0 {
      OwedUnmoved(datas, d, n - 1);
      if datas[n - 1].V1Reserve? { ReportedForMore(datas, d, datas[n - 1].callId); }
    }
  }

  /** A reported settlement moves the balance of the one call it settles, from worst case to actual. */
  lemma {:induction false} OwedMoved(datas: seq<V1Data>, d: V1Data, r: nat, n: nat)
    requires Strict(datas) && n <= |datas| && d.V1Settle? && ReservedAt(datas, r, d.callId)
    requires d.reported == Some(true) && UsdToNano(d.usd).Ok? && ReportedFor(datas, d.callId).None?
    ensures OwedUpTo(datas + [d], n) ==
            OwedUpTo(datas, n) + if r < n then UsdToNano(d.usd).value - UsdToNano(datas[r].worst).value else 0
  {
    hide UsdToNano;
    if n > 0 {
      OwedMoved(datas, d, r, n - 1);
      if datas[n - 1].V1Reserve? {
        ReportedForMore(datas, d, datas[n - 1].callId);
        assert datas[r] in datas;
        assert n - 1 != r ==> datas[n - 1].callId != d.callId;
      }
    }
  }

  lemma CallAtUpdate(calls: seq<V1Call>, i: nat, c: V1Call, id: string)
    requires i < |calls| && c.callId == calls[i].callId
    ensures CallAt(calls[i := c], id) == CallAt(calls, id)
  {
    var more := calls[i := c];
    assert forall j :: 0 <= j < |calls| ==> more[j].callId == calls[j].callId;
  }

  lemma CallAtAppend(calls: seq<V1Call>, c: V1Call, id: string)
    ensures CallAt(calls + [c], id) ==
            if CallAt(calls, id) < |calls| then CallAt(calls, id) else if c.callId == id then |calls| else |calls| + 1
  {
    var more := calls + [c];
    assert forall j :: 0 <= j < |calls| ==> more[j] == calls[j];
    assert more[|calls|] == c;
  }

  lemma {:induction false} SumUpdate(calls: seq<V1Call>, i: nat, c: V1Call)
    requires i < |calls|
    ensures SumCharges(calls[i := c]) == SumCharges(calls) - Charge(calls[i]) + Charge(c)
  {
    var n := |calls| - 1;
    var more := calls[i := c];
    if i == n {
      assert more[..n] == calls[..n];
    } else {
      SumUpdate(calls[..n], i, c);
      assert more[..n] == calls[..n][i := c];
    }
  }

  /** What the fold keeps: its records are the chain, they are strict, and its sum is their balance. */
  ghost predicate Faithful(datas: seq<V1Data>, calls: seq<V1Call>) {
    Strict(datas) && Tracks(datas, calls) && SumCharges(calls) == Balance(datas)
  }

  lemma CallTracksMore(datas: seq<V1Data>, d: V1Data, c: V1Call)
    requires CallTracks(datas, c) && !(d.V1Settle? && d.callId == c.callId)
    ensures CallTracks(datas + [d], c)
  {
    hide UsdToNano;
    ReportedForMore(datas, d, c.callId);
    var i: nat :| ReservedAt(datas, i, c.callId) && UsdToNano(datas[i].worst) == Ok(c.worst);
    assert ReservedAt(datas + [d], i, c.callId);
  }

  lemma OrphanIsUnsettled(datas: seq<V1Data>, calls: seq<V1Call>, callId: string)
    requires Strict(datas) && Tracks(datas, calls) && CallAt(calls, callId) == |calls|
    ensures !SettledIn(datas, callId)
  {
    forall j | 0 <= j < |datas| && datas[j].V1Settle? ensures datas[j].callId != callId {
      var i :| 0 <= i < j && datas[i].V1Reserve? && datas[i].callId == datas[j].callId;
      assert CallAt(calls, datas[i].callId) < |calls|;
    }
  }

  lemma ReserveTracks(datas: seq<V1Data>, calls: seq<V1Call>, d: V1Data, c: V1Call)
    requires Strict(datas) && Tracks(datas, calls) && d.V1Reserve? && CallAt(calls, d.callId) == |calls|
    requires UsdToNano(d.worst) == Ok(c.worst) && c == V1Call(d.callId, c.worst, false, None)
    ensures Tracks(datas + [d], calls + [c])
  {
    hide UsdToNano, FirstAt, SettledIn, ReportedFor, Strict;
    var more := datas + [d];
    OrphanIsUnsettled(datas, calls, d.callId);
    NotSettledNotReported(datas, d.callId);
    ReportedForMore(datas, d, d.callId);
    assert ReservedAt(more, |datas|, d.callId);
    assert CallTracks(more, c);
    forall e | e in calls ensures CallTracks(more, e) { CallTracksMore(datas, d, e); }
    forall id ensures CallAt(calls + [c], id) ==
                      if CallAt(calls, id) < |calls| then CallAt(calls, id) else if c.callId == id then |calls| else |calls| + 1
    { CallAtAppend(calls, c, id); }
  }

  lemma {:induction false} ReserveFaithful(datas: seq<V1Data>, calls: seq<V1Call>, d: V1Data)
    requires Faithful(datas, calls) && d.V1Reserve? && ApplyV1(calls, d).Some?
    ensures Faithful(datas + [d], ApplyV1(calls, d).value)
  {
    hide UsdToNano, FirstAt, Tracks, Strict, SettledIn, ReportedFor;
    var c := V1Call(d.callId, UsdToNano(d.worst).value, false, None);
    ReserveTracks(datas, calls, d, c);
    ReserveStrict(datas, calls, d);
    OrphanIsUnsettled(datas, calls, d.callId);
    NotSettledNotReported(datas, d.callId);
    ReportedForMore(datas, d, d.callId);
    OwedUnmoved(datas, d, |datas|);
    assert (calls + [c])[..|calls|] == calls;
  }

  lemma {:induction false} ReserveStrict(datas: seq<V1Data>, calls: seq<V1Call>, d: V1Data)
    requires Strict(datas) && Tracks(datas, calls) && d.V1Reserve? && UsdToNano(d.worst).Ok?
    requires CallAt(calls, d.callId) == |calls|
    ensures Strict(datas + [d])
  {
    hide UsdToNano, CallAt;
    var more := datas + [d];
    forall j | 0 <= j < |more| && more[j].V1Settle?
      ensures exists i :: 0 <= i < j && more[i].V1Reserve? && more[i].callId == more[j].callId {
      assert more[j] == datas[j];
      var i :| 0 <= i < j && datas[i].V1Reserve? && datas[i].callId == datas[j].callId;
      assert more[i] == datas[i];
    }
  }

  lemma {:induction false} SettleStrict(datas: seq<V1Data>, d: V1Data, r: nat)
    requires Strict(datas) && d.V1Settle? && ReservedAt(datas, r, d.callId) && !SettledIn(datas, d.callId)
    requires d.reported.Some? && (d.reported.value ==> UsdToNano(d.usd).Ok?)
    ensures Strict(datas + [d])
  {
    hide UsdToNano;
    var more := datas + [d];
    forall j | 0 <= j < |datas| && datas[j].V1Settle? ensures datas[j].callId != d.callId {
      assert !Settles(datas, j, d.callId);
    }
    forall j | 0 <= j < |more| && more[j].V1Settle?
      ensures exists i :: 0 <= i < j && more[i].V1Reserve? && more[i].callId == more[j].callId {
      if j < |datas| {
        var i :| 0 <= i < j && datas[i].V1Reserve? && datas[i].callId == datas[j].callId;
        assert more[i] == datas[i];
      } else {
        assert more[r] == datas[r];
      }
    }
  }

  lemma SettledCallTracks(datas: seq<V1Data>, d: V1Data, c: V1Call, r: nat)
    requires d.V1Settle? && d.callId == c.callId && c.settled
    requires d.reported.Some? && (d.reported.value ==> UsdToNano(d.usd).Ok?) && ReportedFor(datas, d.callId).None?
    requires c.usd == if d.reported.value then Some(UsdToNano(d.usd).value) else None
    requires ReservedAt(datas, r, d.callId) && UsdToNano(datas[r].worst) == Ok(c.worst)
    ensures CallTracks(datas + [d], c)
  {
    hide UsdToNano, ReportedFor, SettledIn;
    ReportedForMore(datas, d, d.callId);
    assert ReservedAt(datas + [d], r, d.callId);
  }

  lemma {:induction false} SettleTracks(datas: seq<V1Data>, calls: seq<V1Call>, d: V1Data, i: nat, c: V1Call, r: nat)
    requires Tracks(datas, calls) && d.V1Settle? && i == CallAt(calls, d.callId) < |calls|
    requires d.reported.Some? && (d.reported.value ==> UsdToNano(d.usd).Ok?) && ReportedFor(datas, d.callId).None?
    requires c == calls[i].(settled := true, usd := if d.reported.value then Some(UsdToNano(d.usd).value) else None)
    requires ReservedAt(datas, r, d.callId) && UsdToNano(datas[r].worst) == Ok(c.worst)
    ensures Tracks(datas + [d], calls[i := c])
  {
    hide UsdToNano, ReportedFor, CallTracks, ReservedAt, CallAt;
    var after := calls[i := c];
    SettledCallTracks(datas, d, c, r);
    forall id ensures CallAt(after, id) == CallAt(calls, id) { CallAtUpdate(calls, i, c, id); }
    forall e | e in after ensures CallTracks(datas + [d], e) {
      if e != c {
        var k :| 0 <= k < |after| && after[k] == e;
        assert CallAt(calls, calls[k].callId) == k;
        CallTracksMore(datas, d, e);
      }
    }
  }

  lemma {:induction false} SettleFaithful(datas: seq<V1Data>, calls: seq<V1Call>, d: V1Data)
    requires Faithful(datas, calls) && d.V1Settle? && ApplyV1(calls, d).Some?
    ensures Faithful(datas + [d], ApplyV1(calls, d).value)
  {
    hide UsdToNano, Strict, Tracks;
    var i := CallAt(calls, d.callId);
    var c := calls[i].(settled := true, usd := if d.reported.value then Some(UsdToNano(d.usd).value) else None);
    assert ApplyV1(calls, d) == Some(calls[i := c]);
    var r := SettledCall(datas, calls, d.callId);
    SettleTracks(datas, calls, d, i, c, r);
    SettleStrict(datas, d, r);
    SumUpdate(calls, i, c);
    if d.reported == Some(true) { OwedMoved(datas, d, r, |datas|); } else { OwedUnmoved(datas, d, |datas|); }
  }

  /** An unsettled call has its reservation, and nothing reported. */
  lemma SettledCall(datas: seq<V1Data>, calls: seq<V1Call>, callId: string) returns (r: nat)
    requires Tracks(datas, calls) && CallAt(calls, callId) < |calls| && !calls[CallAt(calls, callId)].settled
    ensures ReservedAt(datas, r, callId) && UsdToNano(datas[r].worst) == Ok(calls[CallAt(calls, callId)].worst)
    ensures !SettledIn(datas, callId) && ReportedFor(datas, callId).None?
  {
    hide UsdToNano;
    var c := calls[CallAt(calls, callId)];
    assert CallTracks(datas, c);
    NotSettledNotReported(datas, callId);
    r :| ReservedAt(datas, r, c.callId) && UsdToNano(datas[r].worst) == Ok(c.worst);
  }

  // ---- which files are accepted ----

  function ChainTo(datas: seq<V1Data>): Digest<V1Data> {
    if datas == [] then V1_GENESIS
    else RecordHash(ChainTo(datas[..|datas| - 1]), |datas| - 1, datas[|datas| - 1])
  }

  /** The line is record `j` of the chain over `datas`: it names the one before it, its place, its payload and itself. */
  predicate IsRecord(line: V1Line, datas: seq<V1Data>, j: nat) {
    j < |datas| && line == V1Record(ChainTo(datas[..j]), j, ChainTo(datas[..j + 1]), datas[j])
  }

  /** The lines of the file are the records of `datas` from `m` on, one for one and in order. What follows the last
      newline is one more record, or no JSON at all. */
  ghost predicate HoldsFrom(parse: V1Parser, raw: bytes, datas: seq<V1Data>, m: nat) { AreRecords(parse, Split(raw), datas, m) }

  ghost predicate AreRecords(parse: V1Parser, f: TextFile, datas: seq<V1Data>, m: nat) {
    && (forall j: nat :: j < |f.lines| ==> IsRecord(parse(f.lines[j]), datas, m + j))
    && if f.tail == [] || parse(f.tail).Blank? || parse(f.tail).NotJson? then |datas| == m + |f.lines|
       else |datas| == m + |f.lines| + 1 && IsRecord(parse(f.tail), datas, m + |f.lines|)
  }

  lemma HoldsFirst(parse: V1Parser, raw: bytes, datas: seq<V1Data>, m: nat)
    requires raw != []
    ensures var k := LineLength(raw);
            var line := parse(raw[..k]);
            HoldsFrom(parse, raw, datas, m) <==>
            if k == |raw| && (line.Blank? || line.NotJson?) then |datas| == m
            else if k == |raw| then |datas| == m + 1 && IsRecord(line, datas, m)
            else IsRecord(line, datas, m) && HoldsFrom(parse, raw[k + 1..], datas, m + 1)
  {
    hide LineLength, IsRecord, Split, AreRecords;
    var k := LineLength(raw);
    if k == |raw| {
      assert raw[..k] == raw;
      SplitTail(raw);
      OnlyTail(parse, raw, datas, m);
    } else {
      assert raw == raw[..k] + [NL] + raw[k + 1..];
      SplitFirst(raw[..k], raw[k + 1..]);
      FirstLine(parse, raw[..k], Split(raw[k + 1..]), datas, m);
    }
  }

  lemma OnlyTail(parse: V1Parser, raw: bytes, datas: seq<V1Data>, m: nat)
    requires raw != []
    ensures var line := parse(raw);
            AreRecords(parse, TextFile([], raw), datas, m) <==>
            if line.Blank? || line.NotJson? then |datas| == m else |datas| == m + 1 && IsRecord(line, datas, m)
  {
    hide IsRecord;
  }

  lemma FirstLine(parse: V1Parser, x: bytes, g: TextFile, datas: seq<V1Data>, m: nat)
    ensures AreRecords(parse, TextFile([x] + g.lines, g.tail), datas, m) <==>
            IsRecord(parse(x), datas, m) && AreRecords(parse, g, datas, m + 1)
  {
    hide IsRecord;
    var f := TextFile([x] + g.lines, g.tail);
    assert f.lines[0] == x && forall j: nat :: j < |g.lines| ==> f.lines[j + 1] == g.lines[j];
    if AreRecords(parse, f, datas, m) {
      assert IsRecord(parse(f.lines[0]), datas, m + 0);
      forall j: nat | j < |g.lines| ensures IsRecord(parse(g.lines[j]), datas, m + 1 + j) {
        assert IsRecord(parse(f.lines[j + 1]), datas, m + (j + 1));
      }
    }
    if IsRecord(parse(x), datas, m) && AreRecords(parse, g, datas, m + 1) {
      forall j: nat | j < |f.lines| ensures IsRecord(parse(f.lines[j]), datas, m + j) {
        if j > 0 { assert IsRecord(parse(g.lines[j - 1]), datas, m + 1 + (j - 1)); }
      }
    }
  }

  /** The fold so far is the fold of these records. */
  ghost predicate FoldedAt(s: V1State, datas: seq<V1Data>) {
    Faithful(datas, s.calls) && s.tip == ChainTo(datas) && s.seqNo == |datas|
  }

  lemma StepFaithful(s: V1State, datas: seq<V1Data>, line: V1Line, t: V1State)
    requires FoldedAt(s, datas) && StepV1(s, line) == Some(t)
    ensures line.V1Record? && IsRecord(line, datas + [line.data], |datas|) && FoldedAt(t, datas + [line.data])
  {
    hide Faithful;
    var more := datas + [line.data];
    assert more[..|datas|] == datas && more[..|more|] == more;
    if line.data.V1Reserve? { ReserveFaithful(datas, s.calls, line.data); } else { SettleFaithful(datas, s.calls, line.data); }
  }

  /** What is accepted is strict, record by record. */
  lemma {:induction false} FoldFaithful(parse: V1Parser, raw: bytes, s: V1State, before: seq<V1Data>) returns (datas: seq<V1Data>)
    requires FoldedAt(s, before) && FoldV1(parse, raw, s).Some?
    ensures before <= datas && HoldsFrom(parse, raw, datas, |before|) && FoldedAt(FoldV1(parse, raw, s).value, datas)
    decreases |raw|
  {
    hide Faithful, LineLength, ApplyV1, IsRecord, HoldsFrom;
    datas := before;
    if raw == [] {
      HoldsNothing(parse, before);
    } else {
      FoldV1First(parse, raw, s);
      var k := LineLength(raw);
      var line := parse(raw[..k]);
      if k < |raw| || !(line.Blank? || line.NotJson?) {
        var t := StepV1(s, line).value;
        StepFaithful(s, before, line, t);
        datas := before + [line.data];
        FoldV1Nothing(parse, t);
        if k < |raw| {
          datas := FoldFaithful(parse, raw[k + 1..], t, before + [line.data]);
          SamePlace(line, before + [line.data], datas, |before|);
        }
      }
      HoldsFirst(parse, raw, datas, |before|);
    }
  }

  lemma HoldsNothing(parse: V1Parser, datas: seq<V1Data>)
    ensures HoldsFrom(parse, [], datas, |datas|)
  {
    SplitTail([]);
  }

  lemma SamePlace(line: V1Line, a: seq<V1Data>, b: seq<V1Data>, j: nat)
    requires a <= b && j < |a|
    ensures IsRecord(line, a, j) <==> IsRecord(line, b, j)
  {
    assert b[..j] == a[..j] && b[..j + 1] == a[..j + 1];
  }

  /** A record that keeps the list strict is applied. */
  lemma {:induction false} ApplyComplete(datas: seq<V1Data>, calls: seq<V1Call>, d: V1Data)
    requires Faithful(datas, calls) && Strict(datas + [d])
    ensures ApplyV1(calls, d).Some?
  {
    hide UsdToNano, CallAt, CallTracks, Balance, SumCharges;
    var more := datas + [d];
    assert more[|datas|] == d && d in more;
    assert forall k :: 0 <= k < |datas| ==> more[k] == datas[k];
    var i := CallAt(calls, d.callId);
    if d.V1Reserve? && i < |calls| {
      var r := TrackedCall(datas, calls, i);
    }
    if d.V1Settle? {
      var r :| 0 <= r < |datas| && more[r].V1Reserve? && more[r].callId == d.callId;
      SettledCallTracked(datas, calls, i);
    }
  }

  lemma TrackedCall(datas: seq<V1Data>, calls: seq<V1Call>, i: nat) returns (r: nat)
    requires Tracks(datas, calls) && i < |calls|
    ensures ReservedAt(datas, r, calls[i].callId)
  {
    hide UsdToNano, CallAt;
    assert CallTracks(datas, calls[i]);
    r :| ReservedAt(datas, r, calls[i].callId);
  }

  lemma SettledCallTracked(datas: seq<V1Data>, calls: seq<V1Call>, i: nat)
    requires Tracks(datas, calls) && i < |calls|
    ensures calls[i].settled <==> SettledIn(datas, calls[i].callId)
  {
    hide UsdToNano, CallAt;
    assert CallTracks(datas, calls[i]);
  }

  lemma StrictPrefix(datas: seq<V1Data>, n: nat)
    requires Strict(datas) && n <= |datas|
    ensures Strict(datas[..n])
  {
    hide UsdToNano;
    var p := datas[..n];
    forall d | d in p ensures d in datas { }
    forall j | 0 <= j < |p| && p[j].V1Settle? ensures exists i :: 0 <= i < j && p[i].V1Reserve? && p[i].callId == p[j].callId {
      var i :| 0 <= i < j && datas[i].V1Reserve? && datas[i].callId == datas[j].callId;
      assert p[i] == datas[i];
    }
  }

  /** A strict file is accepted whole. */
  lemma {:induction false} FoldComplete(parse: V1Parser, raw: bytes, s: V1State, m: nat, datas: seq<V1Data>)
    requires m <= |datas| && FoldedAt(s, datas[..m]) && HoldsFrom(parse, raw, datas, m) && Strict(datas)
    ensures FoldV1(parse, raw, s).Some? && FoldedAt(FoldV1(parse, raw, s).value, datas)
    decreases |raw|
  {
    hide Faithful, LineLength, ApplyV1, HoldsFrom, Strict;
    if raw == [] {
      HoldsOnly(parse, datas, m);
      assert datas[..m] == datas;
    } else {
      HoldsFirst(parse, raw, datas, m);
      FoldV1First(parse, raw, s);
      var k := LineLength(raw);
      var line := parse(raw[..k]);
      if k == |raw| && (line.Blank? || line.NotJson?) {
        assert datas[..m] == datas;
      } else {
        StrictPrefix(datas, m + 1);
        assert datas[..m + 1] == datas[..m] + [datas[m]];
        ApplyComplete(datas[..m], s.calls, datas[m]);
        var t := StepV1(s, line).value;
        StepFaithful(s, datas[..m], line, t);
        FoldV1Nothing(parse, t);
        if k < |raw| { FoldComplete(parse, raw[k + 1..], t, m + 1, datas); } else { assert datas[..m + 1] == datas; }
      }
    }
  }

  lemma HoldsOnly(parse: V1Parser, datas: seq<V1Data>, m: nat)
    requires HoldsFrom(parse, [], datas, m)
    ensures |datas| == m
  {
    SplitTail([]);
  }

  /** The file holds exactly these records, and they are strict. */
  ghost predicate FileHolds(parse: V1Parser, raw: bytes, datas: seq<V1Data>) { HoldsFrom(parse, raw, datas, 0) && Strict(datas) }

  /** What a migration may carry: the number of records of a strict file and their balance, when the number it is
      reserved as denotes it exactly. */
  ghost predicate CanCarry(parse: V1Parser, asUsd: NanoToUsd, raw: bytes, f: LegacyFold) {
    exists datas :: FileHolds(parse, raw, datas) && f == LegacyFold(|datas|, Balance(datas))
                    && f.nano <= MAX_NANO && UsdToNano(asUsd(f.nano)) == Ok(f.nano)
  }

  lemma NothingYet()
    ensures FoldedAt(V1_START, [])
  {
  }

  /** Main result, both ways. The fold answers with a count and a balance exactly when the lines of the file are, one
      for one, a strict list of records of that count and balance, which is exactly representable. */
  lemma FoldsExactly(parse: V1Parser, asUsd: NanoToUsd, raw: bytes, f: LegacyFold)
    ensures FoldLegacy(parse, asUsd, raw) == Some(f) <==> CanCarry(parse, asUsd, raw, f)
  {
    hide HoldsFrom, Strict, Tracks, Balance, UsdToNano, FoldV1;
    NothingYet();
    if FoldLegacy(parse, asUsd, raw) == Some(f) {
      var datas := FoldFaithful(parse, raw, V1_START, []);
      assert FileHolds(parse, raw, datas);
    }
    if CanCarry(parse, asUsd, raw, f) {
      var datas :| FileHolds(parse, raw, datas) && f == LegacyFold(|datas|, Balance(datas));
      assert datas[..0] == [];
      FoldComplete(parse, raw, V1_START, 0, datas);
    }
  }

  /** The file old code wrote: each record's line, in order. */
  function PrintV1(enc: V1Line -> bytes, datas: seq<V1Data>): seq<bytes> {
    seq(|datas|, j requires 0 <= j < |datas| => enc(V1Record(ChainTo(datas[..j]), j, ChainTo(datas[..j + 1]), datas[j])))
  }

  /** Every strict list of records, printed, folds to its length and its balance. */
  lemma PrintedFileFolds(parse: V1Parser, enc: V1Line -> bytes, asUsd: NanoToUsd, datas: seq<V1Data>)
    requires forall r: V1Line :: r.V1Record? ==> NL !in enc(r) && parse(enc(r)) == r
    requires Strict(datas) && Balance(datas) <= MAX_NANO && UsdToNano(asUsd(Balance(datas))) == Ok(Balance(datas))
    ensures FoldLegacy(parse, asUsd, Join(PrintV1(enc, datas))) == Some(LegacyFold(|datas|, Balance(datas)))
  {
    hide Strict, Balance, UsdToNano, FoldLegacy, ChainTo;
    var lines := PrintV1(enc, datas);
    SplitJoin(lines);
    assert FileHolds(parse, Join(lines), datas);
    FoldsExactly(parse, asUsd, Join(lines), LegacyFold(|datas|, Balance(datas)));
  }
}
