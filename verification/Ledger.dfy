/** The money records: what a journal of reservations and settlements means, and which record each ledger call
    proposes on it. */
module Ledger {
  import opened Wrappers
  import opened Money
  import opened Attest
  import opened LedgerSteps

  /** What a reservation is bound to; the adapter is represented by its replay identity digest. */
  datatype CallBinding = CallBinding(
    runNonce: string, callNonce: string, callId: string, reservationId: string, routeEpoch: nat,
    provider: string, model: string, attempt: nat,
    intentSha256: string, stdinSha256: string, stdinBytes: nat, adapter: Option<string>)

  datatype Data =
    | Reserve(callId: string, worstCaseNano: string, enforced: bool, ts: string, epoch: string, bind: CallBinding)
    | Settle(callId: string, usdNano: string, reported: bool, ts: string, epoch: string, bind: CallBinding,
             attest: Option<Attestation>)

  /** One generation of one run: its epoch, its run nonce, its attestation key, and whether this host could
      have contained a provider in a cgroup. */
  datatype Context = Context(epoch: string, runNonce: string, key: Key, strongScopes: bool)

  predicate ValidBinding(b: CallBinding) {
    && IsNonce(b.runNonce) && IsNonce(b.callNonce) && b.callId != "" && IsNonce(b.reservationId)
    && b.provider != "" && b.model != "" && IsSha256(b.intentSha256) && IsSha256(b.stdinSha256)
  }

  // ---- fold-time checks of one record ----

  /** An attestation is authentic and describes the very record it rides on. */
  predicate BoundTo(ctx: Context, s: Data, a: Attestation)
    requires s.Settle?
  {
    var p, b := a.payload, s.bind;
    && Verifies(ctx.key, a)
    && p.ledgerEpoch == ctx.epoch && p.runNonce == ctx.runNonce
    && p.callId == s.callId && p.callId == b.callId && p.callNonce == b.callNonce
    && p.reservationId == b.reservationId && p.routeEpoch == b.routeEpoch
    && p.provider == b.provider && p.model == b.model && p.attempt == b.attempt
    && (b.adapter.Some? ==> p.providerKind == b.adapter.value)
    && p.usdNano == s.usdNano
    && s.reported == (p.costProvenance == ProviderReported)
  }

  predicate SchemaOk(ctx: Context, d: Data) {
    && d.ts != "" && d.callId != "" && d.epoch == ctx.epoch
    && ValidBinding(d.bind) && d.bind.runNonce == ctx.runNonce && d.bind.callId == d.callId
    && match d
       case Reserve(_, worst, _, _, _, _) => ParseNano(worst).Ok?
       case Settle(_, usd, _, _, _, _, attest) => ParseNano(usd).Ok? && (attest.Some? ==> BoundTo(ctx, d, attest.value))
  }

  predicate CostIsTrusted(ctx: Context, s: Data)
    requires s.Settle?
  {
    s.attest.Some? && s.reported && BoundTo(ctx, s, s.attest.value)
    && s.attest.value.payload.costProvenance == ProviderReported
  }

  predicate AuthorizesFallback(ctx: Context, s: Data)
    requires s.Settle?
  {
    s.attest.Some? && BoundTo(ctx, s, s.attest.value) && s.attest.value.payload.kind == TrustedFallback
  }

  // ---- per-call state ----

  datatype Reservation = Reservation(
    callId: string, worstCase: nat, enforced: bool, settled: bool,
    trustedUsd: Option<nat>, fallbackAuthorized: bool, over: bool, bind: CallBinding)

  /** The calls in insertion order, as the map of the fold keeps them, and the call nonces already spent. */
  datatype Calls = Calls(entries: seq<Reservation>, nonces: set<string>)

  function IndexOf(entries: seq<Reservation>, callId: string): (i: nat)
    ensures i <= |entries|
    ensures i < |entries| ==> entries[i].callId == callId
    ensures forall j :: 0 <= j < i ==> entries[j].callId != callId
  {
    FirstAt(entries, (c: Reservation) => c.callId, callId)
  }

  predicate Has(entries: seq<Reservation>, callId: string) {
    IndexOf(entries, callId) < |entries|
  }

  function SettleEntry(ctx: Context, e: Reservation, s: Data): Option<Reservation>
    requires s.Settle?
  {
    if e.settled || e.bind != s.bind then None
    else if !CostIsTrusted(ctx, s) then
      Some(e.(settled := true, trustedUsd := None, fallbackAuthorized := AuthorizesFallback(ctx, s)))
    else
      match ParseNano(s.usdNano)
      case Refused(_) => None
      case Ok(usd) =>
        Some(e.(settled := true, trustedUsd := Some(usd), fallbackAuthorized := AuthorizesFallback(ctx, s),
                over := e.over || (e.enforced && usd > e.worstCase)))
  }

  /** One record moves the calls, or is a conflicting record and corrupts the fold. */
  function ApplyRecord(ctx: Context, calls: Calls, d: Data): Option<Calls> {
    var i := IndexOf(calls.entries, d.callId);
    match d
    case Reserve(callId, worst, enforced, _, _, bind) =>
      if i < |calls.entries| || bind.callNonce in calls.nonces then None
      else
        (match ParseNano(worst)
         case Refused(_) => None
         case Ok(n) =>
           Some(Calls(calls.entries + [Reservation(callId, n, enforced, false, None, false, false, bind)],
                      calls.nonces + {bind.callNonce})))
    case Settle(_, _, _, _, _, _, _) =>
      if i == |calls.entries| then None
      else
        match SettleEntry(ctx, calls.entries[i], d)
        case None => None
        case Some(e) => Some(calls.(entries := calls.entries[i := e]))
  }

  function FoldCalls(ctx: Context, datas: seq<Data>): Option<Calls> {
    if datas == [] then Some(Calls([], {}))
    else
      match FoldCalls(ctx, datas[..|datas| - 1])
      case None => None
      case Some(calls) => ApplyRecord(ctx, calls, datas[|datas| - 1])
  }

  lemma FoldOneMore(ctx: Context, datas: seq<Data>, d: Data)
    ensures FoldCalls(ctx, datas + [d]) ==
            match FoldCalls(ctx, datas) case None => None case Some(calls) => ApplyRecord(ctx, calls, d)
  {
    var more := datas + [d];
    assert more[..|more| - 1] == datas;
  }

  function Cost(e: Reservation): nat {
    if e.settled && e.trustedUsd.Some? then e.trustedUsd.value else e.worstCase
  }

  function SpendOf(entries: seq<Reservation>): nat {
    if entries == [] then 0 else SpendOf(entries[..|entries| - 1]) + Cost(entries[|entries| - 1])
  }

  // ---- the loops of the fold ----

  method FoldReservations(ctx: Context, datas: seq<Data>) returns (r: Option<Calls>)
    ensures r == FoldCalls(ctx, datas)
  {
    hide FirstAt, IndexOf;
    var entries: seq<Reservation> := [];
    var spentNonces: set<string> := {};
    var i := 0;
    while i < |datas|
      invariant 0 <= i <= |datas|
      invariant FoldCalls(ctx, datas[..i]) == Some(Calls(entries, spentNonces))
    {
      var d := datas[i];
      FoldOneMore(ctx, datas[..i], d);
      assert datas[..i + 1] == datas[..i] + [d];
      var at := IndexOf(entries, d.callId);
      match d {
        case Reserve(callId, worst, enforced, _, _, bind) =>
          var n := ParseNano(worst);
          if at < |entries| || bind.callNonce in spentNonces || n.Refused? {
            FoldNoneStays(ctx, datas, i + 1);
            return None;
          }
          spentNonces := spentNonces + {bind.callNonce};
          entries := entries + [Reservation(callId, n.value, enforced, false, None, false, false, bind)];
        case Settle(_, _, _, _, _, _, _) =>
          var e := if at == |entries| then None else SettleEntry(ctx, entries[at], d);
          if e.None? {
            FoldNoneStays(ctx, datas, i + 1);
            return None;
          }
          entries := entries[at := e.value];
      }
      i := i + 1;
    }
    assert datas[..i] == datas;
    return Some(Calls(entries, spentNonces));
  }

  lemma {:induction false} FoldNoneStays(ctx: Context, datas: seq<Data>, i: nat)
    requires i <= |datas| && FoldCalls(ctx, datas[..i]).None?
    ensures FoldCalls(ctx, datas).None?
    decreases |datas|
  {
    if i < |datas| {
      var front := datas[..|datas| - 1];
      assert front[..i] == datas[..i];
      FoldNoneStays(ctx, front, i);
    } else {
      assert datas[..i] == datas;
    }
  }

  method Spend(entries: seq<Reservation>) returns (total: nat)
    ensures total == SpendOf(entries)
  {
    total := 0;
    for i := 0 to |entries|
      invariant total == SpendOf(entries[..i])
    {
      assert entries[..i + 1][..i] == entries[..i];
      total := total + (if entries[i].settled && entries[i].trustedUsd.Some? then entries[i].trustedUsd.value
                        else entries[i].worstCase);
    }
    assert entries[..|entries|] == entries;
  }

  // ---- what each call proposes ----

  predicate NonceReserved(datas: seq<Data>, nonce: string) {
    exists i :: 0 <= i < |datas| && datas[i].Reserve? && datas[i].bind.callNonce == nonce
  }

  /** Amounts are already exact nano-USD here; a budget of zero means unlimited, not enforced. */
  function ReserveDecision(ctx: Context, bind: CallBinding, worstCase: nat, budget: nat, ts: string, datas: seq<Data>)
    : Decision<Data>
  {
    if !ValidBinding(bind) then Raises
    else
      match FoldCalls(ctx, datas)
      case None => Raises
      case Some(calls) =>
        if Has(calls.entries, bind.callId) || NonceReserved(datas, bind.callNonce) then Raises
        else if budget == 0 then Proposes(Reserve(bind.callId, FormatNano(0), false, ts, ctx.epoch, bind))
        else if SpendOf(calls.entries) + worstCase > budget then Declines
        else Proposes(Reserve(bind.callId, FormatNano(worstCase), true, ts, ctx.epoch, bind))
  }

  function SettleDecision(
      ctx: Context, bind: CallBinding, attest: Option<Attestation>, usd: nat, reported: bool, ts: string, datas: seq<Data>)
    : Decision<Data>
  {
    match FoldCalls(ctx, datas)
    case None => Raises
    case Some(calls) =>
      var i := IndexOf(calls.entries, bind.callId);
      if i == |calls.entries| || calls.entries[i].settled || calls.entries[i].bind != bind then Raises
      else Proposes(Settle(bind.callId, FormatNano(usd), reported, ts, ctx.epoch, bind, attest))
  }

  function UncertainDecision(ctx: Context, bind: CallBinding, ts: string, datas: seq<Data>): Decision<Data> {
    if !ValidBinding(bind) then Raises else SettleDecision(ctx, bind, None, 0, false, ts, datas)
  }

  /** The scope a call ran in, and what the ledger's own probe of it answers. */
  datatype Scope = Scope(backend: string, id: string, proof: string, alive: bool)

  /** Evidence the settlement kernel derived from the durable transcript. */
  datatype Draft = Draft(
    providerKind: string, transcriptDev: string, transcriptIno: string, transcriptSha256: string,
    transcriptBytes: nat, terminalSha256: string, terminalBytes: nat, terminalOffset: nat)

  datatype LimitFrame = LimitFrame(sha256: string, bytes: nat, offset: nat)

  /** A weaker scope is refused where a strong one was available, and a live scope always. */
  predicate Mintable(ctx: Context, bind: CallBinding, scope: Scope) {
    && ValidBinding(bind) && bind.runNonce == ctx.runNonce
    && (scope.backend == "pgid" || scope.backend == "cgroup2")
    && !(scope.backend == "pgid" && ctx.strongScopes)
    && !scope.alive
  }

  function PayloadOf(
      ctx: Context, bind: CallBinding, scope: Scope, draft: Draft, limit: Option<LimitFrame>,
      usdNano: string, provenance: Provenance, ts: string): Payload
  {
    Payload(SCHEMA, if limit.Some? then TrustedFallback else AccountedTerminal, ctx.epoch, ctx.runNonce,
            bind.callId, bind.callNonce, bind.reservationId, bind.routeEpoch,
            bind.provider, bind.model, draft.providerKind, bind.attempt,
            scope.backend, scope.id, scope.proof,
            draft.transcriptDev, draft.transcriptIno, draft.transcriptSha256, draft.transcriptBytes,
            draft.terminalSha256, draft.terminalBytes, draft.terminalOffset,
            if limit.Some? then Some(limit.value.sha256) else None,
            if limit.Some? then Some(limit.value.bytes) else None,
            if limit.Some? then Some(limit.value.offset) else None,
            usdNano, provenance, ts)
  }

  function SealDecision(ctx: Context, bind: CallBinding, p: Payload, usd: nat, reported: bool, ts: string, datas: seq<Data>)
    : Decision<Data>
  {
    if ctx.key.Inert? then Raises
    else
      var a := Attestation(p, TagPayload(ctx.key, p));
      if !Verifies(ctx.key, a) then Raises else SettleDecision(ctx, bind, Some(a), usd, reported, ts, datas)
  }

  /** The money mint: a provider-reported cost stands in place of the worst case. */
  function AttestDecision(
      ctx: Context, bind: CallBinding, scope: Scope, draft: Draft, usdNano: string, ts: string, datas: seq<Data>)
    : Decision<Data>
  {
    if !Mintable(ctx, bind, scope) then Raises
    else if bind.adapter.Some? && draft.providerKind != bind.adapter.value then Raises
    else
      match ParseNano(usdNano)
      case Refused(_) => Raises
      case Ok(usd) =>
        SealDecision(ctx, bind, PayloadOf(ctx, bind, scope, draft, None, FormatNano(usd), ProviderReported, ts),
                     usd, true, ts, datas)
  }

  /** The route mint: the right to bill a second provider, and no money. */
  function FallbackDecision(
      ctx: Context, bind: CallBinding, scope: Scope, draft: Draft, limit: LimitFrame, ts: string, datas: seq<Data>)
    : Decision<Data>
  {
    if !Mintable(ctx, bind, scope) then Raises
    else if bind.adapter.Some? && draft.providerKind != bind.adapter.value then Raises
    else
      SealDecision(ctx, bind, PayloadOf(ctx, bind, scope, draft, Some(limit), FormatNano(0), UnknownCost, ts),
                   0, false, ts, datas)
  }

  /** Every way a record can come to be proposed. */
  datatype Op =
    | ReserveOp(bind: CallBinding, worstCase: nat, budget: nat)
    | UncertainOp(bind: CallBinding)
    | AttestOp(bind: CallBinding, scope: Scope, draft: Draft, usdNano: string)
    | FallbackOp(bind: CallBinding, scope: Scope, draft: Draft, limit: LimitFrame)

  function Decide(ctx: Context, op: Op, ts: string, datas: seq<Data>): Decision<Data> {
    match op
    case ReserveOp(bind, worstCase, budget) => ReserveDecision(ctx, bind, worstCase, budget, ts, datas)
    case UncertainOp(bind) => UncertainDecision(ctx, bind, ts, datas)
    case AttestOp(bind, scope, draft, usd) => AttestDecision(ctx, bind, scope, draft, usd, ts, datas)
    case FallbackOp(bind, scope, draft, limit) => FallbackDecision(ctx, bind, scope, draft, limit, ts, datas)
  }
}
