/** Settlement attestations: the canonical encoding a MAC is taken over, and what verifying one establishes. */
module Attest {
  import opened Wrappers
  import opened Money

  datatype Kind = AccountedTerminal | TrustedFallback
  datatype Provenance = ProviderReported | UnknownCost

  datatype Payload = Payload(
    schema: string,
    kind: Kind,
    ledgerEpoch: string,
    runNonce: string,
    callId: string,
    callNonce: string,
    reservationId: string,
    routeEpoch: nat,
    provider: string,
    model: string,
    providerKind: string,
    attempt: nat,
    scopeBackend: string,
    scopeId: string,
    scopeReapProof: string,
    transcriptDev: string,
    transcriptIno: string,
    transcriptSha256: string,
    transcriptBytes: nat,
    terminalSha256: string,
    terminalBytes: nat,
    terminalOffset: nat,
    limitSha256: Option<string>,
    limitBytes: Option<nat>,
    limitOffset: Option<nat>,
    usdNano: string,
    costProvenance: Provenance,
    ts: string)

  const SCHEMA := "loop.ledger.attest.v2"

  function KindText(k: Kind): string {
    match k case AccountedTerminal => "accounted-terminal" case TrustedFallback => "trusted-fallback"
  }

  function ProvenanceText(p: Provenance): string {
    match p case ProviderReported => "provider-reported" case UnknownCost => "unknown"
  }

  function NatText(v: Option<nat>): Option<string> {
    if v.None? then None else Some(FormatNano(v.value))
  }

  const NAMES: seq<string> := [
    "schema", "kind", "ledgerEpoch", "runNonce", "callId", "callNonce", "reservationId", "routeEpoch",
    "provider", "model", "providerKind", "attempt", "scopeBackend", "scopeId", "scopeReapProof",
    "transcriptDev", "transcriptIno", "transcriptSha256", "transcriptBytes",
    "terminalSha256", "terminalBytes", "terminalOffset",
    "limitSha256", "limitBytes", "limitOffset", "usdNano", "costProvenance", "ts"]

  function Identity(p: Payload): seq<Option<string>> {
    [Some(p.schema), Some(KindText(p.kind)), Some(p.ledgerEpoch), Some(p.runNonce), Some(p.callId),
     Some(p.callNonce), Some(p.reservationId), Some(FormatNano(p.routeEpoch))]
  }

  function Route(p: Payload): seq<Option<string>> {
    [Some(p.provider), Some(p.model), Some(p.providerKind), Some(FormatNano(p.attempt)),
     Some(p.scopeBackend), Some(p.scopeId), Some(p.scopeReapProof)]
  }

  function Evidence(p: Payload): seq<Option<string>> {
    [Some(p.transcriptDev), Some(p.transcriptIno), Some(p.transcriptSha256), Some(FormatNano(p.transcriptBytes)),
     Some(p.terminalSha256), Some(FormatNano(p.terminalBytes)), Some(FormatNano(p.terminalOffset))]
  }

  function Charge(p: Payload): seq<Option<string>> {
    [p.limitSha256, NatText(p.limitBytes), NatText(p.limitOffset),
     Some(p.usdNano), Some(ProvenanceText(p.costProvenance)), Some(p.ts)]
  }

  /** The fields in their fixed order; a string stands for its bytes. */
  function Fields(p: Payload): seq<Option<string>> {
    Identity(p) + Route(p) + Evidence(p) + Charge(p)
  }

  /** One field: `-` when absent, else a byte count, a colon and the bytes. */
  function ValueText(v: Option<string>): string {
    match v
    case None => "-"
    case Some(s) => FormatNano(|s|) + ":" + s
  }

  /** `name:value` parts joined by bars. */
  function Encode(names: seq<string>, vals: seq<Option<string>>): string
    requires |names| == |vals|
    decreases |names|, 1
  {
    if names == [] then ""
    else names[0] + ":" + ValueText(vals[0]) + Rest(names, vals)
  }

  function Rest(names: seq<string>, vals: seq<Option<string>>): string
    requires 0 < |names| == |vals|
    decreases |names|, 0
  {
    if |names| == 1 then "" else "|" + Encode(names[1..], vals[1..])
  }

  function Canonical(p: Payload): string {
    Encode(NAMES, Fields(p))
  }

  // ---- injectivity ----

  /** A field's text tells where it ends, whatever follows it. */
  lemma ValueThenRest(v: Option<string>, x: string, w: Option<string>, y: string)
    requires ValueText(v) + x == ValueText(w) + y
    ensures v == w && x == y
  {
    if v.Some? && w.Some? {
      SomeThenRest(v.value, x, w.value, y);
    } else if v.None? && w.None? {
      SameLengthSplit("-", x, "-", y);
    } else {
      var (text, rest) := if v.Some? then (v.value, x) else (w.value, y);
      assert (FormatNano(|text|) + ":" + text + rest)[0] == FormatNano(|text|)[0];
    }
  }

  lemma SomeThenRest(a: string, x: string, b: string, y: string)
    requires FormatNano(|a|) + ":" + a + x == FormatNano(|b|) + ":" + b + y
    ensures a == b && x == y
  {
    var m, n := FormatNano(|a|), FormatNano(|b|);
    Regrouped(m, a, x);
    Regrouped(n, b, y);
    LengthPrefix(m, ":" + (a + x), n, ":" + (b + y), m + ":" + a + x);
    FormatNames(|a|);
    FormatNames(|b|);
    SameLengthSplit(m, ":" + (a + x), n, ":" + (b + y));
    SameLengthSplit(":", a + x, ":", b + y);
    SameLengthSplit(a, x, b, y);
  }

  lemma Regrouped(m: string, a: string, x: string)
    ensures m + ":" + a + x == m + (":" + (a + x))
  {
  }

  lemma LengthPrefix(m: string, x: string, n: string, y: string, s: string)
    requires IsNumeral(m) && IsNumeral(n) && x != "" && y != "" && x[0] == ':' && y[0] == ':'
    requires s == m + x && s == n + y
    ensures m == n
  {
    DigitRunOf(m, x);
    DigitRunOf(n, y);
    assert s[..|m|] == m;
    assert s[..|n|] == n;
  }

  lemma SameLengthSplit(a: string, x: string, b: string, y: string)
    requires |a| == |b| && a + x == b + y
    ensures a == b && x == y
  {
    assert a == (a + x)[..|a|] && b == (b + y)[..|b|];
    assert x == (a + x)[|a|..] && y == (b + y)[|b|..];
  }

  /** Under one list of field names, equal encodings have equal values, absent and empty included. */
  lemma {:induction false} EncodeInjective(names: seq<string>, vals: seq<Option<string>>, vals': seq<Option<string>>)
    requires |names| == |vals| == |vals'| && Encode(names, vals) == Encode(names, vals')
    ensures vals == vals'
  {
    if names != [] {
      var head := names[0] + ":";
      var tail, tail' := Rest(names, vals), Rest(names, vals');
      Associate(head, ValueText(vals[0]), tail);
      Associate(head, ValueText(vals'[0]), tail');
      SameLengthSplit(head, ValueText(vals[0]) + tail, head, ValueText(vals'[0]) + tail');
      ValueThenRest(vals[0], tail, vals'[0], tail');
      if |names| > 1 {
        SameLengthSplit("|", Encode(names[1..], vals[1..]), "|", Encode(names[1..], vals'[1..]));
        EncodeInjective(names[1..], vals[1..], vals'[1..]);
      }
      assert vals == [vals[0]] + vals[1..];
      assert vals' == [vals'[0]] + vals'[1..];
    }
  }

  lemma NatTextInjective(a: nat, b: nat)
    requires FormatNano(a) == FormatNano(b)
    ensures a == b
  {
    FormatNames(a);
    FormatNames(b);
  }

  lemma OptionNatInjective(a: Option<nat>, b: Option<nat>)
    requires NatText(a) == NatText(b)
    ensures a == b
  {
    if a.Some? { NatTextInjective(a.value, b.value); }
  }

  lemma EnumTexts(k: Kind, l: Kind, p: Provenance, q: Provenance)
    ensures KindText(k) == KindText(l) ==> k == l
    ensures ProvenanceText(p) == ProvenanceText(q) ==> p == q
  {
    assert KindText(AccountedTerminal)[0] == 'a' && KindText(TrustedFallback)[0] == 't';
    assert ProvenanceText(ProviderReported)[0] == 'p' && ProvenanceText(UnknownCost)[0] == 'u';
  }

  lemma FieldsDetermine(p: Payload, q: Payload)
    requires Fields(p) == Fields(q)
    ensures p == q
  {
    hide FormatNano;
    assert Identity(p) == Fields(p)[..8] && Identity(q) == Fields(q)[..8];
    assert Route(p) == Fields(p)[8..15] && Route(q) == Fields(q)[8..15];
    assert Evidence(p) == Fields(p)[15..22] && Evidence(q) == Fields(q)[15..22];
    assert Charge(p) == Fields(p)[22..] && Charge(q) == Fields(q)[22..];
    IdentityDetermines(p, q);
    RouteDetermines(p, q);
    EvidenceDetermines(p, q);
    ChargeDetermines(p, q);
  }

  lemma IdentityDetermines(p: Payload, q: Payload)
    requires Identity(p) == Identity(q)
    ensures && p.schema == q.schema && p.kind == q.kind && p.ledgerEpoch == q.ledgerEpoch
            && p.runNonce == q.runNonce && p.callId == q.callId && p.callNonce == q.callNonce
            && p.reservationId == q.reservationId && p.routeEpoch == q.routeEpoch
  {
    hide FormatNano;
    var a, b := Identity(p), Identity(q);
    assert a[0] == b[0] && a[1] == b[1] && a[2] == b[2] && a[3] == b[3] && a[4] == b[4] && a[5] == b[5]
           && a[6] == b[6] && a[7] == b[7];
    EnumTexts(p.kind, q.kind, p.costProvenance, q.costProvenance);
    NatTextInjective(p.routeEpoch, q.routeEpoch);
  }

  lemma RouteDetermines(p: Payload, q: Payload)
    requires Route(p) == Route(q)
    ensures && p.provider == q.provider && p.model == q.model && p.providerKind == q.providerKind
            && p.attempt == q.attempt && p.scopeBackend == q.scopeBackend && p.scopeId == q.scopeId
            && p.scopeReapProof == q.scopeReapProof
  {
    hide FormatNano;
    var a, b := Route(p), Route(q);
    assert a[0] == b[0] && a[1] == b[1] && a[2] == b[2] && a[3] == b[3] && a[4] == b[4] && a[5] == b[5] && a[6] == b[6];
    NatTextInjective(p.attempt, q.attempt);
  }

  lemma EvidenceDetermines(p: Payload, q: Payload)
    requires Evidence(p) == Evidence(q)
    ensures && p.transcriptDev == q.transcriptDev && p.transcriptIno == q.transcriptIno
            && p.transcriptSha256 == q.transcriptSha256 && p.transcriptBytes == q.transcriptBytes
            && p.terminalSha256 == q.terminalSha256 && p.terminalBytes == q.terminalBytes
            && p.terminalOffset == q.terminalOffset
  {
    hide FormatNano;
    var a, b := Evidence(p), Evidence(q);
    assert a[0] == b[0] && a[1] == b[1] && a[2] == b[2] && a[3] == b[3] && a[4] == b[4] && a[5] == b[5] && a[6] == b[6];
    NatTextInjective(p.transcriptBytes, q.transcriptBytes);
    NatTextInjective(p.terminalBytes, q.terminalBytes);
    NatTextInjective(p.terminalOffset, q.terminalOffset);
  }

  lemma ChargeDetermines(p: Payload, q: Payload)
    requires Charge(p) == Charge(q)
    ensures && p.limitSha256 == q.limitSha256 && p.limitBytes == q.limitBytes && p.limitOffset == q.limitOffset
            && p.usdNano == q.usdNano && p.costProvenance == q.costProvenance && p.ts == q.ts
  {
    hide FormatNano;
    var a, b := Charge(p), Charge(q);
    assert a[0] == b[0] && a[1] == b[1] && a[2] == b[2] && a[3] == b[3] && a[4] == b[4] && a[5] == b[5];
    EnumTexts(p.kind, q.kind, p.costProvenance, q.costProvenance);
    OptionNatInjective(p.limitBytes, q.limitBytes);
    OptionNatInjective(p.limitOffset, q.limitOffset);
  }

  /** Main result: no two payloads share an encoding. */
  lemma CanonicalInjective(p: Payload, q: Payload)
    requires Canonical(p) == Canonical(q)
    ensures p == q
  {
    EncodeInjective(NAMES, Fields(p), Fields(q));
    FieldsDetermine(p, q);
  }

  // ---- the symbolic MAC ----

  /** Key material, or a key object that carries none. */
  datatype Key = Material(id: nat) | Inert

  /** A tag is a MAC over a message under a key, or some other 64 hex digits. */
  datatype Tag = Hmac(key: Key, message: string) | Other(id: nat)

  datatype Attestation = Attestation(payload: Payload, tag: Tag)

  function TagPayload(key: Key, p: Payload): Tag
    requires key.Material?
  {
    Hmac(key, Canonical(p))
  }

  predicate IsHex(s: string) { forall i :: 0 <= i < |s| ==> '0' <= s[i] <= '9' || 'a' <= s[i] <= 'f' }
  predicate IsNonce(s: string) { |s| >= 32 && IsHex(s) }
  predicate IsSha256(s: string) { |s| == 64 && IsHex(s) }
  predicate IsDecimal(s: string) { s != "" && IsNumeral(s) && (s == "0" || s[0] != '0') }

  /** The structural checks on a payload (the grammar of scope ids is not modelled). */
  predicate ShapeOk(p: Payload) {
    && p.schema == SCHEMA
    && IsNonce(p.ledgerEpoch) && IsNonce(p.runNonce)
    && p.callId != "" && IsNonce(p.callNonce) && IsNonce(p.reservationId)
    && p.provider != "" && p.model != "" && p.providerKind != ""
    && IsDecimal(p.transcriptDev) && IsDecimal(p.transcriptIno)
    && IsSha256(p.transcriptSha256) && p.transcriptBytes > 0
    && IsSha256(p.terminalSha256) && p.terminalBytes > 0
    && p.terminalOffset + p.terminalBytes <= p.transcriptBytes
    && (if p.kind == TrustedFallback then
          && p.limitSha256.Some? && IsSha256(p.limitSha256.value)
          && p.limitBytes.Some? && p.limitBytes.value > 0
          && p.limitOffset.Some? && p.limitOffset.value + p.limitBytes.value <= p.transcriptBytes
        else p.limitSha256.None? && p.limitBytes.None? && p.limitOffset.None?)
    && (IsDecimal(p.usdNano) || (p.usdNano != "" && p.usdNano[0] == '-' && IsDecimal(p.usdNano[1..])))
    && (p.costProvenance == UnknownCost ==> p.usdNano == "0")
    && p.ts != ""
  }

  predicate Verifies(key: Key, a: Attestation) {
    ShapeOk(a.payload) && key.Material? && a.tag == Hmac(key, Canonical(a.payload))
  }

  /** A tag verifies for one payload only, under one key only; so editing any field, or moving the tag to
      another generation's key, is detected. */
  lemma TagFixesEveryField(key: Key, key': Key, a: Attestation, b: Attestation)
    requires Verifies(key, a) && Verifies(key', b) && a.tag == b.tag
    ensures a == b && key == key'
  {
    CanonicalInjective(a.payload, b.payload);
  }
}
