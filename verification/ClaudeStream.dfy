/** The one-pass verdict machine for Claude stream-json output, and the rule over the whole stream it decides. */
module ClaudeStream {
  import opened Wrappers
  import opened Json

  // ---- records ----

  const RECORD_TYPES := {"system", "assistant", "user", "result", "rate_limit_event"}
  const FAILURE_SUBTYPES := {
    "error_during_execution", "error_max_turns", "error_max_budget_usd", "error_max_structured_output_retries"}

  function TypeOf(o: Members): Option<string> { StringAt(o, "type") }
  predicate HasType(o: Members, t: string) { TypeOf(o) == Some(t) }
  predicate KnownType(o: Members) { TypeOf(o).Some? && TypeOf(o).value in RECORD_TYPES }
  predicate IsInit(o: Members) { HasType(o, "system") && StringAt(o, "subtype") == Some("init") }
  predicate IsAuthoritative(o: Members) {
    HasType(o, "assistant") || HasType(o, "rate_limit_event") || HasType(o, "result")
  }

  function Session(o: Members): Option<string> {
    var s := StringAt(o, "session_id");
    if s.Some? && s.value != "" then s else None
  }

  // ---- the rate snapshot ----

  datatype RateStatus = Allowed | AllowedWarning | Rejected

  const STATUSES := {"allowed", "allowed_warning", "rejected"}
  const RATE_MEMBERS := {
    "status", "resetsAt", "rateLimitType", "utilization", "overageStatus", "overageResetsAt",
    "overageDisabledReason", "isUsingOverage", "overageInUse", "surpassedThreshold",
    "overagePeriodMonthly", "overagePeriodChannel", "errorCode", "canUserPurchaseCredits",
    "hasChargeableSavedPaymentMethod"}
  const RATE_TYPES := {"five_hour", "seven_day", "seven_day_opus", "seven_day_sonnet", "seven_day_overage_included", "overage"}
  const DISABLED_REASONS := {
    "overage_not_provisioned", "org_level_disabled", "org_level_disabled_until", "out_of_credits",
    "seat_tier_level_disabled", "member_level_disabled", "seat_tier_zero_credit_limit", "group_zero_credit_limit",
    "member_zero_credit_limit", "org_service_level_disabled", "no_limits_configured", "fetch_error", "unknown"}
  const ERROR_CODES := {"credits_required"}

  predicate EnumOk(info: Members, key: string, allowed: set<string>) {
    key in info ==> info[key].Str? && info[key].s in allowed
  }
  predicate BoolOk(info: Members, key: string) { key in info ==> info[key].Bool? }
  predicate TimestampOk(info: Members, key: string) { key in info ==> SafeCount(info[key]).Some? }
  predicate NumOk(info: Members, key: string) { key in info ==> NonNegNum(info[key]).Some? }
  predicate WrapperOk(info: Members, key: string) {
    key in info ==> info[key].Obj? && "utilization" in info[key].members && NonNegNum(info[key].members["utilization"]).Some?
  }

  /** The whole snapshot validates against the pinned schema, member by member. */
  predicate RateInfoOk(info: Members) {
    && info.Keys <= RATE_MEMBERS
    && "status" in info && EnumOk(info, "status", STATUSES)
    && EnumOk(info, "rateLimitType", RATE_TYPES)
    && EnumOk(info, "overageStatus", STATUSES)
    && EnumOk(info, "overageDisabledReason", DISABLED_REASONS)
    && EnumOk(info, "errorCode", ERROR_CODES)
    && BoolOk(info, "isUsingOverage") && BoolOk(info, "overageInUse")
    && BoolOk(info, "canUserPurchaseCredits") && BoolOk(info, "hasChargeableSavedPaymentMethod")
    && TimestampOk(info, "resetsAt") && TimestampOk(info, "overageResetsAt")
    && NumOk(info, "utilization") && NumOk(info, "surpassedThreshold")
    && WrapperOk(info, "overagePeriodMonthly") && WrapperOk(info, "overagePeriodChannel")
  }

  /** A rejection contradicted by an overage in use that is allowed is only a warning. */
  function ValidatedRateStatus(o: Members): Option<RateStatus> {
    match ObjectAt(o, "rate_limit_info")
    case None => None
    case Some(info) =>
      if !RateInfoOk(info) then None
      else
        var status := info["status"].s;
        var os := StringAt(info, "overageStatus");
        if status == "rejected" && IsTrue(info, "isUsingOverage") && (os == Some("allowed") || os == Some("allowed_warning"))
        then Some(AllowedWarning)
        else if status == "rejected" then Some(Rejected)
        else if status == "allowed" then Some(Allowed)
        else Some(AllowedWarning)
  }

  // ---- texts and the terminal ----

  /** The text blocks of a message, joined; None when there is none. */
  function BlockTexts(blocks: seq<Json>): Option<string> {
    if blocks == [] then None
    else
      var rest := BlockTexts(blocks[1..]);
      var b := blocks[0];
      if b.Obj? && StringAt(b.members, "type") == Some("text") && StringAt(b.members, "text").Some? then
        Some(StringAt(b.members, "text").value + (if rest.Some? then rest.value else ""))
      else rest
  }

  function AssistantText(o: Members): Option<string> {
    match ObjectAt(o, "message")
    case None => None
    case Some(message) =>
      match Field(message, "content")
      case Some(Str(s)) => Some(s)
      case Some(Arr(blocks)) => BlockTexts(blocks)
      case _ => None
  }

  predicate AccountingOk(t: Members) {
    && !CostInvalid(t, "total_cost_usd")
    && !PresentNotObject(t, "usage")
    && (ObjectAt(t, "usage").Some? ==>
          !CountInvalid(ObjectAt(t, "usage").value, "input_tokens") && !CountInvalid(ObjectAt(t, "usage").value, "output_tokens"))
  }

  predicate SuccessTerminal(t: Members) {
    AccountingOk(t) && StringAt(t, "subtype") == Some("success") && IsFalse(t, "is_error") && StringAt(t, "result").Some?
  }

  predicate FailureTerminal(t: Members) {
    AccountingOk(t) && StringAt(t, "subtype").Some? && StringAt(t, "subtype").value in FAILURE_SUBTYPES && IsTrue(t, "is_error")
  }

  // ---- the machine ----

  datatype State = State(
    index: nat,
    lineDrift: bool,
    initCount: nat,
    initIndex: Option<nat>,
    initMalformed: bool,
    boundSession: Option<string>,
    authBeforeInit: bool,
    terminalCount: nat,
    firstTerminalIndex: Option<nat>,
    capturedTerminal: Option<Members>,
    capturedFrame: Option<FrameRef>,
    postTerminalDrift: bool,
    sessionDrift: bool,
    lastAssistantText: Option<string>,
    rate: Option<RateStatus>,
    rateFrame: Option<FrameRef>,
    rateDrift: bool)

  const START := State(0, false, 0, None, false, None, false, 0, None, None, None, false, false, None, None, None, false)

  function AdmitTerminal(st: State, i: nat, o: Members, frame: Option<FrameRef>): State {
    var st1 := st.(terminalCount := st.terminalCount + 1);
    if st.firstTerminalIndex.None?
    then st1.(firstTerminalIndex := Some(i), capturedTerminal := Some(o), capturedFrame := frame)
    else st1
  }

  function AdmitText(st: State, text: Option<string>): State {
    if text.Some? then st.(lastAssistantText := text) else st
  }

  function AdmitRate(st: State, status: Option<RateStatus>, frame: Option<FrameRef>): State {
    if status.None? then st.(rateDrift := true) else st.(rate := status, rateFrame := frame)
  }

  /** A record in the bound session, before any terminal. */
  function Admit(st: State, i: nat, o: Members, frame: Option<FrameRef>): State {
    if HasType(o, "result") then AdmitTerminal(st, i, o, frame)
    else if HasType(o, "assistant") then AdmitText(st, AssistantText(o))
    else if HasType(o, "rate_limit_event") then AdmitRate(st, ValidatedRateStatus(o), frame)
    else st
  }

  /** One record, after its type was pinned and its index taken. */
  function PushRecord(st: State, i: nat, o: Members, frame: Option<FrameRef>): State {
    if IsInit(o) then
      var st1 := st.(initCount := st.initCount + 1);
      if Session(o).None? then st1.(initMalformed := true)
      else if st.initIndex.None? then st1.(initIndex := Some(i), boundSession := Session(o))
      else st1
    else if st.initIndex.None? then
      if IsAuthoritative(o) then st.(authBeforeInit := true) else st
    else if st.firstTerminalIndex.Some? && i > st.firstTerminalIndex.value then st.(postTerminalDrift := true)
    else if IsAuthoritative(o) && Session(o) != st.boundSession then st.(sessionDrift := true)
    else Admit(st, i, o, frame)
  }

  lemma TelemetryIsIgnored(st: State, i: nat, o: Members, frame: Option<FrameRef>)
    requires !IsAuthoritative(o)
    ensures Admit(st, i, o, frame) == st
  {
  }

  function Push(st: State, x: Item): State {
    match x.line
    case Blank => st
    case NotObject => st.(lineDrift := true)
    case Record(o) =>
      PushRecord(st.(lineDrift := st.lineDrift || !KnownType(o), index := st.index + 1), st.index, o, x.frame)
  }

  function PushAll(items: seq<Item>): State {
    if items == [] then START else Push(PushAll(items[..|items| - 1]), items[|items| - 1])
  }

  function Verdict(st: State): NormalizedTurn {
    var initValid := st.initCount == 1 && st.initIndex.Some? && !st.initMalformed;
    var sessionDrift := st.sessionDrift || (initValid && st.authBeforeInit);
    var drift := st.lineDrift || !initValid || sessionDrift || st.postTerminalDrift || st.rateDrift;
    var terminal := if !drift && st.terminalCount == 1 then st.capturedTerminal else None;
    match terminal
    case None =>
      NormalizedTurn(if st.lastAssistantText.Some? then st.lastAssistantText.value else "",
                     false, false, None, false, None, None, None, None, None)
    case Some(t) =>
      var success, failure := SuccessTerminal(t), FailureTerminal(t);
      var limit := failure && st.rate == Some(Rejected) && !st.rateDrift;
      var usage := ObjectAt(t, "usage");
      NormalizedTurn(
        if StringAt(t, "result").Some? then StringAt(t, "result").value
        else if st.lastAssistantText.Some? then st.lastAssistantText.value else "",
        success || failure,
        success,
        StringAt(t, "subtype"),
        limit,
        if AccountingOk(t) && "total_cost_usd" in t then NonNegNum(t["total_cost_usd"]) else None,
        if usage.Some? && "input_tokens" in usage.value then SafeCount(usage.value["input_tokens"]) else None,
        if usage.Some? && "output_tokens" in usage.value then SafeCount(usage.value["output_tokens"]) else None,
        if success || failure then st.capturedFrame else None,
        if limit then st.rateFrame else None)
  }

  class StreamingClaudeNormalizer {
    var index: nat
    var lineDrift: bool
    var initCount: nat
    var initIndex: Option<nat>
    var initMalformed: bool
    var boundSession: Option<string>
    var authBeforeInit: bool
    var terminalCount: nat
    var firstTerminalIndex: Option<nat>
    var capturedTerminal: Option<Members>
    var capturedFrame: Option<FrameRef>
    var postTerminalDrift: bool
    var sessionDrift: bool
    var lastAssistantText: Option<string>
    var rate: Option<RateStatus>
    var rateFrame: Option<FrameRef>
    var rateDrift: bool

    function Abstract(): State
      reads this
    {
      State(index, lineDrift, initCount, initIndex, initMalformed, boundSession, authBeforeInit, terminalCount,
            firstTerminalIndex, capturedTerminal, capturedFrame, postTerminalDrift, sessionDrift,
            lastAssistantText, rate, rateFrame, rateDrift)
    }

    constructor ()
      ensures Abstract() == START
    {
      index, initCount, terminalCount := 0, 0, 0;
      lineDrift, initMalformed, authBeforeInit, postTerminalDrift, sessionDrift, rateDrift := false, false, false, false, false, false;
      initIndex, boundSession, firstTerminalIndex, capturedTerminal, capturedFrame := None, None, None, None, None;
      lastAssistantText, rate, rateFrame := None, None, None;
    }

    method PushLine(line: Line, frame: Option<FrameRef>)
      modifies this
      ensures Abstract() == Push(old(Abstract()), Item(line, frame))
    {
      hide PushRecord, KnownType;
      if line.Blank? { return; }
      if line.NotObject? {
        lineDrift := true;
        return;
      }
      var o := line.members;
      if !KnownType(o) { lineDrift := true; }
      var i := index;
      index := index + 1;
      PushObject(i, o, frame);
    }

    /** One record, its type pinned and its index taken. */
    method PushObject(i: nat, o: Members, frame: Option<FrameRef>)
      modifies this
      ensures Abstract() == PushRecord(old(Abstract()), i, o, frame)
    {
      hide ValidatedRateStatus, AssistantText, KnownType, Session, IsInit, StringAt, TypeOf, IsAuthoritative, HasType;
      if IsInit(o) {
        PushInit(i, Session(o));
      } else if initIndex.None? {
        if IsAuthoritative(o) { authBeforeInit := true; }
      } else {
        PushBound(i, o, frame);
      }
    }

    /** Exactly one valid init binds the session; it is not itself authority. */
    method PushInit(i: nat, sid: Option<string>)
      modifies this`initCount, this`initMalformed, this`initIndex, this`boundSession
      ensures initCount == old(initCount) + 1
      ensures initMalformed == (old(initMalformed) || sid.None?)
      ensures initIndex == (if sid.Some? && old(initIndex).None? then Some(i) else old(initIndex))
      ensures boundSession == (if sid.Some? && old(initIndex).None? then sid else old(boundSession))
    {
      initCount := initCount + 1;
      if sid.None? {
        initMalformed := true;
      } else if initIndex.None? {
        initIndex := Some(i);
        boundSession := sid;
      }
    }

    /** A record after the init: nothing may follow the terminal, and authority must be in the session. */
    method PushBound(i: nat, o: Members, frame: Option<FrameRef>)
      requires !IsInit(o) && initIndex.Some?
      modifies this
      ensures Abstract() == PushRecord(old(Abstract()), i, o, frame)
    {
      hide Admit, ValidatedRateStatus, AssistantText, KnownType, Session, StringAt, TypeOf, IsInit;
      if firstTerminalIndex.Some? && i > firstTerminalIndex.value {
        postTerminalDrift := true;
        return;
      }
      if Session(o) != boundSession {
        if IsAuthoritative(o) { sessionDrift := true; } else { TelemetryIsIgnored(Abstract(), i, o, frame); }
        return;
      }
      PushInScope(i, o, frame);
    }

    method PushInScope(i: nat, o: Members, frame: Option<FrameRef>)
      modifies this`terminalCount, this`firstTerminalIndex, this`capturedTerminal, this`capturedFrame
      modifies this`lastAssistantText, this`rate, this`rateFrame, this`rateDrift
      ensures Abstract() == Admit(old(Abstract()), i, o, frame)
    {
      hide ValidatedRateStatus, AssistantText, KnownType, Session, StringAt, TypeOf, IsInit, HasType, IsAuthoritative;
      hide Abstract, AdmitTerminal, AdmitText, AdmitRate;
      if HasType(o, "result") {
        PushTerminal(i, o, frame);
      } else if HasType(o, "assistant") {
        PushAssistant(AssistantText(o));
      } else if HasType(o, "rate_limit_event") {
        PushRate(ValidatedRateStatus(o), frame);
      }
    }

    /** Capture the first in-scope terminal, bound to its exact bytes. */
    method PushTerminal(i: nat, o: Members, frame: Option<FrameRef>)
      modifies this`terminalCount, this`firstTerminalIndex, this`capturedTerminal, this`capturedFrame
      ensures Abstract() == AdmitTerminal(old(Abstract()), i, o, frame)
    {
      terminalCount := terminalCount + 1;
      if firstTerminalIndex.None? {
        firstTerminalIndex := Some(i);
        capturedTerminal := Some(o);
        capturedFrame := frame;
      }
    }

    method PushAssistant(text: Option<string>)
      modifies this`lastAssistantText
      ensures Abstract() == AdmitText(old(Abstract()), text)
    {
      if text.Some? { lastAssistantText := text; }
    }

    /** A valid snapshot replaces the last one together with its bytes. */
    method PushRate(st: Option<RateStatus>, frame: Option<FrameRef>)
      modifies this`rateDrift, this`rate, this`rateFrame
      ensures Abstract() == AdmitRate(old(Abstract()), st, frame)
    {
      if st.None? {
        rateDrift := true;
      } else {
        rate := st;
        rateFrame := frame;
      }
    }

    method Finish() returns (turn: NormalizedTurn)
      ensures turn == Verdict(Abstract())
    {
      hide StringAt, ObjectAt, IsTrue, IsFalse, SafeCount, NonNegNum;
      var initValid := initCount == 1 && initIndex.Some? && !initMalformed;
      var sessionDrifted := sessionDrift || (initValid && authBeforeInit);
      var drift := lineDrift || !initValid || sessionDrifted || postTerminalDrift || rateDrift;
      var text := if lastAssistantText.Some? then lastAssistantText.value else "";
      if drift || terminalCount != 1 || capturedTerminal.None? {
        return NormalizedTurn(text, false, false, None, false, None, None, None, None, None);
      }
      var t := capturedTerminal.value;
      var costInvalid := !AccountingOk(t);
      var subtype := StringAt(t, "subtype");
      var success, cleanFailure := false, false;
      if !costInvalid {
        if subtype == Some("success") {
          if IsFalse(t, "is_error") && StringAt(t, "result").Some? { success := true; }
        } else if subtype.Some? && subtype.value in FAILURE_SUBTYPES {
          if IsTrue(t, "is_error") { cleanFailure := true; }
        }
      }
      var hasTerminal := success || cleanFailure;
      var explicitLimit := cleanFailure && rate == Some(Rejected) && !rateDrift;
      var usage := ObjectAt(t, "usage");
      return NormalizedTurn(
        if StringAt(t, "result").Some? then StringAt(t, "result").value else text,
        hasTerminal,
        success,
        subtype,
        explicitLimit,
        if !costInvalid && "total_cost_usd" in t then NonNegNum(t["total_cost_usd"]) else None,
        if usage.Some? && "input_tokens" in usage.value then SafeCount(usage.value["input_tokens"]) else None,
        if usage.Some? && "output_tokens" in usage.value then SafeCount(usage.value["output_tokens"]) else None,
        if hasTerminal then capturedFrame else None,
        if explicitLimit then rateFrame else None);
    }
  }
}
