/** The one-pass Claude machine decides a rule stated over the whole stream at once. */
module ClaudeRule {
  import opened Wrappers
  import opened Json
  import opened ClaudeStream
  import opened ClaudeRecords

  predicate KnownLine(x: Item) { x.line.Record? && KnownType(x.line.members) }
  predicate InitLine(x: Item) { x.line.Record? && IsInit(x.line.members) }
  predicate AuthLine(x: Item) { x.line.Record? && IsAuthoritative(x.line.members) }
  predicate ResultLine(x: Item) { x.line.Record? && HasType(x.line.members, "result") }
  predicate RateLine(x: Item) { x.line.Record? && HasType(x.line.members, "rate_limit_event") }

  function SessionOf(x: Item): Option<string> { if x.line.Record? then Session(x.line.members) else None }
  function RateOf(x: Item): Option<RateStatus> { if x.line.Record? then ValidatedRateStatus(x.line.members) else None }

  /** The words of the rule, said of the JSON of a line. */
  lemma LinesSpelledOut(x: Item)
    requires x.line.Record?
    ensures var o := x.line.members;
            && (InitLine(x) <==> IsString(o, "type", "system") && IsString(o, "subtype", "init"))
            && (ResultLine(x) <==> IsString(o, "type", "result"))
            && (RateLine(x) <==> IsString(o, "type", "rate_limit_event"))
            && (AuthLine(x) <==> IsString(o, "type", "assistant") || RateLine(x) || ResultLine(x))
            && (KnownLine(x) <==> IsString(o, "type", "system") || IsString(o, "type", "user") || AuthLine(x))
            && (forall id :: SessionOf(x) == Some(id) <==> id != "" && IsString(o, "session_id", id))
            && (RateOf(x).Some? <==> "rate_limit_info" in o && o["rate_limit_info"].Obj? && RateInfoOk(o["rate_limit_info"].members))
  {
    hide RateInfoOk;
    var o := x.line.members;
    if "type" in o && o["type"].Str? { KnownTypes(o["type"].s); }
  }

  lemma KnownTypes(t: string)
    ensures t in RECORD_TYPES <==> t == "system" || t == "user" || t == "assistant" || t == "rate_limit_event" || t == "result"
  {
  }

  /** Everything the rule asks of the lines up to here, with the one init at `p`, or none yet when `p` is the
      length: only known records; nothing authoritative and no init before the init; the init has a session;
      after it no further init, every authoritative record in its session, every rate event valid, and no result
      but at the very end. */
  ghost predicate CleanAt(recs: seq<Item>, p: nat) {
    && p <= |recs|
    && (forall j :: 0 <= j < |recs| ==> KnownLine(recs[j]))
    && (forall j :: 0 <= j < p ==> !InitLine(recs[j]) && !AuthLine(recs[j]))
    && (p < |recs| ==> InitLine(recs[p]) && SessionOf(recs[p]).Some?)
    && (forall j :: p < j < |recs| ==>
          && !InitLine(recs[j])
          && (AuthLine(recs[j]) ==> SessionOf(recs[j]) == SessionOf(recs[p]))
          && (RateLine(recs[j]) ==> RateOf(recs[j]).Some?)
          && (ResultLine(recs[j]) ==> j == |recs| - 1))
  }

  /** A clean stream with its init, that ends in its one result, well-formed or not. */
  ghost predicate Concluded(recs: seq<Item>, p: nat) {
    p < |recs| && CleanAt(recs, p) && ResultLine(recs[|recs| - 1])
  }

  /** The declarative rule: a concluded stream whose result is well-formed. */
  ghost predicate AcceptedStream(recs: seq<Item>, p: nat) {
    && Concluded(recs, p)
    && (SuccessTerminal(recs[|recs| - 1].line.members) || FailureTerminal(recs[|recs| - 1].line.members))
  }

  /** The last rate event of the stream. */
  function LastRate(recs: seq<Item>): Option<Item> {
    if recs == [] then None
    else if RateLine(recs[|recs| - 1]) then Some(recs[|recs| - 1])
    else LastRate(recs[..|recs| - 1])
  }

  /** The last assistant text of the stream. */
  function LastText(recs: seq<Item>): Option<string> {
    if recs == [] then None
    else
      var x := recs[|recs| - 1];
      if x.line.Record? && HasType(x.line.members, "assistant") && AssistantText(x.line.members).Some?
      then AssistantText(x.line.members)
      else LastText(recs[..|recs| - 1])
  }

  // ---- the machine against the rule ----

  predicate CleanState(st: State) {
    && !st.lineDrift && !st.initMalformed && st.initCount <= 1 && !st.authBeforeInit
    && !st.postTerminalDrift && !st.sessionDrift && !st.rateDrift
  }

  /** What a clean machine remembers of the lines it has read. */
  ghost predicate Remembers(recs: seq<Item>, st: State) {
    && st.index == |recs|
    && (st.initIndex.None? <==> st.initCount == 0)
    && (st.initIndex.Some? ==>
          && st.initCount == 1
          && st.initIndex.value < |recs|
          && CleanAt(recs, st.initIndex.value)
          && st.boundSession == SessionOf(recs[st.initIndex.value]) && st.boundSession.Some?)
    && (st.initIndex.None? ==> CleanAt(recs, |recs|))
    && (if recs != [] && st.initIndex.Some? && ResultLine(recs[|recs| - 1]) then
          && st.terminalCount == 1
          && st.firstTerminalIndex == Some(|recs| - 1)
          && st.capturedTerminal == Some(recs[|recs| - 1].line.members)
          && st.capturedFrame == recs[|recs| - 1].frame
        else st.terminalCount == 0 && st.firstTerminalIndex.None?)
    && (match LastRate(recs)
        case None => st.rate.None?
        case Some(x) => st.rate == RateOf(x) && st.rateFrame == x.frame)
    && st.lastAssistantText == LastText(recs)
  }

  lemma TypesDiffer(o: Members)
    ensures HasType(o, "result") ==> !HasType(o, "assistant") && !HasType(o, "rate_limit_event") && !IsInit(o)
    ensures HasType(o, "assistant") ==> !HasType(o, "rate_limit_event") && !IsInit(o)
    ensures HasType(o, "rate_limit_event") ==> !IsInit(o)
    ensures IsInit(o) ==> KnownType(o)
  {
    assert "result"[0] == 'r' && "assistant"[0] == 'a' && "rate_limit_event"[1] == 'a' && "result"[1] == 'e' && "system"[0] == 's';
  }

  /** A dirty machine stays dirty. */
  lemma DirtyStays(st: State, x: Item)
    requires !CleanState(st)
    ensures !CleanState(Push(st, x))
  {
    hide KnownType, PushRecord;
    if x.line.Record? {
      DirtyRecord(st.(lineDrift := st.lineDrift || !KnownType(x.line.members), index := st.index + 1), st.index,
                  x.line.members, x.frame);
    }
  }

  lemma DirtyRecord(st: State, i: nat, o: Members, frame: Option<FrameRef>)
    requires !CleanState(st)
    ensures !CleanState(PushRecord(st, i, o, frame))
  {
    hide IsInit, IsAuthoritative, Session, Admit;
    DirtyAdmit(st, i, o, frame);
  }

  lemma DirtyAdmit(st: State, i: nat, o: Members, frame: Option<FrameRef>)
    requires !CleanState(st)
    ensures !CleanState(Admit(st, i, o, frame))
  {
    hide HasType, AssistantText, ValidatedRateStatus;
  }

  /** A stream that breaks the rule breaks it in every extension. */
  lemma CleanPrefix(recs: seq<Item>, x: Item, p: nat)
    requires CleanAt(recs + [x], p)
    ensures CleanAt(recs, if p < |recs| then p else |recs|)
  {
    var more := recs + [x];
    assert forall j :: 0 <= j < |recs| ==> more[j] == recs[j];
  }

  lemma LastOfMore(recs: seq<Item>, x: Item)
    ensures LastRate(recs + [x]) == if RateLine(x) then Some(x) else LastRate(recs)
    ensures LastText(recs + [x]) ==
            if x.line.Record? && HasType(x.line.members, "assistant") && AssistantText(x.line.members).Some?
            then AssistantText(x.line.members) else LastText(recs)
  {
    assert (recs + [x])[..|recs|] == recs;
  }

  /** What one more line may be for a clean stream to stay clean. */
  predicate Continues(recs: seq<Item>, p: nat, x: Item)
    requires p <= |recs|
  {
    && KnownLine(x)
    && (p == |recs| ==> if InitLine(x) then SessionOf(x).Some? else !AuthLine(x))
    && (p < |recs| ==>
          && !InitLine(x)
          && !ResultLine(recs[|recs| - 1])
          && (AuthLine(x) ==> SessionOf(x) == SessionOf(recs[p]))
          && (RateLine(x) ==> RateOf(x).Some?))
  }

  lemma CleanContinues(recs: seq<Item>, p: nat, x: Item)
    requires CleanAt(recs, p) && Continues(recs, p, x)
    ensures CleanAt(recs + [x], if p == |recs| && !InitLine(x) then p + 1 else p)
  {
    hide KnownLine, InitLine, AuthLine, ResultLine, RateLine, SessionOf, RateOf;
    InitIsNotResult(recs, p);
    var more := recs + [x];
    assert more[|recs|] == x && forall j :: 0 <= j < |recs| ==> more[j] == recs[j];
  }

  lemma InitIsNotResult(recs: seq<Item>, p: nat)
    requires p < |recs| ==> InitLine(recs[p])
    ensures p < |recs| ==> !ResultLine(recs[p]) && !AuthLine(recs[p]) && !RateLine(recs[p])
  {
    if p < |recs| { TypesDiffer(recs[p].line.members); }
  }

  lemma CleanNeedsContinue(recs: seq<Item>, p: nat, x: Item, q: nat)
    requires CleanAt(recs, p) && CleanAt(recs + [x], q)
    ensures Continues(recs, p, x)
  {
    hide KnownLine, InitLine, AuthLine, ResultLine, RateLine, SessionOf, RateOf;
    var more := recs + [x];
    assert more[|recs|] == x && forall j :: 0 <= j < |recs| ==> more[j] == recs[j];
    InitIsNotResult(more, q);
    InitIsNotResult(recs, p);
    if p < |recs| {
      assert InitLine(more[p]);
      assert q == p;
    } else {
      assert q >= |recs|;
    }
  }

  function Place(recs: seq<Item>, st: State): nat {
    if st.initIndex.Some? then st.initIndex.value else |recs|
  }

  /** The step that matters: on a clean machine, one line keeps it clean exactly when the line continues the
      rule, and then the machine remembers it. */
  lemma PushIsContinue(recs: seq<Item>, st: State, x: Item)
    requires !x.line.Blank? && CleanState(st) && Remembers(recs, st)
    ensures CleanState(Push(st, x)) <==> Continues(recs, Place(recs, st), x)
  {
    hide KnownType, Session, AssistantText, ValidatedRateStatus, CleanAt, StringAt, LastRate, LastText, IsInit, TypeOf;
    if x.line.Record? { TypesDiffer(x.line.members); }
  }

  lemma PushRemembers(recs: seq<Item>, st: State, x: Item)
    requires !x.line.Blank? && CleanState(st) && Remembers(recs, st) && Continues(recs, Place(recs, st), x)
    ensures Remembers(recs + [x], Push(st, x))
  {
    hide KnownType, Session, AssistantText, ValidatedRateStatus, CleanAt, StringAt, LastRate, LastText, IsInit, TypeOf;
    var more := recs + [x];
    assert more[|recs|] == x;
    assert st.initIndex.Some? ==> more[st.initIndex.value] == recs[st.initIndex.value];
    TypesDiffer(x.line.members);
    CleanContinues(recs, Place(recs, st), x);
    LastOfMore(recs, x);
  }

  lemma {:induction false} MachineFollowsRule(recs: seq<Item>)
    requires forall x :: x in recs ==> !x.line.Blank?
    ensures CleanState(PushAll(recs)) <==> exists p :: CleanAt(recs, p)
    ensures CleanState(PushAll(recs)) ==> Remembers(recs, PushAll(recs))
    decreases |recs|
  {
    if recs == [] {
      assert CleanAt(recs, 0);
    } else {
      hide Push, CleanAt, Remembers, CleanState;
      var n := |recs| - 1;
      var front, x := recs[..n], recs[n];
      assert recs == front + [x];
      MachineFollowsRule(front);
      var st := PushAll(front);
      if CleanState(st) {
        PlaceIsClean(front, st);
        PushIsContinue(front, st, x);
        if Continues(front, Place(front, st), x) {
          CleanContinues(front, Place(front, st), x);
          PushRemembers(front, st, x);
        } else {
          forall p | CleanAt(recs, p) ensures false { CleanNeedsContinue(front, Place(front, st), x, p); }
        }
      } else {
        DirtyStays(st, x);
        forall p | CleanAt(recs, p) ensures false {
          CleanPrefix(front, x, p);
        }
      }
    }
  }

  lemma PlaceIsClean(recs: seq<Item>, st: State)
    requires Remembers(recs, st)
    ensures Place(recs, st) <= |recs| && CleanAt(recs, Place(recs, st))
  {
  }

  lemma NonBlankPushes(items: seq<Item>)
    ensures PushAll(NonBlank(items)) == PushAll(items)
    ensures forall x :: x in NonBlank(items) ==> !x.line.Blank?
    decreases |items|
  {
    if items != [] {
      var front, x := items[..|items| - 1], items[|items| - 1];
      NonBlankPushes(front);
      if !x.line.Blank? {
        assert (NonBlank(front) + [x])[..|NonBlank(front)|] == NonBlank(front);
      }
    }
  }

  /** Main result: the machine accepts a terminal exactly when the whole stream meets the rule. */
  lemma AcceptsExactlyTheRule(items: seq<Item>)
    ensures Verdict(PushAll(items)).hasTerminal <==> exists p :: AcceptedStream(NonBlank(items), p)
  {
    var recs, st := NonBlank(items), PushAll(items);
    NonBlankPushes(items);
    MachineFollowsRule(recs);
    if Verdict(st).hasTerminal {
      VerdictIsClean(st);
      AcceptedFromState(recs, st);
    }
    if p :| AcceptedStream(recs, p) {
      OneInit(recs, st, p);
    }
  }

  lemma VerdictIsClean(st: State)
    ensures Verdict(st).hasTerminal ==>
              && CleanState(st) && st.initCount == 1 && st.terminalCount == 1 && st.initIndex.Some?
              && st.capturedTerminal.Some?
              && (SuccessTerminal(st.capturedTerminal.value) || FailureTerminal(st.capturedTerminal.value))
    ensures CleanState(st) && st.initCount == 1 && st.initIndex.Some? && st.terminalCount == 1 && st.capturedTerminal.Some? ==>
              Verdict(st).hasTerminal == (SuccessTerminal(st.capturedTerminal.value) || FailureTerminal(st.capturedTerminal.value))
  {
    hide SuccessTerminal, FailureTerminal, AccountingOk;
  }

  lemma AcceptedFromState(recs: seq<Item>, st: State)
    requires CleanState(st) && Remembers(recs, st) && st.initIndex.Some? && st.terminalCount == 1 && st.capturedTerminal.Some?
    requires SuccessTerminal(st.capturedTerminal.value) || FailureTerminal(st.capturedTerminal.value)
    ensures AcceptedStream(recs, st.initIndex.value)
  {
    hide SuccessTerminal, FailureTerminal, CleanAt, LastRate, LastText;
  }

  lemma OneInit(recs: seq<Item>, st: State, p: nat)
    requires CleanState(st) && Remembers(recs, st) && AcceptedStream(recs, p)
    ensures Verdict(st).hasTerminal && st.initIndex == Some(p)
  {
    hide SuccessTerminal, FailureTerminal, LastRate, LastText, KnownLine, AuthLine, RateLine, RateOf;
    PlaceIsClean(recs, st);
    assert InitLine(recs[p]);
    VerdictIsClean(st);
  }

  /** The limit verdict and both frames: an accepted stream reports an explicit limit exactly when its result is
      a clean failure and its last rate event is an effective rejection, and then the limit frame is that event's;
      the terminal frame is always the last line's. */
  lemma LimitComesFromTheLastRateEvent(items: seq<Item>)
    requires Verdict(PushAll(items)).hasTerminal
    ensures var recs, v := NonBlank(items), Verdict(PushAll(items));
            && recs != [] && recs[|recs| - 1].line.Record?
            && var t := recs[|recs| - 1].line.members;
               && v.terminalFrame == recs[|recs| - 1].frame
               && (v.success <==> SuccessTerminal(t))
               && (v.explicitLimit <==>
                     FailureTerminal(t) && LastRate(recs).Some? && RateOf(LastRate(recs).value) == Some(Rejected))
               && (v.explicitLimit ==> v.limitFrame == LastRate(recs).value.frame)
               && v.finalText == (if StringAt(t, "result").Some? then StringAt(t, "result").value
                                  else if LastText(recs).Some? then LastText(recs).value else "")
  {
    hide SuccessTerminal, FailureTerminal, LastText, CleanAt, ValidatedRateStatus;
    var recs, st := NonBlank(items), PushAll(items);
    NonBlankPushes(items);
    MachineFollowsRule(recs);
    VerdictIsClean(st);
  }

  /** Nothing but a clean, complete, rejected stream ever reports a limit. */
  lemma LimitNeedsAcceptance(items: seq<Item>)
    ensures Verdict(PushAll(items)).explicitLimit ==> Verdict(PushAll(items)).hasTerminal && !Verdict(PushAll(items)).success
  {
    hide PushAll;
    var st := PushAll(items);
    if st.capturedTerminal.Some? { SuccessOrFailure(st.capturedTerminal.value); }
  }

  lemma SuccessOrFailure(t: Members)
    ensures !(SuccessTerminal(t) && FailureTerminal(t))
  {
    if SuccessTerminal(t) { assert "success" !in FAILURE_SUBTYPES; }
  }

  /** Any further nonblank line turns an accepted stream uncertain. */
  lemma TrailingLineUnsettles(items: seq<Item>, x: Item)
    requires Verdict(PushAll(items)).hasTerminal && !x.line.Blank?
    ensures !Verdict(PushAll(items + [x])).hasTerminal
  {
    hide SuccessTerminal, FailureTerminal;
    var recs, st := NonBlank(items), PushAll(items);
    assert (items + [x])[..|items|] == items;
    NonBlankPushes(items);
    MachineFollowsRule(recs);
    VerdictIsClean(st);
    PushIsContinue(recs, st, x);
    VerdictIsClean(Push(st, x));
  }

  // ---- what the verdict reports ----

  /** The verdict on a concluded stream, field by field, from its last record, its last rate event and its last text. The
      cost is the result's own, and is none when any accounting member is malformed. */
  ghost predicate Reports(turn: NormalizedTurn, recs: seq<Item>)
    requires recs != [] && ResultLine(recs[|recs| - 1])
  {
    var t := recs[|recs| - 1].line.members;
    && turn.hasTerminal == (Succeeds(t) || FailsCleanly(t)) && turn.success == Succeeds(t)
    && (turn.usd.Some? <==> WellAccounted(t) && "total_cost_usd" in t)
    && (turn.usd.Some? ==> t["total_cost_usd"] == Num(turn.usd.value))
    && (if "usage" in t && t["usage"].Obj? then
          CountIs(t["usage"].members, "input_tokens", turn.inputTokens) && CountIs(t["usage"].members, "output_tokens", turn.outputTokens)
        else turn.inputTokens.None? && turn.outputTokens.None?)
    && (turn.subtype.Some? ==> IsString(t, "subtype", turn.subtype.value))
    && (turn.subtype.None? ==> "subtype" !in t || !t["subtype"].Str?)
    && turn.finalText == (if "result" in t && t["result"].Str? then t["result"].s
                          else if LastText(recs).Some? then LastText(recs).value else "")
    && turn.terminalFrame == (if turn.hasTerminal then recs[|recs| - 1].frame else None)
    && (turn.explicitLimit <==> FailsCleanly(t) && LastRate(recs).Some? && RejectedAt(LastRate(recs).value))
    && turn.limitFrame == (if turn.explicitLimit then LastRate(recs).value.frame else None)
  }

  predicate RejectedAt(x: Item) {
    x.line.Record? && "rate_limit_info" in x.line.members && x.line.members["rate_limit_info"].Obj?
    && RejectedBy(x.line.members["rate_limit_info"].members)
  }

  /** What a stream that does not conclude reports: nothing but the text of the session. */
  ghost predicate ReportsNothing(turn: NormalizedTurn, recs: seq<Item>) {
    turn == NormalizedTurn(if ScopedText(recs).Some? then ScopedText(recs).value else "",
                           false, false, None, false, None, None, None, None, None)
  }

  /** The session of the first init that has one. */
  function Bound(recs: seq<Item>): Option<string> {
    if recs == [] then None
    else
      var b, x := Bound(recs[..|recs| - 1]), recs[|recs| - 1];
      if b.None? && InitLine(x) then SessionOf(x) else b
  }

  predicate InSession(b: Option<string>, x: Item) { b.Some? && !InitLine(x) && SessionOf(x) == b }

  /** The session's result has been seen. */
  predicate Ended(recs: seq<Item>) {
    recs != [] && (var front, x := recs[..|recs| - 1], recs[|recs| - 1];
                   Ended(front) || (InSession(Bound(front), x) && ResultLine(x)))
  }

  /** The last assistant text of the session before its result, in any stream. */
  function ScopedText(recs: seq<Item>): Option<string> {
    if recs == [] then None
    else
      var front, x := recs[..|recs| - 1], recs[|recs| - 1];
      if InSession(Bound(front), x) && !Ended(front) && HasType(x.line.members, "assistant")
         && AssistantText(x.line.members).Some?
      then AssistantText(x.line.members)
      else ScopedText(front)
  }

  ghost predicate Scoped(recs: seq<Item>, st: State) {
    && (st.initIndex.Some? <==> Bound(recs).Some?) && (st.initIndex.Some? ==> st.boundSession == Bound(recs))
    && (st.firstTerminalIndex.Some? <==> Ended(recs)) && (st.firstTerminalIndex.Some? ==> st.firstTerminalIndex.value < st.index)
    && st.lastAssistantText == ScopedText(recs)
  }

  lemma {:induction false} MachineIsScoped(recs: seq<Item>)
    requires forall x :: x in recs ==> !x.line.Blank?
    ensures Scoped(recs, PushAll(recs))
    decreases |recs|
  {
    if recs != [] {
      hide Push, Scoped;
      var front, x := recs[..|recs| - 1], recs[|recs| - 1];
      assert recs == front + [x];
      MachineIsScoped(front);
      PushIsScoped(front, PushAll(front), x);
    } else {
      assert Scoped([], START);
    }
  }

  lemma PushIsScoped(recs: seq<Item>, st: State, x: Item)
    requires Scoped(recs, st) && !x.line.Blank?
    ensures Scoped(recs + [x], Push(st, x))
  {
    hide Push, Scoped;
    if x.line.Record? && st.initIndex.Some? && !InitLine(x) {
      BoundIsScoped(recs, st, x);
    } else {
      UnboundIsScoped(recs, st, x);
    }
  }

  lemma UnboundIsScoped(recs: seq<Item>, st: State, x: Item)
    requires Scoped(recs, st) && (x.line.NotObject? || (x.line.Record? && (st.initIndex.None? || InitLine(x))))
    ensures Scoped(recs + [x], Push(st, x))
  {
    hide Push, SessionOf, InitLine, Bound, Ended, ScopedText, InSession;
    NotInSession(Bound(recs), x);
    ScopeOfMore(recs, x);
    UnboundPush(st, x);
  }

  /** What matters of one line outside a session, or of an init. */
  lemma UnboundPush(st: State, x: Item)
    requires x.line.NotObject? || (x.line.Record? && (st.initIndex.None? || InitLine(x)))
    ensures var t := Push(st, x);
            && t.firstTerminalIndex == st.firstTerminalIndex && t.lastAssistantText == st.lastAssistantText
            && t.index >= st.index
            && (InitLine(x) && SessionOf(x).Some? && st.initIndex.None? ==> t.initIndex.Some? && t.boundSession == SessionOf(x))
            && (!(InitLine(x) && SessionOf(x).Some? && st.initIndex.None?) ==>
                  t.initIndex == st.initIndex && t.boundSession == st.boundSession)
  {
    hide KnownType, PushRecord, Session, IsInit;
    if x.line.Record? {
      UnboundRecord(st.(lineDrift := st.lineDrift || !KnownType(x.line.members), index := st.index + 1), st.index,
                    x.line.members, x.frame);
    }
  }

  lemma UnboundRecord(st: State, i: nat, o: Members, frame: Option<FrameRef>)
    requires st.initIndex.None? || IsInit(o)
    ensures var t, binds := PushRecord(st, i, o, frame), IsInit(o) && Session(o).Some? && st.initIndex.None?;
            && t.firstTerminalIndex == st.firstTerminalIndex && t.lastAssistantText == st.lastAssistantText
            && t.index == st.index
            && t.initIndex == (if binds then Some(i) else st.initIndex)
            && t.boundSession == (if binds then Session(o) else st.boundSession)
  {
    hide Session, IsInit, IsAuthoritative, HasType, Admit;
  }

  lemma NotInSession(b: Option<string>, x: Item)
    ensures b.None? || InitLine(x) || !x.line.Record? ==> !InSession(b, x)
  {
  }

  lemma BoundIsScoped(recs: seq<Item>, st: State, x: Item)
    requires Scoped(recs, st) && x.line.Record? && st.initIndex.Some? && !InitLine(x)
    ensures Scoped(recs + [x], Push(st, x))
  {
    hide Push, InitLine, AssistantText, Bound, Ended, ScopedText, HasType;
    ScopeOfMore(recs, x);
    BoundPush(st, x);
  }

  /** What matters of one record after the init. */
  lemma BoundPush(st: State, x: Item)
    requires x.line.Record? && st.initIndex.Some? && !InitLine(x)
    requires st.firstTerminalIndex.Some? ==> st.firstTerminalIndex.value < st.index
    ensures var t, own := Push(st, x), SessionOf(x) == st.boundSession && st.firstTerminalIndex.None?;
            && t.initIndex == st.initIndex && t.boundSession == st.boundSession && t.index == st.index + 1
            && t.firstTerminalIndex == (if own && ResultLine(x) then Some(st.index) else st.firstTerminalIndex)
            && t.lastAssistantText ==
               if own && HasType(x.line.members, "assistant") && AssistantText(x.line.members).Some?
               then AssistantText(x.line.members) else st.lastAssistantText
  {
    hide KnownType, PushRecord, Session, IsInit, HasType, AssistantText;
    BoundRecord(st.(lineDrift := st.lineDrift || !KnownType(x.line.members), index := st.index + 1), st.index,
                x.line.members, x.frame);
  }

  lemma BoundRecord(st: State, i: nat, o: Members, frame: Option<FrameRef>)
    requires st.initIndex.Some? && !IsInit(o) && (st.firstTerminalIndex.Some? ==> st.firstTerminalIndex.value < i)
    ensures var t, own := PushRecord(st, i, o, frame), Session(o) == st.boundSession && st.firstTerminalIndex.None?;
            && t.initIndex == st.initIndex && t.boundSession == st.boundSession && t.index == st.index
            && t.firstTerminalIndex == (if own && HasType(o, "result") then Some(i) else st.firstTerminalIndex)
            && t.lastAssistantText ==
               if own && HasType(o, "assistant") && AssistantText(o).Some? then AssistantText(o) else st.lastAssistantText
  {
    hide Session, AssistantText, IsInit, HasType, Admit;
    TypesDiffer(o);
    Admitted(st, i, o, frame);
  }

  lemma Admitted(st: State, i: nat, o: Members, frame: Option<FrameRef>)
    ensures var t := Admit(st, i, o, frame);
            && t.initIndex == st.initIndex && t.boundSession == st.boundSession && t.index == st.index
            && t.firstTerminalIndex ==
               (if HasType(o, "result") && st.firstTerminalIndex.None? then Some(i) else st.firstTerminalIndex)
            && t.lastAssistantText ==
               if HasType(o, "assistant") && AssistantText(o).Some? then AssistantText(o) else st.lastAssistantText
  {
    hide AssistantText, ValidatedRateStatus, HasType, AdmitTerminal, AdmitText, AdmitRate;
    TypesDiffer(o);
    AdmittedTerminal(st, i, o, frame);
    AdmittedText(st, AssistantText(o));
    AdmittedRate(st, ValidatedRateStatus(o), frame);
  }

  lemma AdmittedTerminal(st: State, i: nat, o: Members, frame: Option<FrameRef>)
    ensures var t := AdmitTerminal(st, i, o, frame);
            && t.initIndex == st.initIndex && t.boundSession == st.boundSession && t.index == st.index
            && t.firstTerminalIndex == (if st.firstTerminalIndex.None? then Some(i) else st.firstTerminalIndex)
            && t.lastAssistantText == st.lastAssistantText
  {
    var st1 := st.(terminalCount := st.terminalCount + 1);
    if st.firstTerminalIndex.None? {
      assert AdmitTerminal(st, i, o, frame) == st1.(firstTerminalIndex := Some(i), capturedTerminal := Some(o), capturedFrame := frame);
    } else {
      assert AdmitTerminal(st, i, o, frame) == st1;
    }
  }

  lemma AdmittedText(st: State, text: Option<string>)
    ensures var t := AdmitText(st, text);
            && t.initIndex == st.initIndex && t.boundSession == st.boundSession && t.index == st.index
            && t.firstTerminalIndex == st.firstTerminalIndex
            && t.lastAssistantText == if text.Some? then text else st.lastAssistantText
  {
  }

  lemma AdmittedRate(st: State, status: Option<RateStatus>, frame: Option<FrameRef>)
    ensures var t := AdmitRate(st, status, frame);
            && t.initIndex == st.initIndex && t.boundSession == st.boundSession && t.index == st.index
            && t.firstTerminalIndex == st.firstTerminalIndex && t.lastAssistantText == st.lastAssistantText
  {
  }

  lemma ScopeOfMore(recs: seq<Item>, x: Item)
    ensures Bound(recs + [x]) == if Bound(recs).None? && InitLine(x) then SessionOf(x) else Bound(recs)
    ensures Ended(recs + [x]) <==> Ended(recs) || (InSession(Bound(recs), x) && ResultLine(x))
    ensures ScopedText(recs + [x]) ==
            if InSession(Bound(recs), x) && !Ended(recs) && HasType(x.line.members, "assistant")
               && AssistantText(x.line.members).Some?
            then AssistantText(x.line.members) else ScopedText(recs)
  {
    hide AssistantText, InitLine, HasType;
    assert (recs + [x])[..|recs|] == recs;
  }

  /** Main result. The verdict reports what a concluded stream's last record says, and of any other stream nothing. */
  lemma ReportsTheResult(items: seq<Item>)
    ensures var recs, turn := NonBlank(items), Verdict(PushAll(items));
            if exists p :: Concluded(recs, p) then recs != [] && ResultLine(recs[|recs| - 1]) && Reports(turn, recs)
            else ReportsNothing(turn, recs)
  {
    hide PushAll, Concluded, Reports, ReportsNothing, LastText, LastRate;
    var recs, st := NonBlank(items), PushAll(items);
    NonBlankPushes(items);
    MachineFollowsRule(recs);
    MachineIsScoped(recs);
    if p :| Concluded(recs, p) {
      ConcludedState(recs, st, p);
      StateReports(recs, st);
    } else {
      NotConcluded(recs, st);
    }
  }

  lemma ConcludedState(recs: seq<Item>, st: State, p: nat)
    requires Concluded(recs, p) && st == PushAll(recs) && (CleanState(st) <==> exists q :: CleanAt(recs, q))
    requires CleanState(st) ==> Remembers(recs, st)
    ensures recs != [] && ResultLine(recs[|recs| - 1])
    ensures CleanState(st) && Remembers(recs, st) && st.initIndex.Some? && st.terminalCount == 1
  {
    hide LastText, LastRate, KnownLine, AuthLine, RateLine, RateOf, PushAll;
    assert CleanAt(recs, p) && InitLine(recs[p]);
    PlaceIsClean(recs, st);
  }

  lemma StateReports(recs: seq<Item>, st: State)
    requires recs != [] && ResultLine(recs[|recs| - 1])
    requires CleanState(st) && Remembers(recs, st) && st.initIndex.Some? && st.terminalCount == 1
    ensures Reports(Verdict(st), recs)
  {
    hide LastText, CleanAt, ValidatedRateStatus, AccountingOk, SuccessTerminal, FailureTerminal, Succeeds, FailsCleanly, RejectedBy;
    var t := recs[|recs| - 1].line.members;
    SpelledOut(t);
    RateIsRecord(recs);
    if LastRate(recs).Some? {
      var x := LastRate(recs).value;
      RateIsValid(recs, st.initIndex.value, x);
      RejectionExactly(x.line.members);
    }
    AccountedNumber(t);
  }

  lemma AccountedNumber(t: Members)
    ensures WellAccounted(t) && "total_cost_usd" in t ==> NonNegNum(t["total_cost_usd"]) == Some(t["total_cost_usd"].value)
  {
  }

  lemma {:induction false} RateIsRecord(recs: seq<Item>)
    ensures LastRate(recs).Some? ==> LastRate(recs).value in recs && RateLine(LastRate(recs).value)
    decreases |recs|
  {
    hide RateLine;
    if recs != [] { RateIsRecord(recs[..|recs| - 1]); }
  }

  lemma RateIsValid(recs: seq<Item>, p: nat, x: Item)
    requires CleanAt(recs, p) && x in recs && RateLine(x)
    ensures RateOf(x).Some? && x.line.Record?
  {
    hide ValidatedRateStatus, KnownLine;
    var j :| 0 <= j < |recs| && recs[j] == x;
    TypesDiffer(x.line.members);
    assert AuthLine(x);
  }

  lemma NotConcluded(recs: seq<Item>, st: State)
    requires Scoped(recs, st) && (CleanState(st) ==> Remembers(recs, st)) && forall p :: !Concluded(recs, p)
    ensures ReportsNothing(Verdict(st), recs)
  {
    hide LastText, LastRate, ScopedText, Bound, Ended, AccountingOk, SuccessTerminal, FailureTerminal, CleanAt;
    if CleanState(st) && st.initIndex.Some? {
      assert !Concluded(recs, st.initIndex.value);
    }
  }

  /** The batch entry, every line through the same machine: its verdict has a terminal exactly when the whole text
      meets the rule, and reports what a concluded text's last record says and of any other nothing. */
  method NormalizeClaude(items: seq<Item>) returns (turn: NormalizedTurn)
    ensures turn == Verdict(PushAll(items))
    ensures turn.hasTerminal <==> exists p :: AcceptedStream(NonBlank(items), p)
    ensures var recs := NonBlank(items);
            if exists p :: Concluded(recs, p) then recs != [] && ResultLine(recs[|recs| - 1]) && Reports(turn, recs)
            else ReportsNothing(turn, recs)
  {
    hide Push, AcceptedStream, Verdict, Reports, ReportsNothing, Concluded;
    var n := new StreamingClaudeNormalizer();
    for i := 0 to |items|
      invariant n.Abstract() == PushAll(items[..i])
    {
      assert items[..i + 1][..i] == items[..i];
      n.PushLine(items[i].line, items[i].frame);
    }
    assert items[..|items|] == items;
    turn := n.Finish();
    AcceptsExactlyTheRule(items);
    ReportsTheResult(items);
  }
}
