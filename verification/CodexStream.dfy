/** The one-pass verdict machine for Codex json output, and the regular language it decides. */
module CodexStream {
  import opened Wrappers
  import opened Json

  const ITEM_TYPES := {"item.started", "item.updated", "item.completed"}
  const EVENT_TYPES := ITEM_TYPES + {"thread.started", "turn.started", "turn.completed", "turn.failed", "error"}

  function TypeOf(o: Members): string {
    var t := StringAt(o, "type");
    if t.Some? then t.value else ""
  }

  // ---- items ----

  predicate HasString(o: Members, key: string) { StringAt(o, key).Some? }
  predicate StringIn(o: Members, key: string, allowed: set<string>) {
    StringAt(o, key).Some? && StringAt(o, key).value in allowed
  }

  predicate ExitCodeOk(o: Members) {
    "exit_code" !in o || o["exit_code"].Null? || (o["exit_code"].Num? && o["exit_code"].value == o["exit_code"].value.Floor as real)
  }

  predicate ChangesOk(v: Option<Json>) {
    v.Some? && v.value.Arr?
    && forall i :: 0 <= i < |v.value.items| ==>
         && v.value.items[i].Obj?
         && HasString(v.value.items[i].members, "path")
         && StringIn(v.value.items[i].members, "kind", {"add", "delete", "update"})
  }

  predicate TodosOk(v: Option<Json>) {
    v.Some? && v.value.Arr?
    && forall i :: 0 <= i < |v.value.items| ==>
         && v.value.items[i].Obj?
         && HasString(v.value.items[i].members, "text")
         && "completed" in v.value.items[i].members && v.value.items[i].members["completed"].Bool?
  }

  predicate StringsOk(v: Option<Json>) {
    v.Some? && v.value.Arr? && forall i :: 0 <= i < |v.value.items| ==> v.value.items[i].Str?
  }

  predicate DetailOk(o: Members) {
    match TypeOf(o)
    case "agent_message" => HasString(o, "text")
    case "reasoning" => HasString(o, "text")
    case "command_execution" =>
      HasString(o, "command") && HasString(o, "aggregated_output") && ExitCodeOk(o)
      && StringIn(o, "status", {"in_progress", "completed", "failed", "declined"})
    case "file_change" => ChangesOk(Field(o, "changes")) && StringIn(o, "status", {"in_progress", "completed", "failed"})
    case "mcp_tool_call" =>
      HasString(o, "server") && HasString(o, "tool") && StringIn(o, "status", {"in_progress", "completed", "failed"})
    case "collab_tool_call" =>
      StringIn(o, "tool", {"spawn_agent", "send_input", "wait", "close_agent"}) && HasString(o, "sender_thread_id")
      && StringsOk(Field(o, "receiver_thread_ids")) && StringIn(o, "status", {"in_progress", "completed", "failed"})
    case "web_search" => HasString(o, "query") && ObjectAt(o, "action").Some?
    case "todo_list" => TodosOk(Field(o, "items"))
    case "error" => HasString(o, "message")
    case _ => false
  }

  predicate ValidItem(o: Members) {
    StringAt(o, "id").Some? && StringAt(o, "id").value != "" && DetailOk(o)
  }

  /** The text a completed, well-formed agent message supplies. */
  function AgentText(o: Members): Option<string> {
    match ObjectAt(o, "item")
    case None => None
    case Some(item) =>
      if TypeOf(o) == "item.completed" && ValidItem(item) && TypeOf(item) == "agent_message" then StringAt(item, "text") else None
  }

  predicate UsageOk(o: Members) {
    match ObjectAt(o, "usage")
    case None => false
    case Some(u) =>
      forall k :: k in {"input_tokens", "cached_input_tokens", "output_tokens", "reasoning_output_tokens"} ==>
        k in u && SafeCount(u[k]).Some?
  }

  // ---- the events of the lifecycle ----

  predicate ThreadStarted(o: Members) {
    TypeOf(o) == "thread.started" && StringAt(o, "thread_id").Some? && StringAt(o, "thread_id").value != ""
  }
  predicate TurnStarted(o: Members) { TypeOf(o) == "turn.started" }
  predicate ItemEvent(o: Members) {
    TypeOf(o) in ITEM_TYPES && ObjectAt(o, "item").Some? && ValidItem(ObjectAt(o, "item").value)
  }
  predicate TurnCompleted(o: Members) { TypeOf(o) == "turn.completed" && UsageOk(o) }
  predicate TurnFailed(o: Members) {
    TypeOf(o) == "turn.failed" && ObjectAt(o, "error").Some? && HasString(ObjectAt(o, "error").value, "message")
  }
  predicate ErrorEvent(o: Members) { TypeOf(o) == "error" && HasString(o, "message") }

  // ---- the machine ----

  datatype Phase = Init | Thread | Turn | Done

  datatype State = State(
    lastAgentText: Option<string>,
    phase: Phase,
    lifecycleValid: bool,
    terminalCount: nat,
    terminalError: bool,
    usageValid: bool,
    inputTokens: Option<real>,
    outputTokens: Option<real>,
    capturedFrame: Option<FrameRef>)

  const START := State(None, Init, true, 0, false, false, None, None, None)

  function Capture(st: State, frame: Option<FrameRef>): State {
    st.(capturedFrame := if st.terminalCount == 0 && frame.Some? then frame else st.capturedFrame,
        terminalCount := st.terminalCount + 1, phase := Done)
  }

  function Tokens(o: Members, key: string): Option<real> {
    var u := ObjectAt(o, "usage");
    if u.Some? && key in u.value then SafeCount(u.value[key]) else None
  }

  function PushRecord(st: State, o: Members, frame: Option<FrameRef>): State {
    var t := TypeOf(o);
    var invalid := st.(lifecycleValid := false);
    if st.phase == Done then invalid
    else if t !in EVENT_TYPES then invalid
    else if t == "error" then
      Capture(st, frame).(terminalError := true, lifecycleValid := st.lifecycleValid && HasString(o, "message"))
    else if t == "thread.started" then
      if st.phase == Init && ThreadStarted(o) then st.(phase := Thread) else invalid
    else if t == "turn.started" then
      if st.phase == Thread then st.(phase := Turn) else invalid
    else if t in ITEM_TYPES then
      if st.phase != Turn || !ItemEvent(o) then invalid
      else if AgentText(o).Some? then st.(lastAgentText := AgentText(o)) else st
    else
      var ended := Capture(st, frame).(lifecycleValid := st.lifecycleValid && st.phase == Turn);
      if t == "turn.failed" then ended.(terminalError := true, lifecycleValid := ended.lifecycleValid && TurnFailed(o))
      else if UsageOk(o) then
        ended.(usageValid := true, inputTokens := Tokens(o, "input_tokens"), outputTokens := Tokens(o, "output_tokens"))
      else ended.(lifecycleValid := false)
  }

  function Push(st: State, x: Item): State {
    match x.line
    case Blank => st
    case NotObject => st.(lifecycleValid := false)
    case Record(o) => PushRecord(st, o, x.frame)
  }

  function PushAll(items: seq<Item>): State {
    if items == [] then START else Push(PushAll(items[..|items| - 1]), items[|items| - 1])
  }

  function Verdict(st: State): NormalizedTurn {
    var clean := st.lifecycleValid && st.phase == Done && st.terminalCount == 1;
    NormalizedTurn(
      if st.lastAgentText.Some? then st.lastAgentText.value else "",
      clean,
      clean && !st.terminalError && st.usageValid && st.lastAgentText.Some?,
      None, false, None, st.inputTokens, st.outputTokens,
      if clean then st.capturedFrame else None,
      None)
  }

  class StreamingCodexNormalizer {
    var lastAgentText: Option<string>
    var phase: Phase
    var lifecycleValid: bool
    var terminalCount: nat
    var terminalError: bool
    var usageValid: bool
    var inputTokens: Option<real>
    var outputTokens: Option<real>
    var capturedFrame: Option<FrameRef>

    function Abstract(): State
      reads this
    {
      State(lastAgentText, phase, lifecycleValid, terminalCount, terminalError, usageValid, inputTokens, outputTokens, capturedFrame)
    }

    constructor ()
      ensures Abstract() == START
    {
      lastAgentText, inputTokens, outputTokens, capturedFrame := None, None, None, None;
      phase, lifecycleValid, terminalCount := Init, true, 0;
      terminalError, usageValid := false, false;
    }

    /** Bind the verdict to the first terminal event's bytes. */
    method CaptureTerminal(frame: Option<FrameRef>)
      modifies this`capturedFrame, this`terminalCount, this`phase
      ensures Abstract() == Capture(old(Abstract()), frame)
    {
      if terminalCount == 0 && frame.Some? { capturedFrame := frame; }
      terminalCount := terminalCount + 1;
      phase := Done;
    }

    method PushLine(line: Line, frame: Option<FrameRef>)
      modifies this
      ensures Abstract() == Push(old(Abstract()), Item(line, frame))
    {
      hide DetailOk, ValidItem, TypeOf, HasString, ObjectAt, UsageOk, Tokens, StringAt;
      if line.Blank? { return; }
      if line.NotObject? {
        lifecycleValid := false;
        return;
      }
      var o := line.members;
      var t := TypeOf(o);
      if phase == Done || t !in EVENT_TYPES {
        lifecycleValid := false;
        return;
      }
      if t == "error" {
        if !HasString(o, "message") { lifecycleValid := false; }
        terminalError := true;
        CaptureTerminal(frame);
      } else if t == "thread.started" {
        if phase != Init || !ThreadStarted(o) { lifecycleValid := false; } else { phase := Thread; }
      } else if t == "turn.started" {
        if phase != Thread { lifecycleValid := false; } else { phase := Turn; }
      } else if t in ITEM_TYPES {
        PushItem(o, t);
      } else {
        PushTerminal(o, t, frame);
      }
    }

    method PushItem(o: Members, t: string)
      requires phase != Done && t == TypeOf(o) && t in ITEM_TYPES
      modifies this`lifecycleValid, this`lastAgentText
      ensures lifecycleValid == (old(lifecycleValid) && phase == Turn && ItemEvent(o))
      ensures lastAgentText == (if phase == Turn && ItemEvent(o) && AgentText(o).Some? then AgentText(o) else old(lastAgentText))
    {
      if phase != Turn {
        lifecycleValid := false;
        return;
      }
      var item := ObjectAt(o, "item");
      if item.None? || !ValidItem(item.value) {
        lifecycleValid := false;
        return;
      }
      if t == "item.completed" && TypeOf(item.value) == "agent_message" && StringAt(item.value, "text").Some? {
        lastAgentText := StringAt(item.value, "text");
      }
    }

    method PushTerminal(o: Members, t: string, frame: Option<FrameRef>)
      requires phase != Done && t == TypeOf(o) && (t == "turn.completed" || t == "turn.failed")
      modifies this
      ensures Abstract() == PushRecord(old(Abstract()), o, frame)
    {
      hide DetailOk, ValidItem, HasString, ObjectAt, UsageOk, Tokens, StringAt, TypeOf, AgentText;
      if phase != Turn { lifecycleValid := false; }
      CaptureTerminal(frame);
      if t == "turn.failed" {
        terminalError := true;
        if !TurnFailed(o) { lifecycleValid := false; }
      }
      if t == "turn.completed" {
        if UsageOk(o) {
          usageValid := true;
          inputTokens := Tokens(o, "input_tokens");
          outputTokens := Tokens(o, "output_tokens");
        } else {
          lifecycleValid := false;
        }
      }
    }

    method Finish() returns (turn: NormalizedTurn)
      ensures turn == Verdict(Abstract())
    {
      var clean := lifecycleValid && phase == Done && terminalCount == 1;
      var success := clean && !terminalError && usageValid && lastAgentText.Some?;
      turn := NormalizedTurn(
        if lastAgentText.Some? then lastAgentText.value else "",
        clean, success, None, false, None, inputTokens, outputTokens,
        if clean then capturedFrame else None, None);
    }
  }

  // ---- the language ----

  predicate Is(x: Item, p: Members -> bool) { x.line.Record? && p(x.line.members) }

  /** A thread start, a turn start, then valid items: any prefix of that. */
  predicate Opening(recs: seq<Item>) {
    && (|recs| >= 1 ==> Is(recs[0], ThreadStarted))
    && (|recs| >= 2 ==> Is(recs[1], TurnStarted))
    && (forall j :: 2 <= j < |recs| ==> Is(recs[j], ItemEvent))
  }

  /** The lifecycle ended by its one valid terminal, or any prefix of it ended by a valid error. */
  predicate Lifecycle(recs: seq<Item>) {
    && recs != [] && Opening(recs[..|recs| - 1])
    && var last := recs[|recs| - 1];
       Is(last, ErrorEvent) || (|recs| >= 3 && (Is(last, TurnCompleted) || Is(last, TurnFailed)))
  }

  predicate SuccessfulLifecycle(recs: seq<Item>) {
    && Lifecycle(recs) && Is(recs[|recs| - 1], TurnCompleted)
    && exists j :: 0 <= j < |recs| && recs[j].line.Record? && AgentText(recs[j].line.members).Some?
  }

  function LastAgentText(recs: seq<Item>): Option<string> {
    if recs == [] then None
    else
      var x := recs[|recs| - 1];
      if x.line.Record? && AgentText(x.line.members).Some? then AgentText(x.line.members)
      else LastAgentText(recs[..|recs| - 1])
  }

  /** What the machine holds while its lifecycle is valid. */
  ghost predicate Remembers(recs: seq<Item>, st: State) {
    && st.lastAgentText == LastAgentText(recs)
    && (st.phase != Done ==>
          && Opening(recs)
          && st.terminalCount == 0 && !st.terminalError && !st.usageValid && st.capturedFrame.None?
          && st.phase == (if |recs| == 0 then Init else if |recs| == 1 then Thread else Turn))
    && (st.phase == Done ==>
          && Lifecycle(recs)
          && st.terminalCount == 1
          && (st.usageValid && !st.terminalError <==> Is(recs[|recs| - 1], TurnCompleted))
          && st.capturedFrame == recs[|recs| - 1].frame)
  }

  lemma EventTypesDiffer(o: Members)
    ensures ThreadStarted(o) ==> !ItemEvent(o) && !ErrorEvent(o) && !TurnCompleted(o) && !TurnFailed(o) && !TurnStarted(o)
    ensures TurnStarted(o) ==> !ItemEvent(o) && !ErrorEvent(o) && !TurnCompleted(o) && !TurnFailed(o)
    ensures ItemEvent(o) ==> !ErrorEvent(o) && !TurnCompleted(o) && !TurnFailed(o)
    ensures ErrorEvent(o) ==> !TurnCompleted(o) && !TurnFailed(o)
    ensures TurnCompleted(o) ==> !TurnFailed(o)
    ensures AgentText(o).Some? ==> ItemEvent(o)
  {
    hide ValidItem, HasString, ObjectAt, UsageOk;
  }

  /** What one more line may be: on an open lifecycle, its next event. */
  predicate Continues(n: nat, x: Item) {
    || Is(x, ErrorEvent)
    || (n == 0 && Is(x, ThreadStarted))
    || (n == 1 && Is(x, TurnStarted))
    || (n >= 2 && (Is(x, ItemEvent) || Is(x, TurnCompleted) || Is(x, TurnFailed)))
  }

  lemma PushContinues(recs: seq<Item>, st: State, x: Item)
    requires !x.line.Blank? && st.lifecycleValid && Remembers(recs, st)
    ensures Push(st, x).lifecycleValid <==> st.phase != Done && Continues(|recs|, x)
  {
    hide ValidItem, HasString, ObjectAt, UsageOk, Tokens, AgentText, Opening, Lifecycle, LastAgentText;
    if x.line.Record? { EventTypesDiffer(x.line.members); }
  }

  lemma OpeningMore(recs: seq<Item>, x: Item)
    requires Opening(recs)
    ensures (recs + [x])[..|recs|] == recs && (recs + [x])[|recs|] == x
    ensures Opening(recs + [x]) <==>
            (|recs| == 0 && Is(x, ThreadStarted)) || (|recs| == 1 && Is(x, TurnStarted)) || (|recs| >= 2 && Is(x, ItemEvent))
    ensures Lifecycle(recs + [x]) <==> Is(x, ErrorEvent) || (|recs| >= 2 && (Is(x, TurnCompleted) || Is(x, TurnFailed)))
    ensures LastAgentText(recs + [x]) ==
            if x.line.Record? && AgentText(x.line.members).Some? then AgentText(x.line.members) else LastAgentText(recs)
  {
    hide Is, ThreadStarted, TurnStarted, ItemEvent, ErrorEvent, TurnCompleted, TurnFailed, AgentText;
    var more := recs + [x];
    assert more[..|recs|] == recs && more[|recs|] == x;
    assert forall j :: 0 <= j < |recs| ==> more[j] == recs[j];
  }

  lemma PushRemembers(recs: seq<Item>, st: State, x: Item)
    requires st.lifecycleValid && st.phase != Done && Remembers(recs, st) && Continues(|recs|, x)
    ensures Remembers(recs + [x], Push(st, x))
  {
    hide ValidItem, HasString, ObjectAt, Tokens, Opening, Lifecycle, LastAgentText, AgentText;
    OpeningMore(recs, x);
    EventTypesDiffer(x.line.members);
  }

  /** An open lifecycle stays open or ends only by what continues it; an ended one never continues. */
  lemma LifecyclePrefix(recs: seq<Item>, x: Item)
    ensures Opening(recs + [x]) || Lifecycle(recs + [x]) ==> Opening(recs) && Continues(|recs|, x)
    ensures Lifecycle(recs) ==> !Opening(recs)
  {
    hide ThreadStarted, TurnStarted, ItemEvent, ErrorEvent, TurnCompleted, TurnFailed;
    var more := recs + [x];
    assert more[..|recs|] == recs && more[|recs|] == x;
    assert forall j :: 0 <= j < |recs| ==> more[j] == recs[j];
    if Lifecycle(recs) && recs[|recs| - 1].line.Record? { EventTypesDiffer(recs[|recs| - 1].line.members); }
  }

  lemma {:induction false} MachineFollowsLanguage(recs: seq<Item>)
    requires forall x :: x in recs ==> !x.line.Blank?
    ensures PushAll(recs).lifecycleValid <==> Opening(recs) || Lifecycle(recs)
    ensures PushAll(recs).lifecycleValid ==> Remembers(recs, PushAll(recs))
    decreases |recs|
  {
    if recs != [] {
      hide Push, Opening, Lifecycle, Continues, LastAgentText;
      var n := |recs| - 1;
      var front, x := recs[..n], recs[n];
      assert recs == front + [x];
      MachineFollowsLanguage(front);
      LifecyclePrefix(front, x);
      var st := PushAll(front);
      if st.lifecycleValid {
        PushContinues(front, st, x);
        if st.phase != Done && Continues(|front|, x) {
          PushRemembers(front, st, x);
        }
      } else {
        InvalidStays(st, x);
      }
    }
  }

  lemma InvalidStays(st: State, x: Item)
    requires !st.lifecycleValid
    ensures !Push(st, x).lifecycleValid
  {
    hide ValidItem, HasString, ObjectAt, UsageOk, Tokens, AgentText, TypeOf, ItemEvent, ThreadStarted, TurnFailed;
  }

  lemma NonBlankPushes(items: seq<Item>)
    ensures PushAll(NonBlank(items)) == PushAll(items)
    ensures forall x :: x in NonBlank(items) ==> !x.line.Blank?
    decreases |items|
  {
    if items != [] {
      var front, x := items[..|items| - 1], items[|items| - 1];
      NonBlankPushes(front);
      if !x.line.Blank? {
        assert (NonBlank(front) + [x])[..|NonBlank(front)|] == NonBlank(front);
      }
    }
  }

  lemma {:induction false} SomeAgentText(recs: seq<Item>)
    ensures LastAgentText(recs).Some? <==>
            exists j :: 0 <= j < |recs| && recs[j].line.Record? && AgentText(recs[j].line.members).Some?
    decreases |recs|
  {
    hide AgentText;
    if recs != [] {
      var front := recs[..|recs| - 1];
      SomeAgentText(front);
      assert forall j :: 0 <= j < |front| ==> front[j] == recs[j];
    }
  }

  /** Main result: a clean terminal exactly on the lifecycle language, success exactly on its successful words,
      and the terminal frame is the last line's. */
  lemma AcceptsExactlyTheLanguage(items: seq<Item>)
    ensures Verdict(PushAll(items)).hasTerminal <==> Lifecycle(NonBlank(items))
    ensures Verdict(PushAll(items)).success <==> SuccessfulLifecycle(NonBlank(items))
    ensures var recs, v := NonBlank(items), Verdict(PushAll(items));
            v.terminalFrame == if v.hasTerminal then recs[|recs| - 1].frame else None
    ensures !Verdict(PushAll(items)).explicitLimit
  {
    hide Opening, Lifecycle, AgentText, TurnCompleted;
    var recs := NonBlank(items);
    NonBlankPushes(items);
    MachineFollowsLanguage(recs);
    SomeAgentText(recs);
    LifecyclePrefix(recs, Item(NotObject, None));
  }

  // ---- what the verdict reports, for every text ----

  /** A record of a kind that ends the stream, whatever came before it and however malformed it is. */
  predicate Ends(x: Item) { x.line.Record? && TypeOf(x.line.members) in {"error", "turn.completed", "turn.failed"} }

  /** The first record that ends the stream. */
  function End(recs: seq<Item>): Option<Item> {
    if recs == [] then None
    else
      var e, x := End(recs[..|recs| - 1]), recs[|recs| - 1];
      if e.None? && Ends(x) then Some(x) else e
  }

  predicate Threaded(recs: seq<Item>) { exists i :: 0 <= i < |recs| && Is(recs[i], ThreadStarted) }
  predicate InTurn(recs: seq<Item>) { exists k :: 0 <= k < |recs| && Is(recs[k], TurnStarted) && Threaded(recs[..k]) }

  /** The last completed agent message said inside a turn before anything ended the stream. */
  function Said(recs: seq<Item>): Option<string> {
    if recs == [] then None
    else
      var front, x := recs[..|recs| - 1], recs[|recs| - 1];
      if End(front).None? && InTurn(front) && x.line.Record? && AgentText(x.line.members).Some? then AgentText(x.line.members)
      else Said(front)
  }

  predicate WholeCount(u: Members, key: string) {
    key in u && u[key].Num? && 0.0 <= u[key].value <= 9007199254740991.0 && u[key].value == u[key].value.Floor as real
  }

  /** A turn.completed record with all four counters well formed. */
  predicate Metered(x: Item) {
    && x.line.Record? && var o := x.line.members;
    && "type" in o && o["type"] == Str("turn.completed") && "usage" in o && o["usage"].Obj?
    && var u := o["usage"].members;
    && WholeCount(u, "input_tokens") && WholeCount(u, "cached_input_tokens")
    && WholeCount(u, "output_tokens") && WholeCount(u, "reasoning_output_tokens")
  }

  /** Both counts are those of a metered end, and none of any other. */
  predicate CountsOf(x: Item, inputs: Option<real>, outputs: Option<real>) {
    if Metered(x) then
      var u := x.line.members["usage"].members;
      inputs.Some? && u["input_tokens"] == Num(inputs.value) && outputs.Some? && u["output_tokens"] == Num(outputs.value)
    else inputs.None? && outputs.None?
  }

  /** The verdict field by field: no cost, no limit and no subtype is ever reported; the counts are those of the record
      that ended the stream; the text is the last one said in the turn. */
  ghost predicate Reports(turn: NormalizedTurn, recs: seq<Item>) {
    && (turn.hasTerminal <==> Lifecycle(recs)) && (turn.success <==> SuccessfulLifecycle(recs))
    && turn.terminalFrame == (if Lifecycle(recs) then recs[|recs| - 1].frame else None)
    && turn.finalText == (if Said(recs).Some? then Said(recs).value else "")
    && (End(recs).Some? ==> CountsOf(End(recs).value, turn.inputTokens, turn.outputTokens))
    && (End(recs).None? ==> turn.inputTokens.None? && turn.outputTokens.None?)
    && turn.usd.None? && turn.subtype.None? && turn.limitFrame.None? && !turn.explicitLimit
  }

  lemma MeteredExactly(x: Item)
    ensures Metered(x) <==> Is(x, TurnCompleted)
    ensures if Metered(x) then CountsOf(x, Tokens(x.line.members, "input_tokens"), Tokens(x.line.members, "output_tokens"))
            else CountsOf(x, None, None)
  {
    if Metered(x) { assert UsageOk(x.line.members); }
  }

  /** What the machine holds of any text, valid or not. */
  ghost predicate Holds(recs: seq<Item>, st: State) {
    && st.phase == (if End(recs).Some? then Done else if InTurn(recs) then Turn else if Threaded(recs) then Thread else Init)
    && st.lastAgentText == Said(recs)
    && (End(recs).Some? ==> CountsOf(End(recs).value, st.inputTokens, st.outputTokens))
    && (End(recs).None? ==> st.inputTokens.None? && st.outputTokens.None?)
  }

  lemma MoreText(recs: seq<Item>, x: Item)
    ensures End(recs + [x]) == if End(recs).None? && Ends(x) then Some(x) else End(recs)
    ensures Threaded(recs + [x]) <==> Threaded(recs) || Is(x, ThreadStarted)
    ensures InTurn(recs + [x]) <==> InTurn(recs) || (Threaded(recs) && Is(x, TurnStarted))
    ensures Said(recs + [x]) ==
            if End(recs).None? && InTurn(recs) && x.line.Record? && AgentText(x.line.members).Some? then AgentText(x.line.members)
            else Said(recs)
  {
    hide Is, Ends, AgentText;
    var more := recs + [x];
    assert more[..|recs|] == recs && more[|recs|] == x;
    assert forall j :: 0 <= j < |recs| ==> more[j] == recs[j] && more[..j] == recs[..j];
    if Threaded(recs) { var j :| 0 <= j < |recs| && Is(recs[j], ThreadStarted); assert Is(more[j], ThreadStarted); }
    if InTurn(recs) {
      var j :| 0 <= j < |recs| && Is(recs[j], TurnStarted) && Threaded(recs[..j]);
      assert Is(more[j], TurnStarted) && Threaded(more[..j]);
    }
  }

  lemma {:induction false} MachineHolds(recs: seq<Item>)
    requires forall x :: x in recs ==> !x.line.Blank?
    ensures Holds(recs, PushAll(recs))
    decreases |recs|
  {
    if recs != [] {
      hide Push, Holds;
      var front, x := recs[..|recs| - 1], recs[|recs| - 1];
      assert recs == front + [x];
      MachineHolds(front);
      PushHolds(front, PushAll(front), x);
    } else {
      assert Holds([], START);
    }
  }

  lemma PushHolds(recs: seq<Item>, st: State, x: Item)
    requires Holds(recs, st) && !x.line.Blank?
    ensures Holds(recs + [x], Push(st, x))
  {
    hide ValidItem, HasString, ObjectAt, StringAt, UsageOk, Tokens, AgentText, End, InTurn, Threaded, Said, Metered, CountsOf;
    MoreText(recs, x);
    MeteredExactly(x);
    if x.line.Record? { EventTypesDiffer(x.line.members); }
  }

  /** Main result, for every text: its verdict, field by field. */
  lemma ReportsTheStream(items: seq<Item>)
    ensures Reports(Verdict(PushAll(items)), NonBlank(items))
  {
    hide Opening, Lifecycle, SuccessfulLifecycle, PushAll, End, CountsOf, Said;
    var recs := NonBlank(items);
    NonBlankPushes(items);
    MachineHolds(recs);
    AcceptsExactlyTheLanguage(items);
  }

  /** The batch entry, every line through the same machine: a clean terminal and success exactly on the language, and
      every other field as the text has it. */
  method NormalizeCodex(items: seq<Item>) returns (turn: NormalizedTurn)
    ensures turn == Verdict(PushAll(items))
    ensures Reports(turn, NonBlank(items))
  {
    hide Push, Reports, Verdict;
    var n := new StreamingCodexNormalizer();
    for i := 0 to |items|
      invariant n.Abstract() == PushAll(items[..i])
    {
      assert items[..i + 1][..i] == items[..i];
      n.PushLine(items[i].line, items[i].frame);
    }
    assert items[..|items|] == items;
    turn := n.Finish();
    ReportsTheStream(items);
  }
}
