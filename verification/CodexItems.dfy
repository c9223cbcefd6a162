/** The schema of a Codex item, kind by kind, and that validation is exactly it. */
module CodexItems {
  import opened Wrappers
  import opened Json
  import opened CodexStream

  const WORK_STATUS := Word({"in_progress", "completed", "failed"})

  /** The members each kind of item must have besides its id. */
  function ItemFields(kind: string): Option<seq<Member>> {
    match kind
    case "agent_message" => Some([Required("text", Text)])
    case "reasoning" => Some([Required("text", Text)])
    case "command_execution" =>
      Some([Required("command", Text), Required("aggregated_output", Text), Optional("exit_code", WholeOrNull),
            Required("status", Word({"in_progress", "completed", "failed", "declined"}))])
    case "file_change" =>
      Some([Required("changes", ListOf(RecordOf([Required("path", Text), Required("kind", Word({"add", "delete", "update"}))]))),
            Required("status", WORK_STATUS)])
    case "mcp_tool_call" => Some([Required("server", Text), Required("tool", Text), Required("status", WORK_STATUS)])
    case "collab_tool_call" =>
      Some([Required("tool", Word({"spawn_agent", "send_input", "wait", "close_agent"})), Required("sender_thread_id", Text),
            Required("receiver_thread_ids", ListOf(Text)), Required("status", WORK_STATUS)])
    case "web_search" => Some([Required("query", Text), Required("action", AnyRecord)])
    case "todo_list" =>
      Some([Required("items", ListOf(RecordOf([Required("text", Text), Required("completed", Flag)])))])
    case "error" => Some([Required("message", Text)])
    case _ => None
  }

  /** An item is valid exactly when it has a nonempty id and fits the schema of its kind. */
  lemma ItemsFitTheSchema(o: Members)
    ensures ValidItem(o) <==>
              && StringAt(o, "id").Some? && StringAt(o, "id").value != ""
              && ItemFields(TypeOf(o)).Some? && Fits(Obj(o), RecordOf(ItemFields(TypeOf(o)).value))
  {
    hide DetailOk, Fits, ItemFields;
    DetailsFit(o);
  }

  lemma DetailsFit(o: Members)
    ensures DetailOk(o) <==> ItemFields(TypeOf(o)).Some? && Fits(Obj(o), RecordOf(ItemFields(TypeOf(o)).value))
  {
    hide TodosOk, ChangesOk, StringsOk, HasString, StringIn, ExitCodeOk, FieldFits, TypeOf, Fits;
    var t := TypeOf(o);
    if t in {"command_execution", "collab_tool_call", "mcp_tool_call", "file_change", "web_search"} {
      LongDetailsFit(o, t);
    } else if ItemFields(t).Some? {
      var f := ItemFields(t).value;
      OneField(Obj(o), f[0]);
      TodosFit(o);
      TextFits(o, "text");
      TextFits(o, "message");
    }
  }

  lemma LongDetailsFit(o: Members, t: string)
    requires t == TypeOf(o) && t in {"command_execution", "collab_tool_call", "mcp_tool_call", "file_change", "web_search"}
    ensures ItemFields(t).Some?
    ensures DetailOk(o) <==> Fits(Obj(o), RecordOf(ItemFields(t).value))
  {
    hide TodosOk, ChangesOk, StringsOk, HasString, StringIn, ExitCodeOk, FieldFits, TypeOf, Fits;
    var f := ItemFields(t).value;
    WordFits(o, "status", WORK_STATUS.words);
    if t == "command_execution" {
      FourFields(Obj(o), f[0], f[1], f[2], f[3]);
      TextFits(o, "command");
      TextFits(o, "aggregated_output");
      ExitCodeFits(o);
      WordFits(o, "status", {"in_progress", "completed", "failed", "declined"});
    } else if t == "collab_tool_call" {
      FourFields(Obj(o), f[0], f[1], f[2], f[3]);
      WordFits(o, "tool", {"spawn_agent", "send_input", "wait", "close_agent"});
      TextFits(o, "sender_thread_id");
      StringsFit(o);
    } else if t == "mcp_tool_call" {
      ThreeFields(Obj(o), f[0], f[1], f[2]);
      TextFits(o, "server");
      TextFits(o, "tool");
    } else if t == "file_change" {
      TwoFields(Obj(o), f[0], f[1]);
      ChangesFit(o);
    } else {
      TwoFields(Obj(o), f[0], f[1]);
      TextFits(o, "query");
      ActionFits(o);
    }
  }

  lemma TextFits(o: Members, key: string)
    ensures FieldFits(o, Required(key, Text)) <==> HasString(o, key)
  {
  }

  lemma WordFits(o: Members, key: string, words: set<string>)
    ensures FieldFits(o, Required(key, Word(words))) <==> StringIn(o, key, words)
  {
  }

  lemma ExitCodeFits(o: Members)
    ensures FieldFits(o, Optional("exit_code", WholeOrNull)) <==> ExitCodeOk(o)
  {
  }

  lemma ActionFits(o: Members)
    ensures FieldFits(o, Required("action", AnyRecord)) <==> ObjectAt(o, "action").Some?
  {
  }

  lemma ChangesFit(o: Members)
    ensures ChangesOk(Field(o, "changes")) <==>
            FieldFits(o, Required("changes", ListOf(RecordOf([Required("path", Text), Required("kind", Word({"add", "delete", "update"}))]))))
  {
    if "changes" in o && o["changes"].Arr? {
      forall i | 0 <= i < |o["changes"].items|
        ensures var v := o["changes"].items[i];
                Fits(v, RecordOf([Required("path", Text), Required("kind", Word({"add", "delete", "update"}))])) <==>
                v.Obj? && HasString(v.members, "path") && StringIn(v.members, "kind", {"add", "delete", "update"}) {
        TwoFields(o["changes"].items[i], Required("path", Text), Required("kind", Word({"add", "delete", "update"})));
      }
    }
  }

  lemma TodosFit(o: Members)
    ensures TodosOk(Field(o, "items")) <==>
            FieldFits(o, Required("items", ListOf(RecordOf([Required("text", Text), Required("completed", Flag)]))))
  {
    if "items" in o && o["items"].Arr? {
      forall i | 0 <= i < |o["items"].items|
        ensures var v := o["items"].items[i];
                Fits(v, RecordOf([Required("text", Text), Required("completed", Flag)])) <==>
                v.Obj? && HasString(v.members, "text") && "completed" in v.members && v.members["completed"].Bool? {
        TwoFields(o["items"].items[i], Required("text", Text), Required("completed", Flag));
      }
    }
  }

  lemma StringsFit(o: Members)
    ensures StringsOk(Field(o, "receiver_thread_ids")) <==> FieldFits(o, Required("receiver_thread_ids", ListOf(Text)))
  {
  }

  lemma OneField(v: Json, a: Member)
    ensures Fits(v, RecordOf([a])) <==> v.Obj? && FieldFits(v.members, a)
  {
    assert a in [a];
  }

  lemma TwoFields(v: Json, a: Member, b: Member)
    ensures Fits(v, RecordOf([a, b])) <==> v.Obj? && FieldFits(v.members, a) && FieldFits(v.members, b)
  {
    assert a in [a, b] && b in [a, b];
  }

  lemma ThreeFields(v: Json, a: Member, b: Member, c: Member)
    ensures Fits(v, RecordOf([a, b, c])) <==>
            v.Obj? && FieldFits(v.members, a) && FieldFits(v.members, b) && FieldFits(v.members, c)
  {
    assert a in [a, b, c] && b in [a, b, c] && c in [a, b, c];
  }

  lemma FourFields(v: Json, a: Member, b: Member, c: Member, d: Member)
    ensures Fits(v, RecordOf([a, b, c, d])) <==>
            && v.Obj? && FieldFits(v.members, a) && FieldFits(v.members, b) && FieldFits(v.members, c)
            && FieldFits(v.members, d)
  {
    assert a in [a, b, c, d] && b in [a, b, c, d] && c in [a, b, c, d] && d in [a, b, c, d];
  }

  // ---- the events of the lifecycle ----

  predicate HasText(o: Members, key: string) { key in o && o[key].Str? }

  /** The words of the lifecycle language, said of the JSON of a record. A completed turn is `CodexStream.Metered`. */
  lemma EventsSpelledOut(o: Members)
    ensures ThreadStarted(o) <==> IsString(o, "type", "thread.started") && HasText(o, "thread_id") && o["thread_id"] != Str("")
    ensures TurnStarted(o) <==> IsString(o, "type", "turn.started")
    ensures ItemEvent(o) <==>
              && (IsString(o, "type", "item.started") || IsString(o, "type", "item.updated") || IsString(o, "type", "item.completed"))
              && "item" in o && o["item"].Obj? && ValidItem(o["item"].members)
    ensures TurnFailed(o) <==>
              IsString(o, "type", "turn.failed") && "error" in o && o["error"].Obj? && HasText(o["error"].members, "message")
    ensures ErrorEvent(o) <==> IsString(o, "type", "error") && HasText(o, "message")
    ensures forall text :: AgentText(o) == Some(text) <==>
              && IsString(o, "type", "item.completed") && "item" in o && o["item"].Obj? && ValidItem(o["item"].members)
              && IsString(o["item"].members, "type", "agent_message") && IsString(o["item"].members, "text", text)
  {
    hide ValidItem;
    TypeIs(o);
    if "item" in o && o["item"].Obj? { TypeIs(o["item"].members); }
  }

  lemma TypeIs(o: Members)
    ensures forall t :: t != "" ==> (TypeOf(o) == t <==> IsString(o, "type", t))
  {
  }
}
