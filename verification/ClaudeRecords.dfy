/** What the records of a Claude stream must be, said of the JSON itself: the accounting and the outcome of a result, a
    rate snapshot and its rejection, and the text of an assistant's message. */
module ClaudeRecords {
  import opened Wrappers
  import opened Json
  import opened ClaudeStream

  // ---- the result ----

  /** A member that is a whole number of JSON's exact range, and nothing that is not. */
  ghost predicate CountIs(o: Members, key: string, n: Option<real>) {
    match n
    case Some(v) => key in o && o[key] == Num(v) && 0.0 <= v <= 9007199254740991.0 && v.Floor as real == v
    case None => key in o ==> !o[key].Num? || o[key].value < 0.0 || o[key].value > 9007199254740991.0
                              || o[key].value.Floor as real != o[key].value
  }

  predicate ValidCount(o: Members, key: string) {
    key in o ==> o[key].Num? && 0.0 <= o[key].value <= 9007199254740991.0 && o[key].value.Floor as real == o[key].value
  }

  /** No accounting member of the result is malformed: the cost is a number that is not negative, the usage an object, its
      two counts whole and in range; absent members are fine. */
  predicate WellAccounted(t: Members) {
    && ("total_cost_usd" in t ==> t["total_cost_usd"].Num? && t["total_cost_usd"].value >= 0.0)
    && ("usage" in t ==>
          && t["usage"].Obj? && ValidCount(t["usage"].members, "input_tokens") && ValidCount(t["usage"].members, "output_tokens"))
  }

  predicate Succeeds(t: Members) {
    WellAccounted(t) && IsString(t, "subtype", "success") && "is_error" in t && t["is_error"] == Bool(false)
    && "result" in t && t["result"].Str?
  }

  predicate FailsCleanly(t: Members) {
    && WellAccounted(t) && "is_error" in t && t["is_error"] == Bool(true)
    && (IsString(t, "subtype", "error_during_execution") || IsString(t, "subtype", "error_max_turns")
        || IsString(t, "subtype", "error_max_budget_usd") || IsString(t, "subtype", "error_max_structured_output_retries"))
  }

  /** An effective rejection: the snapshot says rejected, and no overage that is in use allows the call all the same. */
  predicate RejectedBy(info: Members) {
    && IsString(info, "status", "rejected")
    && !("isUsingOverage" in info && info["isUsingOverage"] == Bool(true)
         && (IsString(info, "overageStatus", "allowed") || IsString(info, "overageStatus", "allowed_warning")))
  }

  lemma SpelledOut(t: Members)
    ensures AccountingOk(t) <==> WellAccounted(t)
    ensures SuccessTerminal(t) <==> Succeeds(t)
    ensures FailureTerminal(t) <==> FailsCleanly(t)
  {
  }

  lemma RejectionExactly(o: Members)
    requires ValidatedRateStatus(o).Some?
    ensures ValidatedRateStatus(o) == Some(Rejected) <==>
              "rate_limit_info" in o && o["rate_limit_info"].Obj? && RejectedBy(o["rate_limit_info"].members)
  {
  }

  // ---- what a validated snapshot and a text are ----

  const ANY_STATUS := Word({"allowed", "allowed_warning", "rejected"})
  const WRAPPER := RecordOf([Required("utilization", Amount)])

  /** The pinned schema of a rate snapshot, member by member. */
  const SNAPSHOT := [
    Required("status", ANY_STATUS),
    Optional("resetsAt", Count),
    Optional("rateLimitType",
             Word({"five_hour", "seven_day", "seven_day_opus", "seven_day_sonnet", "seven_day_overage_included", "overage"})),
    Optional("utilization", Amount),
    Optional("overageStatus", ANY_STATUS),
    Optional("overageResetsAt", Count),
    Optional("overageDisabledReason", Word(DISABLED_REASONS)),
    Optional("isUsingOverage", Flag),
    Optional("overageInUse", Flag),
    Optional("surpassedThreshold", Amount),
    Optional("overagePeriodMonthly", WRAPPER),
    Optional("overagePeriodChannel", WRAPPER),
    Optional("errorCode", Word({"credits_required"})),
    Optional("canUserPurchaseCredits", Flag),
    Optional("hasChargeableSavedPaymentMethod", Flag)]

  /** A rate event is valid exactly when its snapshot fits the schema and has no other member. */
  lemma SnapshotFits(info: Members)
    ensures RateInfoOk(info) <==>
              Fits(Obj(info), RecordOf(SNAPSHOT)) && forall key :: key in info ==> exists f :: f in SNAPSHOT && f.key == key
  {
    hide FieldFits, Fits, EnumOk, BoolOk, TimestampOk, NumOk, WrapperOk;
    SnapshotKeys(info);
    SnapshotFields(info, SNAPSHOT);
    StatusFits(info);
    CountFits(info, "resetsAt");
    EnumFits(info, "rateLimitType", RATE_TYPES);
    AmountFits(info, "utilization");
    EnumFits(info, "overageStatus", STATUSES);
    CountFits(info, "overageResetsAt");
    EnumFits(info, "overageDisabledReason", DISABLED_REASONS);
    FlagFits(info, "isUsingOverage");
    FlagFits(info, "overageInUse");
    AmountFits(info, "surpassedThreshold");
    WrapperFits(info, "overagePeriodMonthly");
    WrapperFits(info, "overagePeriodChannel");
    EnumFits(info, "errorCode", ERROR_CODES);
    FlagFits(info, "canUserPurchaseCredits");
    FlagFits(info, "hasChargeableSavedPaymentMethod");
  }

  lemma SnapshotKeys(info: Members)
    ensures info.Keys <= RATE_MEMBERS <==> forall key :: key in info ==> exists f :: f in SNAPSHOT && f.key == key
  {
    forall key ensures key in RATE_MEMBERS ==> exists f :: f in SNAPSHOT && f.key == key {
      if key in RATE_MEMBERS { KeyHasField(key); }
    }
    forall f | f in SNAPSHOT ensures f.key in RATE_MEMBERS { FieldHasKey(f); }
  }

  lemma FieldHasKey(f: Member)
    requires f in SNAPSHOT
    ensures f.key in RATE_MEMBERS
  {
  }

  lemma KeyHasField(key: string)
    requires key in RATE_MEMBERS
    ensures exists f :: f in SNAPSHOT && f.key == key
  {
    var s := SNAPSHOT;
    assert || key == s[0].key || key == s[1].key || key == s[2].key || key == s[3].key || key == s[4].key || key == s[5].key
           || key == s[6].key || key == s[7].key || key == s[8].key || key == s[9].key || key == s[10].key || key == s[11].key
           || key == s[12].key || key == s[13].key || key == s[14].key;
    var k :| 0 <= k < 15 && s[k].key == key;
    assert s[k] in SNAPSHOT;
  }

  lemma SnapshotFields(info: Members, s: seq<Member>)
    requires |s| == 15
    ensures Fits(Obj(info), RecordOf(s)) <==>
            && FieldFits(info, s[0]) && FieldFits(info, s[1]) && FieldFits(info, s[2]) && FieldFits(info, s[3]) && FieldFits(info, s[4])
            && FieldFits(info, s[5]) && FieldFits(info, s[6]) && FieldFits(info, s[7]) && FieldFits(info, s[8]) && FieldFits(info, s[9])
            && FieldFits(info, s[10]) && FieldFits(info, s[11]) && FieldFits(info, s[12]) && FieldFits(info, s[13]) && FieldFits(info, s[14])
  {
    hide FieldFits;
    assert forall k :: 0 <= k < 15 ==> s[k] in s;
  }

  lemma EnumFits(info: Members, key: string, words: set<string>)
    ensures FieldFits(info, Optional(key, Word(words))) <==> EnumOk(info, key, words)
  {
  }

  lemma StatusFits(info: Members)
    ensures FieldFits(info, Required("status", ANY_STATUS)) <==> "status" in info && EnumOk(info, "status", STATUSES)
  {
  }

  lemma FlagFits(info: Members, key: string)
    ensures FieldFits(info, Optional(key, Flag)) <==> BoolOk(info, key)
  {
  }

  lemma CountFits(info: Members, key: string)
    ensures FieldFits(info, Optional(key, Count)) <==> TimestampOk(info, key)
  {
  }

  lemma AmountFits(info: Members, key: string)
    ensures FieldFits(info, Optional(key, Amount)) <==> NumOk(info, key)
  {
  }

  lemma WrapperFits(info: Members, key: string)
    ensures FieldFits(info, Optional(key, WRAPPER)) <==> WrapperOk(info, key)
  {
    var f := Required("utilization", Amount);
    assert WRAPPER.fields == [f] && f in [f];
  }

  /** The texts of the text blocks of a message, in order. */
  function TextsIn(blocks: seq<Json>): seq<string> {
    if blocks == [] then []
    else
      var b := blocks[|blocks| - 1];
      TextsIn(blocks[..|blocks| - 1])
      + if TextBlock(b) then [b.members["text"].s] else []
  }

  function Joined(texts: seq<string>): string {
    if texts == [] then "" else Joined(texts[..|texts| - 1]) + texts[|texts| - 1]
  }

  /** What an assistant record says: its message's content, or its text blocks one after the other. */
  lemma TextOfBlocks(blocks: seq<Json>)
    ensures BlockTexts(blocks) == if TextsIn(blocks) == [] then None else Some(Joined(TextsIn(blocks)))
    decreases |blocks|
  {
    if blocks != [] {
      var front, b := blocks[..|blocks| - 1], blocks[|blocks| - 1];
      assert blocks == front + [b];
      TextOfBlocks(front);
      OneBlockMore(front, b);
      OneBlock(b);
      var more := TextsIn(blocks);
      if more != TextsIn(front) {
        assert more[..|more| - 1] == TextsIn(front);
        assert TextsIn(front) == [] ==> Joined(TextsIn(front)) + more[|more| - 1] == more[|more| - 1];
      }
    }
  }

  predicate TextBlock(b: Json) {
    b.Obj? && IsString(b.members, "type", "text") && "text" in b.members && b.members["text"].Str?
  }

  lemma OneBlock(b: Json)
    ensures BlockTexts([b]) == if TextBlock(b) then Some(b.members["text"].s) else None
  {
    if TextBlock(b) { assert b.members["text"].s + "" == b.members["text"].s; }
  }

  lemma {:induction false} OneBlockMore(blocks: seq<Json>, b: Json)
    ensures BlockTexts(blocks + [b]) ==
            match (BlockTexts(blocks), BlockTexts([b]))
            case (None, t) => t
            case (Some(s), None) => Some(s)
            case (Some(s), Some(t)) => Some(s + t)
    decreases |blocks|
  {
    if blocks == [] {
      assert [] + [b] == [b];
    } else {
      assert (blocks + [b])[1..] == blocks[1..] + [b] && (blocks + [b])[0] == blocks[0];
      OneBlockMore(blocks[1..], b);
      var rest, t := BlockTexts(blocks[1..]), BlockTexts([b]);
      if TextBlock(blocks[0]) && t.Some? {
        var x := blocks[0].members["text"].s;
        assert x + "" == x;
        if rest.Some? { assert x + (rest.value + t.value) == (x + rest.value) + t.value; }
      }
    }
  }
}
