/** One routed provider turn: reserve, run, settle, and perhaps bill a second provider, with the ledger able to fail
    at any call and other turns making calls of their own in between. */
module Turn {
  import opened Wrappers
  import opened Money
  import opened LineLog
  import opened Journal
  import opened LedgerSteps
  import opened Files
  import opened LedgerHandle
  import opened CrashSafety
  import opened Durability
  import opened Attest
  import opened Budget
  import opened Accounts
  import opened Answers
  import opened Ledger
  import opened LedgerCalls

  datatype SettlementStatus = SettlementStatus(settled: bool, costTrusted: bool, fallbackAuthorized: bool)

  const UNSETTLED := SettlementStatus(false, false, false)

  function StatusIn(calls: Calls, callId: string): SettlementStatus {
    var i := IndexOf(calls.entries, callId);
    if i == |calls.entries| || !calls.entries[i].settled then UNSETTLED
    else SettlementStatus(true, calls.entries[i].trustedUsd.Some?, calls.entries[i].fallbackAuthorized)
  }

  /** A call of the turn on the ledger: which event of the ledger's run it is, and what came of it. */
  datatype Use =
    | Reserved(bind: CallBinding, answer: Answer, at: nat)
    | Settled(op: Op, out: Outcome<Data>, at: nat)
    | Read(callId: string, status: Option<SettlementStatus>, at: nat)

  /** The use is that event of the run, and its record is what its operation proposed. */
  ghost predicate Genuine(ctx: Context, evs: seq<PowerEvent<Data>>, u: Use) {
    match u
    case Reserved(_, BadInput, _) => true
    case Reserved(bind, Ran(out), at) =>
      && at < |evs| && evs[at] == Call(TxnCall(out))
      && (out.Done? ==> out.data.Reserve? && out.data.bind == bind && out.data.callId == bind.callId)
    case Settled(op, out, at) =>
      && at < |evs| && evs[at] == Call(TxnCall(out))
      && (out.Done? ==> out.data.Settle? && out.data.bind == op.bind && out.data.callId == op.bind.callId
                        && exists ts :: ts != "" && Decide(ctx, op, ts, out.before.datas) == Proposes(out.data))
    case Read(callId, status, at) =>
      && at < |evs| && evs[at].Call? && evs[at].ev.ReadCall?
      && (status.Some? ==> evs[at].ev.read.Some? && SaysOf(ctx, evs[at].ev.read.value.datas, callId, status.value))
  }

  /** The status says, both ways, which records of the call the journal holds: a settlement, one with a verified,
      provider-reported cost, one with a verified fallback attestation. */
  ghost predicate SaysOf(ctx: Context, datas: seq<Data>, callId: string, status: SettlementStatus) {
    && WellKept(ctx, datas)
    && (status.settled <==> IsSettled(datas, callId))
    && (status.costTrusted <==> HasCost(ctx, datas, callId))
    && (status.fallbackAuthorized <==> HasAuthority(ctx, datas, callId))
  }

  lemma StatusExactly(ctx: Context, datas: seq<Data>, callId: string)
    requires FoldCalls(ctx, datas).Some?
    ensures SaysOf(ctx, datas, callId, StatusIn(FoldCalls(ctx, datas).value, callId))
  {
    hide FoldCalls, WellKept, TableOf, FirstAt, HasCost, HasAuthority, IsSettled, TrustedCost, CostIsTrusted, AuthorizesFallback;
    var entries := FoldCalls(ctx, datas).value.entries;
    FoldsExactly(ctx, datas);
    LookUp(ctx, datas, entries, callId);
    if !IsReserved(datas, callId) { Unsettled(ctx, datas, callId); }
    if !IsSettled(datas, callId) { SettledHasAll(ctx, datas, callId); }
  }

  ghost predicate AllGenuine(ctx: Context, evs: seq<PowerEvent<Data>>, uses: seq<Use>) {
    forall u :: u in uses ==> Genuine(ctx, evs, u)
  }

  lemma GenuineLater(ctx: Context, evs: seq<PowerEvent<Data>>, later: seq<PowerEvent<Data>>, uses: seq<Use>)
    requires AllGenuine(ctx, evs, uses) && evs <= later
    ensures AllGenuine(ctx, later, uses)
  {
    forall u | u in uses ensures Genuine(ctx, later, u) { assert Genuine(ctx, evs, u); }
  }

  /** What is proposed for a binding carries that binding. */
  lemma ProposedBinding(ctx: Context, op: Op, ts: string, datas: seq<Data>, data: Data)
    requires Decide(ctx, op, ts, datas) == Proposes(data)
    ensures data.bind == op.bind && data.callId == op.bind.callId && (data.Reserve? <==> op.ReserveOp?)
  {
    hide FoldCalls, ParseNano, FormatNano, TagPayload, Verifies, Mintable, PayloadOf, IndexOf, ValidBinding;
  }

  lemma ReserveIsOwn(g: Generation<Data>, ctx: Context, b: nat, s: Store, out: Outcome<Data>, t: Store)
    requires StoreStep(g, May(ctx, BudgetOps(ctx, b)), s, TxnCall(out), t)
    ensures StoreStep(g, May(ctx, OwnRunOps(ctx)), s, TxnCall(out), t)
  {
    hide Decide;
    forall datas, data | May(ctx, BudgetOps(ctx, b))(datas, data) ensures May(ctx, OwnRunOps(ctx))(datas, data) {
      var op, ts :| BudgetOps(ctx, b)(op) && ts != "" && Decide(ctx, op, ts, datas) == Proposes(data);
      assert OwnRunOps(ctx)(op);
    }
    StoreTxnWeaken(g, May(ctx, BudgetOps(ctx, b)), May(ctx, OwnRunOps(ctx)), s, out, t);
  }

  // ---- the discipline of one provider call ----

  predicate SettleDone(u: Use) { u.Settled? && u.out.Done? }

  /** The last use said that the journal has this call's reservation and no settlement. */
  predicate SaidUnsettled(uses: seq<Use>, callId: string) {
    |uses| > 0 && uses[|uses| - 1].Read? && uses[|uses| - 1].callId == callId
    && uses[|uses| - 1].status.Some? && !uses[|uses| - 1].status.value.settled
  }

  /** The uses one provider call may make: one reservation first; then settlements of that very binding, the
      first by what was judged and any other at the worst case, each but the first only right after the journal said
      there is none; and none after one that returned. */
  predicate OneReservation(uses: seq<Use>, bind: CallBinding, mint: Op) {
    && |uses| > 0 && uses[0].Reserved? && uses[0].bind == bind
    && forall k :: 0 < k < |uses| ==>
         match uses[k]
         case Reserved(_, _, _) => false
         case Read(callId, _, _) => callId == bind.callId
         case Settled(op, _, _) =>
           && op.bind == bind && (op == UncertainOp(bind) || (k == 1 && op == mint && !op.ReserveOp?))
           && (forall j :: 0 <= j < k ==> !SettleDone(uses[j]))
           && (k == 1 || SaidUnsettled(uses[..k], bind.callId))
  }

  predicate Admitted(uses: seq<Use>) {
    |uses| > 0 && uses[0].Reserved? && uses[0].answer.Ran? && uses[0].answer.out.Done?
  }

  /** The process died in the last call it made. */
  predicate DiedLast(uses: seq<Use>) {
    |uses| > 0 && match uses[|uses| - 1]
                  case Reserved(_, answer, _) => answer.Ran? && answer.out.Died?
                  case Settled(_, out, _) => out.Died?
                  case Read(_, _, _) => false
  }

  predicate Closes(u: Use) { SettleDone(u) || (u.Read? && u.status.Some? && u.status.value.settled) }

  /** The reservation is settled for certain: a settlement of it returned, or the journal said it has one. */
  predicate Closed(uses: seq<Use>) { exists k :: 0 <= k < |uses| && Closes(uses[k]) }

  /** An admitted reservation is left only when it is settled, or the ledger refused to be read or written last: then
      it stays outstanding, at its worst case. */
  predicate Resolved(uses: seq<Use>) {
    |uses| > 1 && (Closed(uses) || var last := uses[|uses| - 1]; last.Settled? || (last.Read? && last.status.None?))
  }

  /** The first thing done about an admitted reservation is this settlement. */
  predicate FirstSettlement(uses: seq<Use>, op: Op) {
    |uses| > 1 && uses[1].Settled? && uses[1].op == op
  }

  predicate NoneDone(uses: seq<Use>) { forall k :: 0 <= k < |uses| ==> !SettleDone(uses[k]) }

  lemma MoreUses(uses: seq<Use>, u: Use, bind: CallBinding, mint: Op)
    requires OneReservation(uses, bind, mint)
    requires (u.Read? && u.callId == bind.callId)
             || (u.Settled? && u.op.bind == bind && NoneDone(uses)
                 && (u.op == UncertainOp(bind) || (|uses| == 1 && u.op == mint && !u.op.ReserveOp?))
                 && (|uses| == 1 || SaidUnsettled(uses, bind.callId)))
    ensures |uses| > 0 && OneReservation(uses + [u], bind, mint) && (uses + [u])[0] == uses[0]
    ensures Closed(uses) || Closes(u) ==> Closed(uses + [u])
    ensures NoneDone(uses) && !SettleDone(u) ==> NoneDone(uses + [u])
    ensures u.Read? && u.status.Some? && !u.status.value.settled ==> SaidUnsettled(uses + [u], bind.callId)
    ensures u.Settled? || (u.Read? && u.status.None?) || Closed(uses) ==> Resolved(uses + [u])
  {
    var more := uses + [u];
    assert more[..|uses|] == uses;
    assert forall k :: 0 <= k < |uses| ==> more[k] == uses[k] && more[..k] == uses[..k];
    assert more[|uses|] == u;
    if Closed(uses) {
      var k :| 0 <= k < |uses| && Closes(uses[k]);
      assert more[k] == uses[k];
    }
  }

  lemma FirstUse(bind: CallBinding, mint: Op, answer: Answer, at: nat)
    ensures OneReservation([Reserved(bind, answer, at)], bind, mint) && NoneDone([Reserved(bind, answer, at)])
    ensures Admitted([Reserved(bind, answer, at)]) <==> answer.Ran? && answer.out.Done?
  {
  }

  // ---- what an admitted reservation is from then on ----

  /** The journal holds the reservation: it is settled at most once, it is owed its worst case unless a settlement of it
      with a verified, provider-reported cost is there, and what is owed in all counts that in full. */
  ghost predicate Accounted(ctx: Context, datas: seq<Data>, d: Data) {
    && WellKept(ctx, datas) && d in datas && d.Reserve? && ParseNano(d.worstCaseNano).Ok?
    && Owed(ctx, datas) >= OwedFor(ctx, datas, d)
    && (OwedFor(ctx, datas, d) == ParseNano(d.worstCaseNano).value || HasCost(ctx, datas, d.callId))
  }

  /** In every continuation of the run, power cuts included, every call answered after event `at` is answered from a
      journal that accounts for the reservation made there. */
  ghost predicate AccountedEverAfter(
      g: Generation<Data>, ctx: Context, stores: seq<Store>, evs: seq<PowerEvent<Data>>, at: nat, d: Data) {
    forall stores', evs', j ::
      (PowerRun(g, May(ctx, OwnRunOps(ctx)), stores', evs') && stores <= stores' && evs <= evs'
       && at < j < |evs'| && Replied(evs'[j]).Some?) ==> Accounted(ctx, Replied(evs'[j]).value.datas, d)
  }

  lemma {:induction false} OwedCountsEach(ctx: Context, datas: seq<Data>, n: nat, k: nat)
    requires k < n <= |datas| && datas[k].Reserve?
    ensures OwedUpTo(ctx, datas, n) >= OwedFor(ctx, datas, datas[k])
    decreases n
  {
    hide OwedFor;
    if k < n - 1 { OwedCountsEach(ctx, datas, n - 1, k); }
  }

  lemma {:induction false} CostHasARecord(ctx: Context, datas: seq<Data>, callId: string)
    ensures TrustedCost(ctx, datas, callId).Some? ==> HasCost(ctx, datas, callId)
    decreases |datas|
  {
    hide CostIsTrusted, ParseNano, HasCost;
    if datas != [] {
      var front, d := datas[..|datas| - 1], datas[|datas| - 1];
      assert front + [d] == datas;
      CostHasARecord(ctx, front, callId);
      MoreRecords(ctx, front, d, callId);
    }
  }

  lemma AccountedIn(ctx: Context, datas: seq<Data>, k: nat)
    requires Justified(May(ctx, OwnRunOps(ctx)), datas) && k < |datas| && datas[k].Reserve?
    ensures Accounted(ctx, datas, datas[k])
  {
    hide Justified, May, OneLife, FoldCalls, CostIsTrusted, ParseNano, TrustedCost, HasCost;
    var calls := JournalOk(ctx, 0, OwnRunOps(ctx), datas);
    FoldsExactly(ctx, datas);
    OwedCountsEach(ctx, datas, |datas|, k);
    CostHasARecord(ctx, datas, datas[k].callId);
    assert datas[k] in datas;
  }

  /** Main result. In every run, with crashes, reconciliations and power cuts, a reservation whose transaction returned
      is accounted for in every journal anything is answered from later. */
  lemma AdmittedIsAccounted(
      g: Generation<Data>, ctx: Context, stores: seq<Store>, evs: seq<PowerEvent<Data>>, at: nat, j: nat)
    requires Sound(g) && PowerRun(g, May(ctx, OwnRunOps(ctx)), stores, evs) && at < j < |evs|
    requires evs[at].Call? && evs[at].ev.TxnCall? && evs[at].ev.out.Done? && evs[at].ev.out.data.Reserve?
    requires Replied(evs[j]).Some?
    ensures Accounted(ctx, Replied(evs[j]).value.datas, evs[at].ev.out.data)
  {
    hide PowerSteps, Justified, May, Accounted, Sound;
    var out := evs[at].ev.out;
    ReturnedRecordsSurvivePowerCuts(g, May(ctx, OwnRunOps(ctx)), stores, evs, at, j);
    AnsweredJournalsAreJustifiedAcrossPowerCuts(g, May(ctx, OwnRunOps(ctx)), stores, evs, j);
    var datas := Replied(evs[j]).value.datas;
    var k := |out.before.datas|;
    assert datas[k] == (out.before.datas + [out.data])[k] == out.data;
    AccountedIn(ctx, datas, k);
  }

  lemma AdmittedEverAfter(
      g: Generation<Data>, ctx: Context, stores: seq<Store>, evs: seq<PowerEvent<Data>>, at: nat, d: Data)
    requires Sound(g) && at < |evs| && d.Reserve?
    requires evs[at].Call? && evs[at].ev.TxnCall? && evs[at].ev.out.Done? && evs[at].ev.out.data == d
    ensures AccountedEverAfter(g, ctx, stores, evs, at, d)
  {
    hide PowerRun, May, Accounted, Sound;
    forall stores', evs', j |
      PowerRun(g, May(ctx, OwnRunOps(ctx)), stores', evs') && stores <= stores' && evs <= evs'
      && at < j < |evs'| && Replied(evs'[j]).Some?
      ensures Accounted(ctx, Replied(evs'[j]).value.datas, d)
    {
      AdmittedIsAccounted(g, ctx, stores', evs', at, j);
    }
  }

  /** In every continuation of the run, every journal a later call is answered from has the call settled. */
  ghost predicate SettledEverAfter(
      g: Generation<Data>, ctx: Context, stores: seq<Store>, evs: seq<PowerEvent<Data>>, at: nat, callId: string) {
    forall stores', evs', j ::
      (PowerRun(g, May(ctx, OwnRunOps(ctx)), stores', evs') && stores <= stores' && evs <= evs'
       && at < j < |evs'| && Replied(evs'[j]).Some?) ==> IsSettled(Replied(evs'[j]).value.datas, callId)
  }

  /** Main result. In every such run, a settlement whose transaction returned is in every later answered journal. */
  lemma SettlementIsKept(
      g: Generation<Data>, ctx: Context, stores: seq<Store>, evs: seq<PowerEvent<Data>>, at: nat, j: nat)
    requires Sound(g) && PowerRun(g, May(ctx, OwnRunOps(ctx)), stores, evs) && at < j < |evs|
    requires evs[at].Call? && evs[at].ev.TxnCall? && evs[at].ev.out.Done? && evs[at].ev.out.data.Settle?
    requires Replied(evs[j]).Some?
    ensures IsSettled(Replied(evs[j]).value.datas, evs[at].ev.out.data.callId)
  {
    hide PowerSteps, May, Sound;
    var out := evs[at].ev.out;
    ReturnedRecordsSurvivePowerCuts(g, May(ctx, OwnRunOps(ctx)), stores, evs, at, j);
    var datas := Replied(evs[j]).value.datas;
    var k := |out.before.datas|;
    assert datas[k] == (out.before.datas + [out.data])[k] == out.data;
    assert datas[k] in datas && SettleOf(datas[k], out.data.callId);
  }

  lemma SettlementEverAfter(
      g: Generation<Data>, ctx: Context, stores: seq<Store>, evs: seq<PowerEvent<Data>>, at: nat, d: Data)
    requires Sound(g) && at < |evs| && d.Settle?
    requires evs[at].Call? && evs[at].ev.TxnCall? && evs[at].ev.out.Done? && evs[at].ev.out.data == d
    ensures SettledEverAfter(g, ctx, stores, evs, at, d.callId)
  {
    hide PowerRun, May, Sound, IsSettled;
    forall stores', evs', j |
      PowerRun(g, May(ctx, OwnRunOps(ctx)), stores', evs') && stores <= stores' && evs <= evs'
      && at < j < |evs'| && Replied(evs'[j]).Some?
      ensures IsSettled(Replied(evs'[j]).value.datas, d.callId)
    {
      SettlementIsKept(g, ctx, stores', evs', at, j);
    }
  }

  /** What a read saw settled is settled in every later answered journal, if every content the journal could then be found
      to have keeps what was read, as it does when every reconciliation so far was careful. */
  lemma SeenSettlementEverAfter(
      g: Generation<Data>, ctx: Context, stores: seq<Store>, evs: seq<PowerEvent<Data>>, at: nat, callId: string)
    requires Sound(g) && at < |evs| < |stores| && Replied(evs[at]).Some? && !evs[at].ev.ReconcileCall?
    requires IsSettled(Replied(evs[at]).value.datas, callId)
    requires Careful(g, stores, evs, at) || AllKeep(g, stores[at].leaf, Replied(evs[at]).value.datas)
    ensures SettledEverAfter(g, ctx, stores, evs, at, callId)
  {
    hide PowerSteps, May, Sound, IsSettled, AllKeep, Careful;
    var may, kept := May(ctx, OwnRunOps(ctx)), Replied(evs[at]).value.datas;
    forall stores', evs', j |
      PowerRun(g, may, stores', evs') && stores <= stores' && evs <= evs'
      && at < j < |evs'| && Replied(evs'[j]).Some?
      ensures IsSettled(Replied(evs'[j]).value.datas, callId)
    {
      if Careful(g, stores, evs, at) {
        RunLength(g, may, stores', evs');
        CarefulMore(g, stores, evs, stores', evs', at);
        CarefulAnswersStay(g, may, stores', evs', at);
      }
      RunAllKeep(g, may, stores', evs', at, j, kept);
      PowerRunSane(g, may, stores', evs', j);
      AnswerKeeps(g, may, stores', evs', j, kept);
      SettledInMore(kept, Replied(evs'[j]).value.datas, callId);
    }
  }

  lemma CarefulMore(
      g: Generation<Data>, stores: seq<Store>, evs: seq<PowerEvent<Data>>, stores': seq<Store>, evs': seq<PowerEvent<Data>>, n: nat)
    requires n <= |evs| <= |stores| && stores <= stores' && evs <= evs' && |evs'| <= |stores'| && Careful(g, stores, evs, n)
    ensures Careful(g, stores', evs', n)
  {
    hide Stable, Whole;
    forall i | 0 <= i < n && evs'[i].Call? && evs'[i].ev.ReconcileCall?
      ensures Stable(g, stores'[i].leaf) && Whole(g, stores'[i].leaf)
    {
      assert evs'[i] == evs[i] && stores'[i] == stores[i];
    }
  }

  lemma SettledInMore(datas: seq<Data>, more: seq<Data>, callId: string)
    requires IsSettled(datas, callId) && datas <= more
    ensures IsSettled(more, callId)
  {
    var d :| d in datas && SettleOf(d, callId);
    assert d in more;
  }

  /** A use that closed the call did so by a settlement record: the one it appended, which is in every later answered
      journal, or one in the journal it read, which is there for good if that journal could not lose it. */
  ghost predicate ClosedByRecord(
      g: Generation<Data>, ctx: Context, stores: seq<Store>, evs: seq<PowerEvent<Data>>, u: Use)
    requires Closes(u)
  {
    if u.Settled? then SettledEverAfter(g, ctx, stores, evs, u.at, u.op.bind.callId)
    else
      && u.at < |evs| < |stores| && Replied(evs[u.at]).Some?
      && IsSettled(Replied(evs[u.at]).value.datas, u.callId)
      && (Careful(g, stores, evs, u.at) || AllKeep(g, stores[u.at].leaf, Replied(evs[u.at]).value.datas) ==>
            SettledEverAfter(g, ctx, stores, evs, u.at, u.callId))
  }

  lemma ClosesByRecord(g: Generation<Data>, ctx: Context, stores: seq<Store>, evs: seq<PowerEvent<Data>>, u: Use)
    requires Sound(g) && |stores| == |evs| + 1 && Genuine(ctx, evs, u) && Closes(u)
    ensures ClosedByRecord(g, ctx, stores, evs, u)
  {
    hide May, Sound, SettledEverAfter, IsSettled, HasCost, HasAuthority, WellKept, Careful, AllKeep;
    if u.Settled? {
      SettlementEverAfter(g, ctx, stores, evs, u.at, u.out.data);
    } else if Careful(g, stores, evs, u.at) || AllKeep(g, stores[u.at].leaf, Replied(evs[u.at]).value.datas) {
      SeenSettlementEverAfter(g, ctx, stores, evs, u.at, u.callId);
    }
  }

  // ---- the right to bill a second provider ----

  /** The journal holds a settlement of the call that carries a verified fallback attestation, and the call is still owed
      its worst case. */
  ghost predicate AuthorizedIn(ctx: Context, datas: seq<Data>, callId: string) {
    && WellKept(ctx, datas) && HasAuthority(ctx, datas, callId)
    && (forall r :: r in datas && ReserveOf(r, callId) ==>
          ParseNano(r.worstCaseNano).Ok? && OwedFor(ctx, datas, r) == ParseNano(r.worstCaseNano).value)
  }

  /** Authority and a lowered bill never meet, said of the records. */
  lemma AuthorityCostsInFull(ctx: Context, datas: seq<Data>, r: Data)
    requires Justified(May(ctx, OwnRunOps(ctx)), datas) && r in datas && r.Reserve? && HasAuthority(ctx, datas, r.callId)
    ensures ParseNano(r.worstCaseNano).Ok? && OwedFor(ctx, datas, r) == ParseNano(r.worstCaseNano).value
  {
    hide May, Justified, FoldCalls, ParseNano, FirstAt, HasAuthority, HasCost, IsSettled, TrustedCost, OneLife, Reservations;
    RouteAndMoneyAreExclusive(ctx, datas);
    FoldsExactly(ctx, datas);
    var entries := FoldCalls(ctx, datas).value.entries;
    assert IsReserved(datas, r.callId) by { assert ReserveOf(r, r.callId); }
    LookUp(ctx, datas, entries, r.callId);
    var i := IndexOf(entries, r.callId);
    SameReservation(datas, r, Reservations(datas)[i]);
    EntryCost(ctx, datas, r, entries[i]);
    assert entries[i] in entries;
  }

  lemma SameReservation(datas: seq<Data>, r: Data, q: Data)
    requires OneLife(datas) && r in datas && q in datas && r.Reserve? && q.Reserve? && r.callId == q.callId
    ensures r == q
  {
    var i :| 0 <= i < |datas| && datas[i] == r;
    var j :| 0 <= j < |datas| && datas[j] == q;
    assert i == j;
  }

  /** A read of the turn that found the call settled with the right to bill a second provider. */
  predicate Authorizes(u: Use, callId: string) {
    u.Read? && u.callId == callId && u.status.Some? && u.status.value.fallbackAuthorized
  }

  /** Main result. In every run, a read that lets a turn bill a second provider found, in a journal its callers built,
      a settlement of the first call that carries a verified fallback attestation; and that call still counts in full. */
  lemma SecondProviderNeedsDurableAuthority(
      g: Generation<Data>, ctx: Context, stores: seq<Store>, evs: seq<PowerEvent<Data>>, u: Use, callId: string)
    requires Sound(g) && PowerRun(g, May(ctx, OwnRunOps(ctx)), stores, evs)
    requires Genuine(ctx, evs, u) && Authorizes(u, callId)
    ensures AuthorizedIn(ctx, evs[u.at].ev.read.value.datas, callId)
  {
    hide Justified, May, PowerSteps, Sound, WellKept, HasAuthority, HasCost, IsSettled, OwedFor;
    var datas := evs[u.at].ev.read.value.datas;
    AnsweredJournalsAreJustifiedAcrossPowerCuts(g, May(ctx, OwnRunOps(ctx)), stores, evs, u.at);
    forall r | r in datas && ReserveOf(r, callId)
      ensures ParseNano(r.worstCaseNano).Ok? && OwedFor(ctx, datas, r) == ParseNano(r.worstCaseNano).value
    {
      AuthorityCostsInFull(ctx, datas, r);
    }
  }

  // ---- the turn ----

  /** What the provider call came to: a throw before a verdict, no verdict, or a verdict the kernel judged. */
  datatype Judged = JudgedUncertain | JudgedCost(scope: Scope, draft: Draft, usdNano: string)
                  | JudgedLimit(scope: Scope, draft: Draft, limit: LimitFrame)
  datatype Child = Throws | NoVerdict | Verdict(limit: bool, judged: Judged, logThrows: bool)

  datatype Kernel = Recorded | Raised | KernelDied

  datatype TurnResult = BudgetDenied | Returned(limit: bool, settlementCallId: Option<string>) | Thrown | Dead

  datatype ProviderCall = ProviderCall(bind: CallBinding, worstCase: JsValue, budget: JsValue, child: Child, ts: string)

  /** What a parallel turn may do to the ledger between two calls of this one. */
  datatype Other = OtherTxn(op: Op, ts: string) | OtherRead | OtherReconcile

  function MintOp(bind: CallBinding, j: Judged): Op {
    match j
    case JudgedUncertain => UncertainOp(bind)
    case JudgedCost(scope, draft, usd) => AttestOp(bind, scope, draft, usd)
    case JudgedLimit(scope, draft, limit) => FallbackOp(bind, scope, draft, limit)
  }

  /** How a call's first settlement is made. */
  function Mint(bind: CallBinding, child: Child): Op {
    if child.Verdict? then MintOp(bind, child.judged) else UncertainOp(bind)
  }

  lemma RunMore(
      g: Generation<Data>, may: Proposal<Data>, stores: seq<Store>, evs: seq<PowerEvent<Data>>, ev: CrashSafety.Event<Data>, t: Store)
    requires PowerRun(g, may, stores, evs) && StoreStep(g, may, stores[|evs|], ev, t)
    ensures PowerRun(g, may, stores + [t], evs + [Call(ev)])
  {
    hide StoreStep;
    var stores', evs' := stores + [t], evs + [Call(ev)];
    forall i | 0 <= i < |evs'| ensures PowerStep(g, may, stores'[i], evs'[i], stores'[i + 1]) {
      if i < |evs| { assert PowerStep(g, may, stores[i], evs[i], stores[i + 1]); }
    }
  }

  lemma RunLength(g: Generation<Data>, may: Proposal<Data>, stores: seq<Store>, evs: seq<PowerEvent<Data>>)
    requires PowerRun(g, may, stores, evs)
    ensures |stores| == |evs| + 1
  {
  }

  lemma SettledIsGenuine(ctx: Context, evs: seq<PowerEvent<Data>>, op: Op, ts: string, out: Outcome<Data>)
    requires |evs| > 0 && evs[|evs| - 1] == Call(TxnCall(out)) && ts != "" && !op.ReserveOp?
    requires out.Done? ==> Decide(ctx, op, ts, out.before.datas) == Proposes(out.data)
    ensures Genuine(ctx, evs, Settled(op, out, |evs| - 1))
  {
    hide Decide;
    if out.Done? { ProposedBinding(ctx, op, ts, out.before.datas, out.data); }
  }

  // ---- what happens when nothing fails ----

  /** The inputs of a reservation are well-formed. */
  predicate WellFormed(bind: CallBinding, worstCase: JsValue, budget: JsValue) {
    ValidBinding(bind) && UsdToNano(budget).Ok? && UsdToNano(worstCase).Ok?
  }

  /** There is room for the reservation, or no budget at all. */
  predicate Fits(ctx: Context, worstCase: JsValue, budget: JsValue, datas: seq<Data>)
    requires UsdToNano(budget).Ok? && UsdToNano(worstCase).Ok?
  {
    UsdToNano(budget).value == 0 || Owed(ctx, datas) + UsdToNano(worstCase).value <= UsdToNano(budget).value
  }

  /** A fresh reservation that fits is made and its call is open; one that does not fit is denied; one whose identity is
      spent raises. */
  ghost predicate ReservedCalmly(
      ctx: Context, bind: CallBinding, worstCase: JsValue, budget: JsValue, before: seq<Data>, out: Outcome<Data>, after: seq<Data>)
    requires WellFormed(bind, worstCase, budget)
  {
    if !Fresh(before, bind) then out.Refused? && after == before
    else if !Fits(ctx, worstCase, budget, before) then out.Declined? && after == before
    else out.Done? && before <= after && IsOpen(after, bind)
  }

  /** What a settlement asks of its inputs: nothing when uncertain, proof when minted. */
  predicate Settleable(ctx: Context, op: Op, ts: string) {
    match op
    case ReserveOp(_, _, _) => false
    case UncertainOp(bind) => ValidBinding(bind)
    case _ => GoodMint(ctx, op, ts)
  }

  /** An open call is settled when its inputs are good, with a proven cost or with authority exactly as it was minted;
      otherwise nothing is written. */
  ghost predicate SettledCalmly(ctx: Context, op: Op, ts: string, before: seq<Data>, out: Outcome<Data>, after: seq<Data>) {
    if Settleable(ctx, op, ts) && IsOpen(before, op.bind) then
      && out.Done? && before <= after && SettledAs(ctx, op, after)
    else out.Refused? && after == before
  }

  ghost predicate SettledAs(ctx: Context, op: Op, datas: seq<Data>) {
    && IsSettled(datas, op.bind.callId)
    && (HasCost(ctx, datas, op.bind.callId) <==> op.AttestOp?)
    && (HasAuthority(ctx, datas, op.bind.callId) <==> op.FallbackOp?)
  }

  lemma SettlesExactly(ctx: Context, op: Op, ts: string, datas: seq<Data>)
    requires !op.ReserveOp? && WellKept(ctx, datas)
    ensures var answer := Decide(ctx, op, ts, datas);
            if Settleable(ctx, op, ts) && IsOpen(datas, op.bind) then answer.Proposes? else answer.Raises?
  {
    hide WellKept, IsOpen, ValidBinding, GoodMint, Decide;
    if op.UncertainOp? {
      UncertainIs(ctx, op, ts, datas);
      UncertainExactly(ctx, op.bind, ts, datas);
    } else {
      MintsExactly(ctx, op, ts, datas);
    }
  }

  /** How an open call ends up settled: as it was minted if the proof is good, and else at its worst case. */
  function BestOp(ctx: Context, bind: CallBinding, mint: Op, ts: string): Op {
    if Settleable(ctx, mint, ts) then mint else UncertainOp(bind)
  }

  /** One provider call when nothing fails: a spent identity throws and a denied reservation is reported as such, both
      without a record; an admitted one is settled on every path, and its result is returned unless the child threw, or
      logging did. */
  ghost predicate TurnCalmly(
      ctx: Context, bind: CallBinding, worstCase: JsValue, budget: JsValue, child: Child, ts: string,
      before: seq<Data>, r: TurnResult, after: seq<Data>)
    requires WellFormed(bind, worstCase, budget)
  {
    if !Fresh(before, bind) then r == Thrown && after == before
    else if !Fits(ctx, worstCase, budget, before) then r == BudgetDenied && after == before
    else RanCalmly(ctx, bind, child, ts, before, r, after)
  }

  ghost predicate RanCalmly(
      ctx: Context, bind: CallBinding, child: Child, ts: string, before: seq<Data>, r: TurnResult, after: seq<Data>)
  {
    && before <= after && SettledAs(ctx, BestOp(ctx, bind, Mint(bind, child), ts), after)
    && r == (if child.Throws? || (child.Verdict? && child.logThrows) then Thrown
             else Returned(child.Verdict? && child.limit, Some(bind.callId)))
  }

  lemma AdmittedIsOpen(
      ctx: Context, bind: CallBinding, worstCase: JsValue, budget: JsValue, before: seq<Data>, out: Outcome<Data>, after: seq<Data>)
    requires WellFormed(bind, worstCase, budget)
    ensures ValidBinding(bind)
    ensures ReservedCalmly(ctx, bind, worstCase, budget, before, out, after) && out.Done? ==> IsOpen(after, bind)
  {
    hide IsOpen, Fresh, Fits, ValidBinding, UsdToNano;
  }

  lemma TurnIsCalm(
      ctx: Context, bind: CallBinding, worstCase: JsValue, budget: JsValue, child: Child, ts: string, before: seq<Data>,
      out: Outcome<Data>, between: seq<Data>, r: TurnResult, after: seq<Data>)
    requires WellFormed(bind, worstCase, budget)
    ensures ReservedCalmly(ctx, bind, worstCase, budget, before, out, between)
            && (if out.Done? then IsOpen(between, bind) ==> RanCalmly(ctx, bind, child, ts, between, r, after)
                else after == between && r == (if out.Declined? then BudgetDenied else if out.Died? then Dead else Thrown))
            ==> TurnCalmly(ctx, bind, worstCase, budget, child, ts, before, r, after)
  {
    hide Fresh, Fits, IsOpen, SettledAs, BestOp, UsdToNano;
  }

  /** The call is admitted, hits a usage limit, is returned, and its proof of that is good. */
  ghost predicate EarnsFallback(ctx: Context, call: ProviderCall, before: seq<Data>)
    requires WellFormed(call.bind, call.worstCase, call.budget)
  {
    && Fresh(before, call.bind) && Fits(ctx, call.worstCase, call.budget, before)
    && call.child.Verdict? && call.child.limit && !call.child.logThrows && call.child.judged.JudgedLimit?
    && GoodMint(ctx, MintOp(call.bind, call.child.judged), call.ts)
  }

  lemma EarnedIsRead(ctx: Context, call: ProviderCall, before: seq<Data>, r: TurnResult, after: seq<Data>, status: SettlementStatus)
    requires WellFormed(call.bind, call.worstCase, call.budget)
    requires TurnCalmly(ctx, call.bind, call.worstCase, call.budget, call.child, call.ts, before, r, after)
    requires SaysOf(ctx, after, call.bind.callId, status)
    ensures r.Returned? && r.limit && status.fallbackAuthorized <==> EarnsFallback(ctx, call, before)
  {
    hide Fresh, Fits, GoodMint, UsdToNano, ValidBinding, WellKept, IsSettled, HasCost, HasAuthority;
  }

  lemma UnearnedIsThrown(ctx: Context, call: ProviderCall, before: seq<Data>, r: TurnResult, after: seq<Data>)
    requires WellFormed(call.bind, call.worstCase, call.budget) && !r.Returned?
    requires TurnCalmly(ctx, call.bind, call.worstCase, call.budget, call.child, call.ts, before, r, after)
    ensures !EarnsFallback(ctx, call, before)
  {
    hide Fresh, Fits, GoodMint, UsdToNano, ValidBinding, SettledAs;
  }

  lemma SettledSmoothly(ctx: Context, op: Op, ts: string, before: seq<Data>, out: Outcome<Data>, after: seq<Data>)
    requires WellKept(ctx, before) && !op.ReserveOp? && ts != "" && op.bind.runNonce == ctx.runNonce
    requires ComesOf(out, Decide(ctx, op, ts, before)) && after == before + if out.Done? then [out.data] else []
    ensures WellKept(ctx, after) && SettledCalmly(ctx, op, ts, before, out, after)
  {
    hide WellKept, IsOpen, Decide, IsSettled, HasCost, HasAuthority, Settleable;
    SettlesExactly(ctx, op, ts, before);
    if out.Done? { SettlementEffect(ctx, op, ts, before, out.data); } else { assert after == before; }
  }

  lemma ReservedSmoothly(
      ctx: Context, bind: CallBinding, worstCase: JsValue, budget: JsValue, ts: string, before: seq<Data>, out: Outcome<Data>,
      after: seq<Data>)
    requires WellKept(ctx, before) && WellFormed(bind, worstCase, budget)
    requires ComesOf(out, Decide(ctx, ReserveOp(bind, UsdToNano(worstCase).value, UsdToNano(budget).value), ts, before))
    requires after == before + if out.Done? then [out.data] else []
    ensures WellKept(ctx, after) && ReservedCalmly(ctx, bind, worstCase, budget, before, out, after)
  {
    hide WellKept, IsOpen, Fresh, Owed, ReserveDecision, UsdToNano, ValidBinding;
    var op := ReserveOp(bind, UsdToNano(worstCase).value, UsdToNano(budget).value);
    ReserveExactly(ctx, bind, op.worstCase, op.budget, ts, before);
    if out.Done? { ReservationEffect(ctx, op, ts, before, out.data); } else { assert after == before; }
  }

  lemma ReservedIsGenuine(ctx: Context, evs: seq<PowerEvent<Data>>, bind: CallBinding, answer: Answer, at: nat)
    requires answer.Ran? ==> at < |evs| && evs[at] == Call(TxnCall(answer.out))
    requires answer.Ran? && answer.out.Done? ==>
               answer.out.data.Reserve? && answer.out.data.bind == bind && answer.out.data.callId == bind.callId
    ensures Genuine(ctx, evs, Reserved(bind, answer, at))
  {
  }

  /** The turn's view of the run's one ledger handle: `others` is what parallel turns do between this turn's calls,
      `stores` and `evs` are the ledger's run so far, and `uses` are the events of it that are this turn's. */
  class RoutedTurn {
    const h: LedgerHandle<Data>
    const ctx: Context
    var others: seq<seq<Other>>
    ghost var stores: seq<Store>
    ghost var evs: seq<PowerEvent<Data>>
    ghost var uses: seq<Use>

    constructor (
        h: LedgerHandle<Data>, ctx: Context, others: seq<seq<Other>>, ghost stores: seq<Store>, ghost evs: seq<PowerEvent<Data>>)
      requires h.leaf != h.wal && PowerRun(h.g, May(ctx, OwnRunOps(ctx)), stores, evs) && stores[|evs|] == h.Stored()
      ensures this.h == h && this.ctx == ctx && this.others == others && uses == []
      ensures Valid() && this.stores == stores && this.evs == evs
    {
      this.h, this.ctx, this.others, this.stores, this.evs := h, ctx, others, stores, evs;
      uses := [];
    }

    /** The run so far is a run of the ledger, and ends in the files as they are. */
    ghost predicate Valid()
      reads this, h, h.leaf, h.wal
    {
      && h.leaf != h.wal && PowerRun(h.g, May(ctx, OwnRunOps(ctx)), stores, evs) && stores[|evs|] == h.Stored()
      && AllGenuine(ctx, evs, uses)
    }

    /** Nothing fails, no other turn makes a call, and the journal is in order. */
    ghost predicate Calm()
      reads this`others, h, h.host, h.leaf, h.wal
    {
      others == [] && Smooth(h, ctx) && WellKept(ctx, JournalOf(h))
    }

    /** An event of the run has just happened. */
    ghost method Happened(ev: CrashSafety.Event<Data>, before: Store)
      requires h.leaf != h.wal && PowerRun(h.g, May(ctx, OwnRunOps(ctx)), stores, evs) && stores[|evs|] == before
      requires StoreStep(h.g, May(ctx, OwnRunOps(ctx)), before, ev, h.Stored()) && AllGenuine(ctx, evs, uses)
      modifies this`stores, this`evs
      ensures Valid() && stores == old(stores) + [h.Stored()] && evs == old(evs) + [Call(ev)]
    {
      hide StoreStep, Genuine, PowerRun;
      RunMore(h.g, May(ctx, OwnRunOps(ctx)), stores, evs, ev, h.Stored());
      RunLength(h.g, May(ctx, OwnRunOps(ctx)), stores, evs);
      stores := stores + [h.Stored()];
      evs := evs + [Call(ev)];
      GenuineLater(ctx, old(evs), evs, uses);
    }

    /** Parallel turns make calls of their own, each a step of the same run. */
    method Interleave()
      requires Valid()
      modifies this`others, this`stores, this`evs, h`poisonReason, h.host, h.leaf, h.wal
      ensures Valid() && old(stores) <= stores && old(evs) <= evs
      ensures old(Calm()) ==> Calm() && JournalOf(h) == old(JournalOf(h))
    {
      if others == [] { return; }
      var batch := others[0];
      others := others[1..];
      for i := 0 to |batch|
        invariant Valid() && old(stores) <= stores && old(evs) <= evs
      {
        OtherCall(batch[i]);
      }
    }

    method OtherCall(o: Other)
      requires Valid()
      modifies this`stores, this`evs, h`poisonReason, h.host, h.leaf, h.wal
      ensures Valid() && old(stores) <= stores && old(evs) <= evs
    {
      hide StoreTxnStep, PowerRun, Genuine, StoreReconcileStep;
      ghost var before := h.Stored();
      match o {
        case OtherTxn(op, ts) =>
          if !OwnRun(ctx, op) || ts == "" { return; }
          var out := Perform(h, ctx, op, ts, OwnRunOps(ctx));
          Happened(TxnCall(out), before);
        case OtherRead =>
          var r := h.Read();
          Happened(ReadCall(r), before);
        case OtherReconcile =>
          var r := h.Reconcile();
          Happened(ReconcileCall(r), before);
      }
    }

    /** `settlementOf`: what the journal says of a call. */
    method SettlementOf(callId: string) returns (status: Option<SettlementStatus>)
      requires Valid()
      modifies this, h`poisonReason, h.host, h.leaf, h.wal
      ensures Valid() && old(stores) <= stores && old(evs) <= evs
      ensures |evs| > 0 && uses == old(uses) + [Read(callId, status, |evs| - 1)]
      ensures old(Calm()) ==> Calm() && JournalOf(h) == old(JournalOf(h))
      ensures old(Calm()) ==> status.Some? && SaysOf(ctx, JournalOf(h), callId, status.value)
    {
      hide PowerRun, Genuine, Calm, JournalOf, SaysOf;
      Interleave();
      status := ReadStatus(callId);
      uses := uses + [Read(callId, status, |evs| - 1)];
    }

    method ReadStatus(callId: string) returns (status: Option<SettlementStatus>)
      requires Valid()
      modifies this`stores, this`evs, h.host
      ensures Valid() && old(stores) <= stores && old(evs) <= evs
      ensures |evs| > 0 && Genuine(ctx, evs, Read(callId, status, |evs| - 1))
      ensures old(Calm()) ==> Calm() && JournalOf(h) == old(JournalOf(h))
      ensures old(Calm()) ==> status.Some? && SaysOf(ctx, JournalOf(h), callId, status.value)
    {
      hide PowerRun, FoldCalls, StatusIn, Readable, SaysOf, WellKept, Overhang, LogOverhang, SchemaOk, TableOf;
      status := None;
      ghost var before := h.Stored();
      var folded := h.Read();
      Happened(ReadCall(folded), before);
      if folded.Some? {
        FoldsExactly(ctx, folded.value.datas);
        var live := FoldReservations(ctx, folded.value.datas);
        if live.Some? {
          StatusExactly(ctx, folded.value.datas, callId);
          status := Some(StatusIn(live.value, callId));
        }
      }
    }

    method Reserve(bind: CallBinding, worstCase: JsValue, budget: JsValue, ts: string) returns (answer: Answer)
      requires Valid() && ts != "" && bind.runNonce == ctx.runNonce
      modifies this, h`poisonReason, h.host, h.leaf, h.wal
      ensures Valid() && old(stores) <= stores && old(evs) <= evs
      ensures exists at: nat :: uses == old(uses) + [Reserved(bind, answer, at)] && (answer.Ran? ==> old(|evs|) <= at < |evs|)
      ensures old(Calm()) && WellFormed(bind, worstCase, budget) ==>
                && answer.Ran? && Calm()
                && ReservedCalmly(ctx, bind, worstCase, budget, old(JournalOf(h)), answer.out, JournalOf(h))
    {
      hide PowerRun, Genuine, Calm, JournalOf, ReservedCalmly, WellFormed;
      Interleave();
      ghost var at;
      answer, at := ReserveNow(bind, worstCase, budget, ts);
      uses := uses + [Reserved(bind, answer, at)];
    }

    method ReserveNow(bind: CallBinding, worstCase: JsValue, budget: JsValue, ts: string) returns (answer: Answer, ghost at: nat)
      requires Valid() && ts != "" && bind.runNonce == ctx.runNonce
      modifies this`stores, this`evs, h`poisonReason, h.host, h.leaf, h.wal
      ensures Valid() && old(stores) <= stores && old(evs) <= evs
      ensures Genuine(ctx, evs, Reserved(bind, answer, at)) && (answer.Ran? ==> old(|evs|) <= at < |evs|)
      ensures old(Calm()) && WellFormed(bind, worstCase, budget) ==>
                && answer.Ran? && Calm()
                && ReservedCalmly(ctx, bind, worstCase, budget, old(JournalOf(h)), answer.out, JournalOf(h))
    {
      hide Decide, StoreTxnStep, UsdToNano, PowerRun, Readable, Healthy, WellKept, Fresh, Owed, FormatNano, Smooth, JournalOf,
           ComesOf, ReservedCalmly, ValidBinding, Genuine;
      ghost var before, journal, calm := h.Stored(), JournalOf(h), Calm();
      answer := ReserveCall(h, ctx, bind, worstCase, budget, ts);
      at := |evs|;
      if answer.Ran? {
        ghost var n, b := UsdToNano(worstCase).value, UsdToNano(budget).value;
        ReserveIsOwn(h.g, ctx, b, before, answer.out, h.Stored());
        if calm { ReservedSmoothly(ctx, bind, worstCase, budget, ts, journal, answer.out, JournalOf(h)); }
        Happened(TxnCall(answer.out), before);
      }
      ReservedIsGenuine(ctx, evs, bind, answer, at);
    }

    method SettleBy(op: Op, ts: string) returns (out: Outcome<Data>)
      requires Valid() && ts != "" && !op.ReserveOp?
      modifies this, h`poisonReason, h.host, h.leaf, h.wal
      ensures Valid() && old(stores) <= stores && old(evs) <= evs
      ensures |evs| > 0 && uses == old(uses) + [Settled(op, out, |evs| - 1)]
      ensures old(Calm()) && op.bind.runNonce == ctx.runNonce ==>
                Calm() && SettledCalmly(ctx, op, ts, old(JournalOf(h)), out, JournalOf(h))
    {
      hide Decide, StoreTxnStep, PowerRun, Readable, Healthy, Genuine, Smooth, JournalOf, WellKept, ComesOf, SettledCalmly, Step;
      Interleave();
      ghost var before, journal, calm := h.Stored(), JournalOf(h), Calm();
      out := Perform(h, ctx, op, ts, OwnRunOps(ctx));
      if calm && op.bind.runNonce == ctx.runNonce { SettledSmoothly(ctx, op, ts, journal, out, JournalOf(h)); }
      Happened(TxnCall(out), before);
      SettledIsGenuine(ctx, evs, op, ts, out);
      uses := uses + [Settled(op, out, |evs| - 1)];
    }

    /** A settlement that is the first, or follows a read that found none. */
    method TrySettle(bind: CallBinding, op: Op, ts: string, ghost mint: Op) returns (out: Outcome<Data>)
      requires Valid() && ts != "" && op.bind == bind && !op.ReserveOp?
      requires op == UncertainOp(bind) || (|uses| == 1 && op == mint)
      requires OneReservation(uses, bind, mint)
      requires NoneDone(uses) && (|uses| == 1 || SaidUnsettled(uses, bind.callId))
      modifies this, h`poisonReason, h.host, h.leaf, h.wal
      ensures Valid() && old(stores) <= stores && old(evs) <= evs && old(uses) <= uses
      ensures old(|uses|) == 1 ==> FirstSettlement(uses, op)
      ensures OneReservation(uses, bind, mint) && Resolved(uses) && |uses| > 1
      ensures if out.Done? then Closed(uses) else NoneDone(uses)
      ensures out.Died? <==> DiedLast(uses)
      ensures old(Calm()) && bind.runNonce == ctx.runNonce ==>
                Calm() && SettledCalmly(ctx, op, ts, old(JournalOf(h)), out, JournalOf(h))
    {
      hide Valid, OneReservation, Closed, NoneDone, Resolved, SaidUnsettled, Calm, SettledCalmly, JournalOf;
      ghost var before := uses;
      out := SettleBy(op, ts);
      MoreUses(before, Settled(op, out, |evs| - 1), bind, mint);
    }

    method CheckSettled(bind: CallBinding, ghost mint: Op) returns (status: Option<SettlementStatus>)
      requires Valid() && OneReservation(uses, bind, mint)
      modifies this, h`poisonReason, h.host, h.leaf, h.wal
      ensures Valid() && old(stores) <= stores && old(evs) <= evs && old(uses) <= uses
      ensures OneReservation(uses, bind, mint) && |uses| > 1
      ensures status.None? || status.value.settled || old(Closed(uses)) ==> Resolved(uses)
      ensures (status.Some? && status.value.settled) || old(Closed(uses)) ==> Closed(uses)
      ensures old(NoneDone(uses)) ==> NoneDone(uses)
      ensures status.Some? && !status.value.settled ==> SaidUnsettled(uses, bind.callId)
      ensures !DiedLast(uses)
      ensures old(Calm()) ==> Calm() && JournalOf(h) == old(JournalOf(h))
      ensures old(Calm()) ==> status.Some? && (status.value.settled <==> IsSettled(JournalOf(h), bind.callId))
    {
      hide Valid, OneReservation, Closed, NoneDone, SaidUnsettled, Calm, JournalOf, IsSettled, HasCost, HasAuthority, WellKept;
      ghost var before := uses;
      status := SettlementOf(bind.callId);
      MoreUses(before, Read(bind.callId, status, |evs| - 1), bind, mint);
    }

    /** The settlement kernel: one mint, and if the ledger refused it, the worst case, unless it is settled by now. */
    method SettleCompleted(bind: CallBinding, judged: Judged, ts: string, ghost mint: Op) returns (k: Kernel)
      requires Valid() && ts != "" && mint == MintOp(bind, judged)
      requires OneReservation(uses, bind, mint) && NoneDone(uses) && |uses| == 1
      modifies this, h`poisonReason, h.host, h.leaf, h.wal
      ensures Valid() && old(stores) <= stores && old(evs) <= evs && old(uses) <= uses
      ensures FirstSettlement(uses, mint) && OneReservation(uses, bind, mint)
      ensures k == Recorded ==> Closed(uses)
      ensures k == Raised ==> NoneDone(uses)
      ensures k == KernelDied <==> DiedLast(uses)
      ensures old(Calm()) && ValidBinding(bind) && bind.runNonce == ctx.runNonce && IsOpen(old(JournalOf(h)), bind) ==>
                && Calm() && k == Recorded && old(JournalOf(h)) <= JournalOf(h)
                && SettledAs(ctx, BestOp(ctx, bind, mint, ts), JournalOf(h))
    {
      hide Valid, OneReservation, Closed, NoneDone, Resolved, SaidUnsettled, Calm, JournalOf, SettledAs, ValidBinding;
      var out := TrySettle(bind, MintOp(bind, judged), ts, mint);
      if out.Done? { return Recorded; }
      if out.Died? { return KernelDied; }
      if judged.JudgedUncertain? { return Raised; }
      var status := CheckSettled(bind, mint);
      if status.None? { return Raised; }
      if status.value.settled { return Recorded; }
      out := TrySettle(bind, UncertainOp(bind), ts, mint);
      if out.Done? { return Recorded; }
      return if out.Died? then KernelDied else Raised;
    }

    /** The `finally`: whatever escaped, settle unless a settlement is durable; a ledger that still refuses leaves the
        reservation outstanding. */
    method EnsureSettled(bind: CallBinding, ts: string, ghost mint: Op) returns (died: bool)
      requires Valid() && ts != "" && NoneDone(uses) && OneReservation(uses, bind, mint)
      modifies this, h`poisonReason, h.host, h.leaf, h.wal
      ensures Valid() && old(stores) <= stores && old(evs) <= evs && old(uses) <= uses
      ensures OneReservation(uses, bind, mint)
      ensures !died ==> Resolved(uses)
      ensures died <==> DiedLast(uses)
      ensures old(Calm()) && ValidBinding(bind) && bind.runNonce == ctx.runNonce && IsOpen(old(JournalOf(h)), bind) ==>
                && Calm() && !died && old(JournalOf(h)) <= JournalOf(h) && SettledAs(ctx, UncertainOp(bind), JournalOf(h))
    {
      hide Valid, OneReservation, Closed, NoneDone, Resolved, SaidUnsettled, Calm, JournalOf, SettledAs, ValidBinding;
      var status := CheckSettled(bind, mint);
      if status.None? || status.value.settled { return false; }
      var out := TrySettle(bind, UncertainOp(bind), ts, mint);
      return out.Died?;
    }

    /** The reservation this provider call made, if it was admitted, is accounted for ever after; and what closed it is a
        settlement record. */
    ghost predicate Kept()
      reads this, h
    {
      && (Admitted(uses) ==> AccountedEverAfter(h.g, ctx, stores, evs, uses[0].at, uses[0].answer.out.data))
      && forall u :: u in uses && Closes(u) ==> ClosedByRecord(h.g, ctx, stores, evs, u)
    }

    lemma AdmittedIsKept()
      requires Valid() && Sound(h.g)
      ensures Kept()
    {
      hide PowerRun, May, Sound, AccountedEverAfter, ClosedByRecord, Genuine;
      RunLength(h.g, May(ctx, OwnRunOps(ctx)), stores, evs);
      forall u | u in uses && Closes(u) ensures ClosedByRecord(h.g, ctx, stores, evs, u) {
        ClosesByRecord(h.g, ctx, stores, evs, u);
      }
      KeptReservation();
    }

    lemma KeptReservation()
      requires Valid() && Sound(h.g)
      ensures Admitted(uses) ==> AccountedEverAfter(h.g, ctx, stores, evs, uses[0].at, uses[0].answer.out.data)
    {
      hide PowerRun, May, Sound, AccountedEverAfter;
      if Admitted(uses) {
        assert Genuine(ctx, evs, uses[0]);
        AdmittedEverAfter(h.g, ctx, stores, evs, uses[0].at, uses[0].answer.out.data);
      }
    }

    /** `runWith`: one provider call, from reservation to settlement, on every path. */
    method RunWith(bind: CallBinding, worstCase: JsValue, budget: JsValue, child: Child, ts: string)
        returns (r: TurnResult)
      requires Valid() && ts != "" && bind.runNonce == ctx.runNonce && uses == []
      modifies this, h`poisonReason, h.host, h.leaf, h.wal
      ensures Valid() && old(stores) <= stores && old(evs) <= evs
      ensures OneReservation(uses, bind, Mint(bind, child)) && (uses[0].answer.Ran? ==> old(|evs|) <= uses[0].at)
      ensures !Admitted(uses) ==> |uses| == 1
      ensures r == BudgetDenied ==> !Admitted(uses)
      ensures Admitted(uses) && r != Dead ==> Resolved(uses)
      ensures r == Dead <==> DiedLast(uses)
      ensures r.Returned? ==> Admitted(uses) && Closed(uses) && r.settlementCallId == Some(bind.callId)
      ensures r.Returned? ==> (r.limit <==> child.Verdict? && child.limit)
      ensures !child.Throws? && Admitted(uses) ==> FirstSettlement(uses, Mint(bind, child))
      ensures old(Calm()) && WellFormed(bind, worstCase, budget) ==>
                Calm() && TurnCalmly(ctx, bind, worstCase, budget, child, ts, old(JournalOf(h)), r, JournalOf(h))
      ensures Sound(h.g) ==> Kept()
    {
      hide Kept;
      r := ReserveAndRun(bind, worstCase, budget, child, ts);
      if Sound(h.g) { AdmittedIsKept(); }
    }

    method ReserveAndRun(bind: CallBinding, worstCase: JsValue, budget: JsValue, child: Child, ts: string)
        returns (r: TurnResult)
      requires Valid() && ts != "" && bind.runNonce == ctx.runNonce && uses == []
      modifies this, h`poisonReason, h.host, h.leaf, h.wal
      ensures Valid() && old(stores) <= stores && old(evs) <= evs
      ensures OneReservation(uses, bind, Mint(bind, child)) && (uses[0].answer.Ran? ==> old(|evs|) <= uses[0].at)
      ensures !Admitted(uses) ==> |uses| == 1
      ensures r == BudgetDenied ==> !Admitted(uses)
      ensures Admitted(uses) && r != Dead ==> Resolved(uses)
      ensures r == Dead <==> DiedLast(uses)
      ensures r.Returned? ==> Admitted(uses) && Closed(uses) && r.settlementCallId == Some(bind.callId)
      ensures r.Returned? ==> (r.limit <==> child.Verdict? && child.limit)
      ensures !child.Throws? && Admitted(uses) ==> FirstSettlement(uses, Mint(bind, child))
      ensures old(Calm()) && WellFormed(bind, worstCase, budget) ==>
                Calm() && TurnCalmly(ctx, bind, worstCase, budget, child, ts, old(JournalOf(h)), r, JournalOf(h))
    {
      hide Valid, Closed, NoneDone, SaidUnsettled, Calm, ReservedCalmly, WellFormed, Resolved, JournalOf, RanCalmly, TurnCalmly, IsOpen, ValidBinding;
      ghost var mint, journal := Mint(bind, child), JournalOf(h);
      var answer := Reserve(bind, worstCase, budget, ts);
      ghost var at: nat :| uses == [] + [Reserved(bind, answer, at)] && (answer.Ran? ==> old(|evs|) <= at < |evs|);
      assert uses == [Reserved(bind, answer, at)];
      FirstUse(bind, mint, answer, at);
      ghost var between := JournalOf(h);
      if answer.Ran? && WellFormed(bind, worstCase, budget) {
        AdmittedIsOpen(ctx, bind, worstCase, budget, journal, answer.out, between);
      }
      if answer.Ran? && answer.out.Done? {
        r := RunAdmitted(bind, child, ts);
      } else {
        r := if answer.BadInput? then Thrown else if answer.out.Declined? then BudgetDenied else if answer.out.Died? then Dead else Thrown;
      }
      if answer.Ran? && WellFormed(bind, worstCase, budget) {
        TurnIsCalm(ctx, bind, worstCase, budget, child, ts, journal, answer.out, between, r, JournalOf(h));
      }
    }

    /** An admitted reservation: run the child, settle by what came of it, and otherwise settle in the `finally`. */
    method RunAdmitted(bind: CallBinding, child: Child, ts: string) returns (r: TurnResult)
      requires Valid() && ts != "" && |uses| == 1 && Admitted(uses) && NoneDone(uses)
      requires OneReservation(uses, bind, Mint(bind, child))
      modifies this, h`poisonReason, h.host, h.leaf, h.wal
      ensures Valid() && old(stores) <= stores && old(evs) <= evs && old(uses) <= uses
      ensures OneReservation(uses, bind, Mint(bind, child))
      ensures r != BudgetDenied && (r != Dead ==> Resolved(uses))
      ensures r == Dead <==> DiedLast(uses)
      ensures r.Returned? ==> Closed(uses) && r.settlementCallId == Some(bind.callId)
      ensures r.Returned? ==> (r.limit <==> child.Verdict? && child.limit)
      ensures !child.Throws? ==> FirstSettlement(uses, Mint(bind, child))
      ensures old(Calm()) && ValidBinding(bind) && bind.runNonce == ctx.runNonce && IsOpen(old(JournalOf(h)), bind) ==>
                Calm() && RanCalmly(ctx, bind, child, ts, old(JournalOf(h)), r, JournalOf(h))
    {
      hide Valid, Closed, NoneDone, SaidUnsettled, Calm, Resolved, JournalOf, ValidBinding, IsOpen, SettledAs, GoodMint;
      ghost var mint := Mint(bind, child);
      match child {
        case Throws =>
        case NoVerdict =>
          var out := TrySettle(bind, UncertainOp(bind), ts, mint);
          if out.Done? { return Returned(false, Some(bind.callId)); }
          if out.Died? { return Dead; }
        case Verdict(limit, judged, logThrows) =>
          var k := SettleCompleted(bind, judged, ts, mint);
          if k == KernelDied { return Dead; }
          if k == Recorded {
            var status := CheckSettled(bind, mint); // what the ledger concluded
            if status.None? || logThrows { return Thrown; }
            return Returned(limit, Some(bind.callId));
          }
      }
      var died := EnsureSettled(bind, ts, mint);
      return if died then Dead else Thrown;
    }

    /** The primary, and the fallback only if the primary hit a usage limit and the durable journal says its settlement
        authorizes a second provider. `routed` is false when recording the cooldown or the route change throws. */
    method RouteTurn(primary: ProviderCall, fallback: Option<ProviderCall>, onPrimaryClaude: bool, routed: bool)
        returns (r: TurnResult, ghost first: seq<Use>, ghost receipt: Option<Use>, ghost second: seq<Use>)
      requires Valid() && primary.ts != "" && primary.bind.runNonce == ctx.runNonce && uses == []
      requires fallback.Some? ==> fallback.value.ts != "" && fallback.value.bind.runNonce == ctx.runNonce
      modifies this, h`poisonReason, h.host, h.leaf, h.wal
      ensures Valid() && old(stores) <= stores && old(evs) <= evs
      ensures OneReservation(first, primary.bind, Mint(primary.bind, primary.child)) && AllGenuine(ctx, evs, first)
      ensures AllGenuine(ctx, evs, second)
      ensures second != [] ==>
                && fallback.Some? && OneReservation(second, fallback.value.bind, Mint(fallback.value.bind, fallback.value.child))
                && routed && onPrimaryClaude && primary.child.Verdict? && primary.child.limit
                && Admitted(first) && Closed(first)
                && receipt.Some? && Authorizes(receipt.value, primary.bind.callId)
                && (second[0].answer.Ran? ==> receipt.value.at < second[0].at)
      ensures receipt.Some? ==> Genuine(ctx, evs, receipt.value)
      ensures receipt.Some? && Authorizes(receipt.value, primary.bind.callId) && routed && onPrimaryClaude
              && fallback.Some? && primary.child.Verdict? && primary.child.limit
              ==> second != []
      ensures r != Dead ==> (Admitted(first) ==> Resolved(first)) && (Admitted(second) ==> Resolved(second))
      ensures r == BudgetDenied ==> !Admitted(if second == [] then first else second)
      ensures old(Calm()) && WellFormed(primary.bind, primary.worstCase, primary.budget) ==>
                (second != [] <==> onPrimaryClaude && fallback.Some? && routed && EarnsFallback(ctx, primary, old(JournalOf(h))))
    {
      hide Genuine, OneReservation, Closed, NoneDone, Resolved, SaidUnsettled, PowerRun, Kept, Calm, TurnCalmly, WellFormed,
           JournalOf, SaysOf, Mint, EarnsFallback;
      receipt, second := None, [];
      ghost var journal, calm := JournalOf(h), Calm() && WellFormed(primary.bind, primary.worstCase, primary.budget);
      r := RunWith(primary.bind, primary.worstCase, primary.budget, primary.child, primary.ts);
      first := uses;
      if !r.Returned? {
        if calm { UnearnedIsThrown(ctx, primary, journal, r, JournalOf(h)); }
        return;
      }
      ghost var evs1, after := evs, JournalOf(h);
      var status := SettlementOf(primary.bind.callId);
      if calm { EarnedIsRead(ctx, primary, journal, r, after, status.value); }
      GenuineLater(ctx, evs1, evs, first);
      receipt := Some(Read(primary.bind.callId, status, |evs| - 1));
      assert receipt.value == uses[|uses| - 1];
      if status.None? {
        r := Thrown;
        return;
      }
      if r.limit && onPrimaryClaude && fallback.Some? && status.value.fallbackAuthorized {
        if !routed {
          r := Thrown;
          return;
        }
        uses := [];
        ghost var evs2 := evs;
        var call := fallback.value;
        r := RunWith(call.bind, call.worstCase, call.budget, call.child, call.ts);
        second := uses;
        GenuineLater(ctx, evs2, evs, first);
        GenuineLater(ctx, evs2, evs, [receipt.value]);
        assert receipt.value in [receipt.value];
      }
    }

    /** What a turn's uses are at its exit: each admitted reservation is accounted for in every journal anything is answered
        from later, in every continuation of the run; and each use that closed a call did so by a settlement record. */
    ghost predicate AllAccounted(first: seq<Use>, second: seq<Use>)
      reads this, h
    {
      forall u :: u in first + second ==>
        && (u.Reserved? && u.answer.Ran? && u.answer.out.Done? ==>
              && u.answer.out.data.bind == u.bind
              && AccountedEverAfter(h.g, ctx, stores, evs, u.at, u.answer.out.data))
        && (Closes(u) ==> ClosedByRecord(h.g, ctx, stores, evs, u))
    }

    lemma TurnIsAccounted(first: seq<Use>, second: seq<Use>)
      requires Valid() && Sound(h.g) && AllGenuine(ctx, evs, first) && AllGenuine(ctx, evs, second)
      ensures AllAccounted(first, second)
    {
      hide PowerRun, May, Sound, AccountedEverAfter, ClosedByRecord;
      RunLength(h.g, May(ctx, OwnRunOps(ctx)), stores, evs);
      forall u | u in first + second
        ensures u.Reserved? && u.answer.Ran? && u.answer.out.Done? ==>
                  && u.answer.out.data.bind == u.bind
                  && AccountedEverAfter(h.g, ctx, stores, evs, u.at, u.answer.out.data)
        ensures Closes(u) ==> ClosedByRecord(h.g, ctx, stores, evs, u)
      {
        assert Genuine(ctx, evs, u);
        if u.Reserved? && u.answer.Ran? && u.answer.out.Done? {
          AdmittedEverAfter(h.g, ctx, stores, evs, u.at, u.answer.out.data);
        }
        if Closes(u) { ClosesByRecord(h.g, ctx, stores, evs, u); }
      }
    }

    /** `runRoutedTurnCore` after routing, to its exit, normal or throwing: at most two reservations, each resolved; what
        was admitted or settled is durable; and a second one only after a read of a journal that authorizes it. */
    method RunRoutedTurn(primary: ProviderCall, fallback: Option<ProviderCall>, onPrimaryClaude: bool, routed: bool)
        returns (r: TurnResult, ghost first: seq<Use>, ghost receipt: Option<Use>, ghost second: seq<Use>)
      requires Valid() && primary.ts != "" && primary.bind.runNonce == ctx.runNonce && uses == []
      requires fallback.Some? ==> fallback.value.ts != "" && fallback.value.bind.runNonce == ctx.runNonce
      modifies this, h`poisonReason, h.host, h.leaf, h.wal
      ensures Valid() && old(stores) <= stores && old(evs) <= evs
      ensures OneReservation(first, primary.bind, Mint(primary.bind, primary.child)) && AllGenuine(ctx, evs, first)
      ensures AllGenuine(ctx, evs, second)
      ensures second != [] ==>
                && fallback.Some? && OneReservation(second, fallback.value.bind, Mint(fallback.value.bind, fallback.value.child))
                && routed && onPrimaryClaude && primary.child.Verdict? && primary.child.limit
                && Admitted(first) && Closed(first)
                && receipt.Some? && Authorizes(receipt.value, primary.bind.callId) && Genuine(ctx, evs, receipt.value)
                && (second[0].answer.Ran? ==> receipt.value.at < second[0].at)
                && (Sound(h.g) ==> AuthorizedIn(ctx, evs[receipt.value.at].ev.read.value.datas, primary.bind.callId))
      ensures receipt.Some? && Authorizes(receipt.value, primary.bind.callId) && routed && onPrimaryClaude
              && fallback.Some? && primary.child.Verdict? && primary.child.limit
              ==> second != []
      ensures r != Dead ==> (Admitted(first) ==> Resolved(first)) && (Admitted(second) ==> Resolved(second))
      ensures r == BudgetDenied ==> !Admitted(if second == [] then first else second)
      ensures old(Calm()) && WellFormed(primary.bind, primary.worstCase, primary.budget) ==>
                (second != [] <==> onPrimaryClaude && fallback.Some? && routed && EarnsFallback(ctx, primary, old(JournalOf(h))))
      ensures Sound(h.g) ==> AllAccounted(first, second)
    {
      hide OneReservation, Closed, NoneDone, Resolved, SaidUnsettled, PowerRun, Kept, AllAccounted, AuthorizedIn, Genuine, Calm,
           EarnsFallback, WellFormed, JournalOf;
      r, first, receipt, second := RouteTurn(primary, fallback, onPrimaryClaude, routed);
      if Sound(h.g) {
        TurnIsAccounted(first, second);
        if second != [] {
          SecondProviderNeedsDurableAuthority(h.g, ctx, stores, evs, receipt.value, primary.bind.callId);
        }
      }
    }
  }
}
