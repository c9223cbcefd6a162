/** Budget safety, conservation and authority over every journal the ledger's own calls can build, and so, by
    crash safety, over every journal any call is ever answered from. */
module Budget {
  import opened Wrappers
  import opened Money
  import opened Attest
  import opened LineLog
  import opened Journal
  import opened LedgerSteps
  import opened CrashSafety
  import opened Durability
  import opened Ledger

  // ---- sums ----

  lemma {:induction false} SpendOfUpdate(entries: seq<Reservation>, i: nat, e: Reservation)
    requires i < |entries|
    ensures SpendOf(entries[i := e]) == SpendOf(entries) - Cost(entries[i]) + Cost(e)
    decreases |entries|
  {
    var n := |entries| - 1;
    var updated := entries[i := e];
    if i < n {
      SpendOfUpdate(entries[..n], i, e);
      assert updated[..n] == entries[..n][i := e];
    } else {
      assert updated[..n] == entries[..n];
    }
  }

  lemma SpendOfAppend(entries: seq<Reservation>, e: Reservation)
    ensures SpendOf(entries + [e]) == SpendOf(entries) + Cost(e)
  {
    assert (entries + [e])[..|entries|] == entries;
  }

  /** How far a proven cost exceeded the worst case that was reserved for it. */
  function Excess(e: Reservation): nat {
    if e.settled && e.trustedUsd.Some? && e.trustedUsd.value > e.worstCase then e.trustedUsd.value - e.worstCase else 0
  }

  function Overrun(entries: seq<Reservation>): nat {
    if entries == [] then 0 else Overrun(entries[..|entries| - 1]) + Excess(entries[|entries| - 1])
  }

  lemma {:induction false} OverrunUpdate(entries: seq<Reservation>, i: nat, e: Reservation)
    requires i < |entries|
    ensures Overrun(entries[i := e]) == Overrun(entries) - Excess(entries[i]) + Excess(e)
    decreases |entries|
  {
    var n := |entries| - 1;
    var updated := entries[i := e];
    if i < n {
      OverrunUpdate(entries[..n], i, e);
      assert updated[..n] == entries[..n][i := e];
    } else {
      assert updated[..n] == entries[..n];
    }
  }

  lemma {:induction false} NoFlagNoOverrun(entries: seq<Reservation>)
    requires forall i :: 0 <= i < |entries| ==> Excess(entries[i]) == 0
    ensures Overrun(entries) == 0
    decreases |entries|
  {
    if entries != [] { NoFlagNoOverrun(entries[..|entries| - 1]); }
  }

  // ---- what every reachable call table satisfies ----

  predicate EntryOk(ctx: Context, e: Reservation) {
    && e.bind.callId == e.callId && e.bind.runNonce == ctx.runNonce && ValidBinding(e.bind)
    && (!e.settled ==> e.trustedUsd.None? && !e.fallbackAuthorized)
    && (e.fallbackAuthorized ==> e.trustedUsd.None?)
    && (e.over <==> e.enforced && e.trustedUsd.Some? && e.trustedUsd.value > e.worstCase)
  }

  ghost predicate CallsOk(ctx: Context, datas: seq<Data>, calls: Calls) {
    && (forall i :: 0 <= i < |calls.entries| ==>
          EntryOk(ctx, calls.entries[i]) && IndexOf(calls.entries, calls.entries[i].callId) == i)
    && (forall n :: n in calls.nonces <==> NonceReserved(datas, n))
  }

  /** A record some allowed call would propose on this journal. Timestamps are never empty. */
  ghost predicate Proposed(ctx: Context, allowed: Op -> bool, datas: seq<Data>, d: Data) {
    exists op, ts :: allowed(op) && ts != "" && Decide(ctx, op, ts, datas) == Proposes(d)
  }

  /** Reservations carry this run's nonce and a representable amount: their caller supplies the first, and
      `usdToNano` the second. */
  predicate OwnRun(ctx: Context, op: Op) {
    op.ReserveOp? ==> op.bind.runNonce == ctx.runNonce && op.worstCase <= MAX_NANO
  }

  /** ... and were all enforced against one budget. */
  predicate UnderBudget(ctx: Context, budget: nat, op: Op) {
    OwnRun(ctx, op) && (op.ReserveOp? ==> op.budget == budget)
  }

  function OwnRunOps(ctx: Context): Op -> bool { op => OwnRun(ctx, op) }
  function BudgetOps(ctx: Context, budget: nat): Op -> bool { op => UnderBudget(ctx, budget, op) }

  ghost function May(ctx: Context, allowed: Op -> bool): Proposal<Data> {
    (datas, d) => Proposed(ctx, allowed, datas, d)
  }

  // ---- one proposal ----

  lemma IndexOfUnique(entries: seq<Reservation>, i: nat)
    requires i < |entries| && forall j :: 0 <= j < i ==> entries[j].callId != entries[i].callId
    ensures IndexOf(entries, entries[i].callId) == i
  {
  }

  lemma ReserveProposal(ctx: Context, op: Op, ts: string, datas: seq<Data>, d: Data, calls: Calls)
    requires op.ReserveOp? && OwnRun(ctx, op) && ts != "" && Decide(ctx, op, ts, datas) == Proposes(d)
    requires FoldCalls(ctx, datas) == Some(calls) && CallsOk(ctx, datas, calls)
    ensures SchemaOk(ctx, d)
    ensures ApplyRecord(ctx, calls, d) ==
            Some(Calls(calls.entries + [NewEntry(op)], calls.nonces + {op.bind.callNonce}))
    ensures op.budget > 0 ==> SpendOf(calls.entries) + op.worstCase <= op.budget
    ensures d.Reserve? && d.bind == op.bind && d.callId == op.bind.callId && !Has(calls.entries, d.callId)
  {
    ParseAfterFormat(0);
    ParseAfterFormat(op.worstCase);
  }

  function NewEntry(op: Op): Reservation
    requires op.ReserveOp?
  {
    Reservation(op.bind.callId, if op.budget > 0 then op.worstCase else 0, op.budget > 0, false, None, false, false, op.bind)
  }

  /** What a settlement does to its call's entry: a reported cost from the money mint, a route from the route
      mint, and nothing from an uncertain settlement. */
  function SettledEntry(e: Reservation, op: Op): Reservation
    requires !op.ReserveOp?
  {
    match op
    case UncertainOp(_) => e.(settled := true)
    case FallbackOp(_, _, _, _) => e.(settled := true, fallbackAuthorized := true)
    case AttestOp(_, _, _, usdNano) =>
      match ParseNano(usdNano)
      case Refused(_) => e
      case Ok(usd) => e.(settled := true, trustedUsd := Some(usd), over := e.over || (e.enforced && usd > e.worstCase))
  }

  lemma SettleProposal(ctx: Context, op: Op, ts: string, datas: seq<Data>, d: Data, calls: Calls)
    requires !op.ReserveOp? && ts != "" && Decide(ctx, op, ts, datas) == Proposes(d)
    requires FoldCalls(ctx, datas) == Some(calls) && CallsOk(ctx, datas, calls)
    ensures SchemaOk(ctx, d) && d.Settle? && d.callId == op.bind.callId && d.bind == op.bind
    ensures Has(calls.entries, d.callId)
    ensures var i := IndexOf(calls.entries, d.callId);
            && !calls.entries[i].settled
            && ApplyRecord(ctx, calls, d) ==
               Some(calls.(entries := calls.entries[i := SettledEntry(calls.entries[i], op)]))
    ensures op.AttestOp? ==> ParseNano(op.usdNano).Ok?
  {
    hide FormatNano, Canonical, FoldCalls, ShapeOk;
    ParseAfterFormat(0);
    FormatZero();
    if op.AttestOp? {
      var usd := ParseNano(op.usdNano).value;
      ParseAfterFormat(usd);
    }
    var i := IndexOf(calls.entries, op.bind.callId);
    assert EntryOk(ctx, calls.entries[i]);
  }

  lemma FormatZero()
    ensures FormatNano(0) == "0"
  {
  }

  lemma NonceReservedMore(datas: seq<Data>, d: Data, n: string)
    ensures NonceReserved(datas + [d], n) <==> NonceReserved(datas, n) || (d.Reserve? && d.bind.callNonce == n)
  {
    var more := datas + [d];
    if NonceReserved(datas, n) {
      var i :| 0 <= i < |datas| && datas[i].Reserve? && datas[i].bind.callNonce == n;
      assert more[i] == datas[i];
    }
    if d.Reserve? { assert more[|datas|] == d; }
  }

  lemma CallsOkAfterReserve(ctx: Context, datas: seq<Data>, d: Data, calls: Calls, e: Reservation)
    requires CallsOk(ctx, datas, calls) && d.Reserve? && EntryOk(ctx, e) && !Has(calls.entries, e.callId)
    ensures CallsOk(ctx, datas + [d], Calls(calls.entries + [e], calls.nonces + {d.bind.callNonce}))
  {
    var entries := calls.entries + [e];
    forall i | 0 <= i < |entries| ensures EntryOk(ctx, entries[i]) && IndexOf(entries, entries[i].callId) == i {
      if i < |calls.entries| {
        assert IndexOf(calls.entries, calls.entries[i].callId) == i;
        assert forall j :: 0 <= j < i ==> entries[j] == calls.entries[j];
      }
      IndexOfUnique(entries, i);
    }
    forall n { NonceReservedMore(datas, d, n); }
  }

  lemma CallsOkAfterSettle(ctx: Context, datas: seq<Data>, d: Data, calls: Calls, i: nat, e: Reservation)
    requires CallsOk(ctx, datas, calls) && d.Settle? && i < |calls.entries|
    requires EntryOk(ctx, e) && e.callId == calls.entries[i].callId
    ensures CallsOk(ctx, datas + [d], calls.(entries := calls.entries[i := e]))
  {
    var entries := calls.entries[i := e];
    forall k | 0 <= k < |entries| ensures EntryOk(ctx, entries[k]) && IndexOf(entries, entries[k].callId) == k {
      assert IndexOf(calls.entries, calls.entries[k].callId) == k && EntryOk(ctx, calls.entries[k]);
      assert forall j :: 0 <= j < k ==> entries[j].callId == calls.entries[j].callId;
      IndexOfUnique(entries, k);
    }
    forall n { NonceReservedMore(datas, d, n); }
  }

  /** The money invariant against a budget: without overruns, never over. */
  ghost predicate WithinBudget(budget: nat, calls: Calls) {
    budget > 0 ==>
      && (forall i :: 0 <= i < |calls.entries| ==> calls.entries[i].enforced)
      && SpendOf(calls.entries) <= budget + Overrun(calls.entries)
  }

  lemma ReserveStepOk(ctx: Context, budget: nat, op: Op, ts: string, datas: seq<Data>, d: Data, calls: Calls)
      returns (after: Calls)
    requires op.ReserveOp? && OwnRun(ctx, op) && ts != "" && Decide(ctx, op, ts, datas) == Proposes(d)
    requires FoldCalls(ctx, datas) == Some(calls) && CallsOk(ctx, datas, calls)
    ensures FoldCalls(ctx, datas + [d]) == Some(after) && CallsOk(ctx, datas + [d], after) && SchemaOk(ctx, d)
    ensures UnderBudget(ctx, budget, op) && WithinBudget(budget, calls) ==> WithinBudget(budget, after)
  {
    hide Decide, ApplyRecord, FoldCalls, ValidBinding, SchemaOk, CallsOk, SpendOf;
    FoldOneMore(ctx, datas, d);
    ReserveProposal(ctx, op, ts, datas, d, calls);
    var e := NewEntry(op);
    ReserveBindingValid(ctx, op, ts, datas, d);
    CallsOkAfterReserve(ctx, datas, d, calls, e);
    after := Calls(calls.entries + [e], calls.nonces + {op.bind.callNonce});
    SpendOfAppend(calls.entries, e);
    assert (calls.entries + [e])[..|calls.entries|] == calls.entries;
  }

  lemma SettleStepOk(ctx: Context, budget: nat, op: Op, ts: string, datas: seq<Data>, d: Data, calls: Calls)
      returns (after: Calls)
    requires !op.ReserveOp? && ts != "" && Decide(ctx, op, ts, datas) == Proposes(d)
    requires FoldCalls(ctx, datas) == Some(calls) && CallsOk(ctx, datas, calls)
    ensures FoldCalls(ctx, datas + [d]) == Some(after) && CallsOk(ctx, datas + [d], after) && SchemaOk(ctx, d)
    ensures WithinBudget(budget, calls) ==> WithinBudget(budget, after)
  {
    hide Decide, ApplyRecord, FoldCalls, ValidBinding, SchemaOk, SpendOf, Overrun;
    FoldOneMore(ctx, datas, d);
    SettleProposal(ctx, op, ts, datas, d, calls);
    var i := IndexOf(calls.entries, d.callId);
    var e := SettledEntry(calls.entries[i], op);
    assert EntryOk(ctx, calls.entries[i]);
    CallsOkAfterSettle(ctx, datas, d, calls, i, e);
    after := calls.(entries := calls.entries[i := e]);
    SpendOfUpdate(calls.entries, i, e);
    OverrunUpdate(calls.entries, i, e);
  }

  lemma ReserveBindingValid(ctx: Context, op: Op, ts: string, datas: seq<Data>, d: Data)
    requires op.ReserveOp? && Decide(ctx, op, ts, datas) == Proposes(d)
    ensures ValidBinding(op.bind)
  {
  }

  // ---- every journal the calls can build ----

  lemma {:induction false} JournalOk(ctx: Context, budget: nat, allowed: Op -> bool, datas: seq<Data>) returns (calls: Calls)
    requires Justified(May(ctx, allowed), datas) && forall op :: allowed(op) ==> OwnRun(ctx, op)
    ensures FoldCalls(ctx, datas) == Some(calls) && CallsOk(ctx, datas, calls)
    ensures forall i :: 0 <= i < |datas| ==> SchemaOk(ctx, datas[i])
    ensures (forall op :: allowed(op) ==> UnderBudget(ctx, budget, op)) ==> WithinBudget(budget, calls)
    decreases |datas|
  {
    hide FoldCalls, SchemaOk, Decide;
    if datas == [] {
      assert FoldCalls(ctx, datas) == Some(Calls([], {})) by { FoldNothing(ctx); }
      calls := Calls([], {});
    } else {
      var n := |datas| - 1;
      var front, d := datas[..n], datas[n];
      assert datas == front + [d];
      forall i | 0 <= i < n ensures May(ctx, allowed)(front[..i], front[i]) {
        assert front[..i] == datas[..i] && front[i] == datas[i];
      }
      var before := JournalOk(ctx, budget, allowed, front);
      assert May(ctx, allowed)(datas[..n], datas[n]);
      var op, ts :| allowed(op) && ts != "" && Decide(ctx, op, ts, front) == Proposes(d);
      if op.ReserveOp? {
        calls := ReserveStepOk(ctx, budget, op, ts, front, d, before);
      } else {
        calls := SettleStepOk(ctx, budget, op, ts, front, d, before);
      }
    }
  }

  lemma FoldNothing(ctx: Context)
    ensures FoldCalls(ctx, []) == Some(Calls([], {}))
  {
  }

  /** Main result (writer and reader agree): every journal the calls build folds, record by record through the
      schema, the attestation checks and the call transitions; and printed to bytes it reads back as itself. */
  lemma BuiltJournalsAreAccepted(ctx: Context, g: Generation<Data>, datas: seq<Data>)
    requires Justified(May(ctx, OwnRunOps(ctx)), datas)
    requires Sound(g) && forall d :: g.valid(d) == SchemaOk(ctx, d)
    ensures FoldCalls(ctx, datas).Some?
    ensures var raw := Print(g, EmptyJournal(g), datas);
            FoldLeaf(g, raw).Good? && FoldLeaf(g, raw).state.datas == datas && FoldLeaf(g, raw).durable == |raw|
  {
    var calls := JournalOk(ctx, 0, OwnRunOps(ctx), datas);
    forall d | d in datas ensures g.valid(d) {
      var i :| 0 <= i < |datas| && datas[i] == d;
    }
    WriterAndReaderAgree(g, datas);
  }

  /** Main result (budget safety): in every run, with any crashes, torn writes and reconciliations, whenever all
      reservations were enforced against one budget, what any call is answered from never spends more than the
      budget plus the sum by which proven costs exceeded their reserved worst cases. */
  lemma BudgetHoldsInEveryRun(
      ctx: Context, budget: nat, g: Generation<Data>, disks: seq<Disk>, evs: seq<Event<Data>>, i: nat)
    requires budget > 0 && Sound(g) && i < |evs| && disks != [] && disks[0] == FRESH
    requires Run(g, May(ctx, BudgetOps(ctx, budget)), disks, evs) && AnsweredFrom(evs[i]).Some?
    ensures var calls := FoldCalls(ctx, AnsweredFrom(evs[i]).value.datas);
            calls.Some? && SpendOf(calls.value.entries) <= budget + Overrun(calls.value.entries)
  {
    var may := May(ctx, BudgetOps(ctx, budget));
    AnsweredJournalsAreJustified(g, may, disks, evs, i);
    var calls := JournalOk(ctx, budget, BudgetOps(ctx, budget), AnsweredFrom(evs[i]).value.datas);
  }

  /** ... and so never more than the budget while no call is flagged as having exceeded its worst case. */
  lemma UnflaggedStaysWithinBudget(
      ctx: Context, budget: nat, g: Generation<Data>, disks: seq<Disk>, evs: seq<Event<Data>>, i: nat)
    requires budget > 0 && Sound(g) && i < |evs| && disks != [] && disks[0] == FRESH
    requires Run(g, May(ctx, BudgetOps(ctx, budget)), disks, evs) && AnsweredFrom(evs[i]).Some?
    ensures var calls := FoldCalls(ctx, AnsweredFrom(evs[i]).value.datas);
            calls.Some? && (Unflagged(calls.value.entries) ==> SpendOf(calls.value.entries) <= budget)
  {
    AnsweredJournalsAreJustified(g, May(ctx, BudgetOps(ctx, budget)), disks, evs, i);
    UnflaggedJournal(ctx, budget, AnsweredFrom(evs[i]).value.datas);
  }

  predicate Unflagged(entries: seq<Reservation>) {
    forall k :: 0 <= k < |entries| ==> !entries[k].over
  }

  lemma UnflaggedJournal(ctx: Context, budget: nat, datas: seq<Data>)
    requires budget > 0 && Justified(May(ctx, BudgetOps(ctx, budget)), datas)
    ensures FoldCalls(ctx, datas).Some?
    ensures var calls := FoldCalls(ctx, datas).value; Unflagged(calls.entries) ==> SpendOf(calls.entries) <= budget
  {
    var calls := JournalOk(ctx, budget, BudgetOps(ctx, budget), datas);
    var entries := calls.entries;
    if Unflagged(entries) {
      forall k | 0 <= k < |entries| ensures Excess(entries[k]) == 0 {
        assert EntryOk(ctx, entries[k]) && entries[k].enforced;
      }
      NoFlagNoOverrun(entries);
    }
  }

  /** Main result. Power cuts change none of it: whatever a cut takes, what any later call is answered from is within
      the budget plus the flagged overruns, and within the budget while no call is flagged. */
  lemma BudgetHoldsAcrossPowerCuts(
      ctx: Context, budget: nat, g: Generation<Data>, stores: seq<Store>, evs: seq<PowerEvent<Data>>, i: nat)
    requires budget > 0 && Sound(g) && i < |evs|
    requires PowerRun(g, May(ctx, BudgetOps(ctx, budget)), stores, evs) && Replied(evs[i]).Some?
    ensures var calls := FoldCalls(ctx, Replied(evs[i]).value.datas);
            && calls.Some? && SpendOf(calls.value.entries) <= budget + Overrun(calls.value.entries)
            && (Unflagged(calls.value.entries) ==> SpendOf(calls.value.entries) <= budget)
  {
    hide PowerSteps, May;
    AnsweredJournalsAreJustifiedAcrossPowerCuts(g, May(ctx, BudgetOps(ctx, budget)), stores, evs, i);
    var calls := JournalOk(ctx, budget, BudgetOps(ctx, budget), Replied(evs[i]).value.datas);
    UnflaggedJournal(ctx, budget, Replied(evs[i]).value.datas);
  }

  /** Every admitted reservation under a positive budget leaves spend at most that budget, whatever was
      reserved before it and under whatever budgets. */
  lemma AdmittedReserveFits(ctx: Context, bind: CallBinding, worstCase: nat, budget: nat, ts: string, datas: seq<Data>, d: Data)
    requires Justified(May(ctx, OwnRunOps(ctx)), datas) && budget > 0
    requires OwnRun(ctx, ReserveOp(bind, worstCase, budget)) && ts != ""
    requires ReserveDecision(ctx, bind, worstCase, budget, ts, datas) == Proposes(d)
    ensures var before, after := FoldCalls(ctx, datas), FoldCalls(ctx, datas + [d]);
            && before.Some? && after.Some?
            && SpendOf(after.value.entries) == SpendOf(before.value.entries) + worstCase <= budget
  {
    var calls := JournalOk(ctx, 0, OwnRunOps(ctx), datas);
    var op := ReserveOp(bind, worstCase, budget);
    ReserveProposal(ctx, op, ts, datas, d, calls);
    FoldOneMore(ctx, datas, d);
    SpendOfAppend(calls.entries, NewEntry(op));
  }

  /** Conservation: an uncertain settlement and a fallback leave spend exactly as it was; a reported cost
      changes it by exactly the cost minus the worst case. */
  lemma SettlementConservesSpend(ctx: Context, op: Op, ts: string, datas: seq<Data>, d: Data)
    requires Justified(May(ctx, OwnRunOps(ctx)), datas) && !op.ReserveOp? && ts != ""
    requires Decide(ctx, op, ts, datas) == Proposes(d)
    ensures var before, after := FoldCalls(ctx, datas), FoldCalls(ctx, datas + [d]);
            && before.Some? && after.Some?
            && var i := IndexOf(before.value.entries, op.bind.callId);
               i < |before.value.entries|
               && SpendOf(after.value.entries) ==
                  SpendOf(before.value.entries)
                  + (if op.AttestOp? && ParseNano(op.usdNano).Ok?
                     then ParseNano(op.usdNano).value - before.value.entries[i].worstCase else 0)
  {
    var calls := JournalOk(ctx, 0, OwnRunOps(ctx), datas);
    SettleProposal(ctx, op, ts, datas, d, calls);
    FoldOneMore(ctx, datas, d);
    var i := IndexOf(calls.entries, d.callId);
    assert EntryOk(ctx, calls.entries[i]);
    SpendOfUpdate(calls.entries, i, SettledEntry(calls.entries[i], op));
  }

  /** Main result: in every journal the calls can build, a settlement that authorizes a second provider lowers no
      bill, and one that supplies a cost authorizes no second provider. */
  lemma RouteAndMoneyAreExclusive(ctx: Context, datas: seq<Data>)
    requires Justified(May(ctx, OwnRunOps(ctx)), datas)
    ensures FoldCalls(ctx, datas).Some?
    ensures forall e :: e in FoldCalls(ctx, datas).value.entries ==>
              (e.fallbackAuthorized ==> e.settled && Cost(e) == e.worstCase) && (Cost(e) < e.worstCase ==> !e.fallbackAuthorized)
  {
    var calls := JournalOk(ctx, 0, OwnRunOps(ctx), datas);
    forall e | e in calls.entries ensures EntryOk(ctx, e) {
      var i :| 0 <= i < |calls.entries| && calls.entries[i] == e;
    }
  }

  // ---- identities ----

  /** An attestation is accepted in one generation of one run only, and there on records of one call, one reservation,
      one attempt, one route epoch, one adapter and one amount only. */
  lemma AttestationIsNotTransferable(ctx: Context, other: Context, s: Data, t: Data)
    requires s.Settle? && t.Settle? && SchemaOk(ctx, s) && SchemaOk(other, t)
    requires s.attest.Some? && t.attest.Some? && s.attest.value.tag == t.attest.value.tag
    ensures ctx.epoch == other.epoch && ctx.runNonce == other.runNonce && ctx.key == other.key
    ensures s.epoch == t.epoch && s.bind.runNonce == t.bind.runNonce
    ensures s.bind.adapter.Some? && t.bind.adapter.Some? ==> s.bind.adapter == t.bind.adapter
    ensures && s.callId == t.callId && s.bind.callNonce == t.bind.callNonce
            && s.bind.reservationId == t.bind.reservationId && s.bind.routeEpoch == t.bind.routeEpoch
            && s.bind.provider == t.bind.provider && s.bind.model == t.bind.model
            && s.bind.attempt == t.bind.attempt && s.usdNano == t.usdNano && s.reported == t.reported
  {
    TagFixesEveryField(ctx.key, other.key, s.attest.value, t.attest.value);
  }

  /** The life of a call in an accepted journal: reserved at most once, settled at most once and only after its
      reservation and with its binding; and no call nonce is reserved twice. */
  ghost predicate OneLife(datas: seq<Data>) {
    && (forall i, j :: 0 <= i < j < |datas| && datas[i].Reserve? && datas[j].Reserve? ==>
          datas[i].callId != datas[j].callId && datas[i].bind.callNonce != datas[j].bind.callNonce)
    && (forall i, j :: 0 <= i < j < |datas| && datas[i].Settle? && datas[j].Settle? ==> datas[i].callId != datas[j].callId)
    && (forall j :: 0 <= j < |datas| && datas[j].Settle? ==> ReservedBefore(datas, j))
  }

  predicate ReservedBefore(datas: seq<Data>, j: nat)
    requires j < |datas|
  {
    exists i :: 0 <= i < j && datas[i].Reserve? && datas[i].callId == datas[j].callId && datas[i].bind == datas[j].bind
  }

  /** The table records exactly which ids were reserved with which binding, and which were settled. */
  ghost predicate Tracks(datas: seq<Data>, calls: Calls) {
    && (forall k :: 0 <= k < |datas| ==> Has(calls.entries, datas[k].callId))
    && (forall k :: 0 <= k < |datas| && datas[k].Settle? ==> calls.entries[IndexOf(calls.entries, datas[k].callId)].settled)
    && (forall n :: n in calls.nonces <==> NonceReserved(datas, n))
    && (forall i :: 0 <= i < |calls.entries| ==> EntryReserved(datas, calls.entries[i]))
  }

  predicate EntryReserved(datas: seq<Data>, e: Reservation) {
    exists k :: 0 <= k < |datas| && datas[k].Reserve? && datas[k].callId == e.callId && datas[k].bind == e.bind
  }

  lemma IndexOfAppend(entries: seq<Reservation>, e: Reservation, id: string)
    ensures IndexOf(entries + [e], id) == if Has(entries, id) then IndexOf(entries, id)
                                          else if e.callId == id then |entries| else |entries| + 1
  {
    if entries == [] {
      assert [] + [e] == [e];
    } else {
      assert (entries + [e])[1..] == entries[1..] + [e];
      IndexOfAppend(entries[1..], e, id);
    }
  }

  lemma IndexOfUpdate(entries: seq<Reservation>, i: nat, e: Reservation, id: string)
    requires i < |entries| && e.callId == entries[i].callId
    ensures IndexOf(entries[i := e], id) == IndexOf(entries, id)
  {
    if i > 0 {
      assert entries[i := e][1..] == entries[1..][i - 1 := e];
      IndexOfUpdate(entries[1..], i - 1, e, id);
    } else {
      assert entries[0 := e][1..] == entries[1..];
    }
  }

  lemma EntryReservedMore(datas: seq<Data>, d: Data, e: Reservation)
    requires EntryReserved(datas, e)
    ensures EntryReserved(datas + [d], e)
  {
    var k :| 0 <= k < |datas| && datas[k].Reserve? && datas[k].callId == e.callId && datas[k].bind == e.bind;
    assert (datas + [d])[k] == datas[k];
  }

  lemma TracksReserve(ctx: Context, datas: seq<Data>, d: Data, calls: Calls, after: Calls)
    requires Tracks(datas, calls) && d.Reserve? && ApplyRecord(ctx, calls, d) == Some(after)
    ensures Tracks(datas + [d], after)
  {
    var more := datas + [d];
    var e := after.entries[|calls.entries|];
    forall id { IndexOfAppend(calls.entries, e, id); }
    forall n { NonceReservedMore(datas, d, n); }
    forall i | 0 <= i < |after.entries| ensures EntryReserved(more, after.entries[i]) {
      if i < |calls.entries| { EntryReservedMore(datas, d, calls.entries[i]); } else { assert more[|datas|] == d; }
    }
  }

  lemma SettleEntryKeeps(ctx: Context, e: Reservation, s: Data)
    requires s.Settle? && SettleEntry(ctx, e, s).Some?
    ensures var t := SettleEntry(ctx, e, s).value;
            t.callId == e.callId && t.bind == e.bind && t.settled && !e.settled && e.bind == s.bind
  {
  }

  lemma TracksSettle(ctx: Context, datas: seq<Data>, d: Data, calls: Calls, after: Calls)
    requires Tracks(datas, calls) && d.Settle? && ApplyRecord(ctx, calls, d) == Some(after)
    ensures Tracks(datas + [d], after)
    ensures !calls.entries[IndexOf(calls.entries, d.callId)].settled
    ensures EntryReserved(datas, calls.entries[IndexOf(calls.entries, d.callId)])
    ensures calls.entries[IndexOf(calls.entries, d.callId)].bind == d.bind
  {
    hide SettleEntry;
    var more := datas + [d];
    var i := IndexOf(calls.entries, d.callId);
    var e := after.entries[i];
    assert e.callId == calls.entries[i].callId && e.bind == calls.entries[i].bind && e.settled by {
      SettleEntryKeeps(ctx, calls.entries[i], d);
    }
    SettleEntryKeeps(ctx, calls.entries[i], d);
    forall id { IndexOfUpdate(calls.entries, i, e, id); }
    forall n { NonceReservedMore(datas, d, n); }
    forall k | 0 <= k < |after.entries| ensures EntryReserved(more, after.entries[k]) {
      EntryReservedMore(datas, d, calls.entries[k]);
    }
  }

  lemma OneLifeReserve(front: seq<Data>, d: Data, calls: Calls)
    requires OneLife(front) && Tracks(front, calls) && d.Reserve?
    requires !Has(calls.entries, d.callId) && d.bind.callNonce !in calls.nonces
    ensures OneLife(front + [d])
  {
    hide Has, NonceReserved;
    var datas := front + [d];
    forall i | 0 <= i < |front| && front[i].Reserve? ensures NonceReserved(front, front[i].bind.callNonce) {
      NonceReservedPrefix(front, i);
    }
    OldLives(front, d);
  }

  lemma NonceReservedPrefix(datas: seq<Data>, i: nat)
    requires i < |datas| && datas[i].Reserve?
    ensures NonceReserved(datas, datas[i].bind.callNonce)
  {
  }

  lemma OldLives(front: seq<Data>, d: Data)
    requires OneLife(front)
    ensures forall j :: 0 <= j < |front| && front[j].Settle? ==> ReservedBefore(front + [d], j)
  {
    var datas := front + [d];
    forall j | 0 <= j < |front| && front[j].Settle? ensures ReservedBefore(datas, j) {
      assert ReservedBefore(front, j);
      var i :| 0 <= i < j && front[i].Reserve? && front[i].callId == front[j].callId && front[i].bind == front[j].bind;
      assert datas[i] == front[i];
    }
  }

  lemma OneLifeSettle(front: seq<Data>, d: Data, calls: Calls)
    requires OneLife(front) && Tracks(front, calls) && d.Settle? && Has(calls.entries, d.callId)
    requires var e := calls.entries[IndexOf(calls.entries, d.callId)];
             !e.settled && e.bind == d.bind && EntryReserved(front, e)
    ensures OneLife(front + [d])
  {
    var datas := front + [d];
    OldLives(front, d);
    var e := calls.entries[IndexOf(calls.entries, d.callId)];
    var k :| 0 <= k < |front| && front[k].Reserve? && front[k].callId == e.callId && front[k].bind == e.bind;
    assert datas[k] == front[k] && ReservedBefore(datas, |front|);
  }

  /** Main result: in every journal the fold accepts, each call id goes absent, reserved, settled. */
  lemma {:induction false} CallsHaveOneLife(ctx: Context, datas: seq<Data>)
    requires FoldCalls(ctx, datas).Some?
    ensures OneLife(datas) && Tracks(datas, FoldCalls(ctx, datas).value)
    decreases |datas|
  {
    if datas != [] {
      hide SettleEntry, OneLife, Tracks, EntryReserved;
      var n := |datas| - 1;
      var front, d := datas[..n], datas[n];
      assert datas == front + [d];
      FoldOneMore(ctx, front, d);
      CallsHaveOneLife(ctx, front);
      var calls, after := FoldCalls(ctx, front).value, FoldCalls(ctx, datas).value;
      if d.Reserve? {
        TracksReserve(ctx, front, d, calls, after);
        OneLifeReserve(front, d, calls);
      } else {
        TracksSettle(ctx, front, d, calls, after);
        OneLifeSettle(front, d, calls);
      }
    }
  }

  // ---- the mints carry the exclusion, the shape check does not ----

  /** A payload the shape check passes and the MAC covers, that both authorizes a fallback and reports a cost. No
      mint produces it; were it in a journal, the fold would grant both. */
  function BothPayload(ctx: Context, bind: CallBinding): Payload {
    var sha := bind.intentSha256;
    Payload(SCHEMA, TrustedFallback, ctx.epoch, ctx.runNonce, bind.callId, bind.callNonce, bind.reservationId,
            bind.routeEpoch, bind.provider, bind.model, if bind.adapter.Some? then bind.adapter.value else "k", bind.attempt,
            "cgroup2", "id", "proof", "1", "1", sha, 1, sha, 1, 0, Some(sha), Some(1), Some(0),
            "0", ProviderReported, "t")
  }

  function BothSettle(ctx: Context, bind: CallBinding): Data
    requires ctx.key.Material?
  {
    Settle(bind.callId, "0", true, "t", ctx.epoch, bind,
           Some(Attestation(BothPayload(ctx, bind), TagPayload(ctx.key, BothPayload(ctx, bind)))))
  }

  lemma BothSettleIsTrusted(ctx: Context, bind: CallBinding)
    requires ctx.key.Material? && IsNonce(ctx.epoch) && ValidBinding(bind) && bind.runNonce == ctx.runNonce
    requires bind.adapter.Some? ==> bind.adapter.value != ""
    ensures var s := BothSettle(ctx, bind);
            SchemaOk(ctx, s) && CostIsTrusted(ctx, s) && AuthorizesFallback(ctx, s) && ParseNano(s.usdNano) == Ok(0)
  {
    hide Canonical;
    ParseAfterFormat(0);
    FormatZero();
  }

  lemma ShapeAloneAllowsBoth(ctx: Context, bind: CallBinding, worstCase: nat)
    requires ctx.key.Material? && IsNonce(ctx.epoch) && ValidBinding(bind) && bind.runNonce == ctx.runNonce
    requires bind.adapter.Some? ==> bind.adapter.value != ""
    requires 0 < worstCase <= MAX_NANO
    ensures var r, s := Reserve(bind.callId, FormatNano(worstCase), true, "t", ctx.epoch, bind), BothSettle(ctx, bind);
            && SchemaOk(ctx, r) && SchemaOk(ctx, s)
            && FoldCalls(ctx, [r, s]).Some? && |FoldCalls(ctx, [r, s]).value.entries| == 1
            && FoldCalls(ctx, [r, s]).value.entries[0].fallbackAuthorized
            && Cost(FoldCalls(ctx, [r, s]).value.entries[0]) == 0 < worstCase
  {
    hide Canonical, BothSettle, CostIsTrusted, AuthorizesFallback, SchemaOk, FormatNano, ParseNano, FoldCalls, ApplyRecord;
    var r, s := Reserve(bind.callId, FormatNano(worstCase), true, "t", ctx.epoch, bind), BothSettle(ctx, bind);
    BothSettleIsTrusted(ctx, bind);
    BothParts(ctx, bind, worstCase);
    ParseAfterFormat(worstCase);
    FoldNothing(ctx);
    FoldOneMore(ctx, [], r);
    FoldOneMore(ctx, [r], s);
    assert [] + [r] == [r] && [r] + [s] == [r, s];
    var e := Reservation(bind.callId, worstCase, true, false, None, false, false, bind);
    OneReserved(ctx, r, e);
    OneSettled(ctx, s, e);
  }

  lemma OneReserved(ctx: Context, r: Data, e: Reservation)
    requires r.Reserve? && ParseNano(r.worstCaseNano) == Ok(e.worstCase)
    requires e == Reservation(r.callId, e.worstCase, r.enforced, false, None, false, false, r.bind)
    ensures ApplyRecord(ctx, Calls([], {}), r) == Some(Calls([e], {r.bind.callNonce}))
  {
    hide ParseNano;
    assert [] + [e] == [e] && {} + {r.bind.callNonce} == {r.bind.callNonce};
  }

  lemma OneSettled(ctx: Context, s: Data, e: Reservation)
    requires s.Settle? && s.callId == e.callId && s.bind == e.bind && !e.settled && e.worstCase > 0
    requires CostIsTrusted(ctx, s) && AuthorizesFallback(ctx, s) && ParseNano(s.usdNano) == Ok(0)
    ensures var r := ApplyRecord(ctx, Calls([e], {e.bind.callNonce}), s);
            r.Some? && |r.value.entries| == 1 && r.value.entries[0].fallbackAuthorized && Cost(r.value.entries[0]) == 0
  {
    hide ParseNano, CostIsTrusted, AuthorizesFallback;
  }

  lemma BothParts(ctx: Context, bind: CallBinding, worstCase: nat)
    requires ctx.key.Material? && ValidBinding(bind) && bind.runNonce == ctx.runNonce && worstCase <= MAX_NANO
    ensures SchemaOk(ctx, Reserve(bind.callId, FormatNano(worstCase), true, "t", ctx.epoch, bind))
    ensures BothSettle(ctx, bind).Settle? && BothSettle(ctx, bind).callId == bind.callId && BothSettle(ctx, bind).bind == bind
  {
    ParseAfterFormat(worstCase);
  }
}
