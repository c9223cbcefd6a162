/** What a journal says of each call, read off its records alone: which journals fold, to which table, and which record
    each call of the ledger proposes on them. Nothing here is said in terms of the fold. */
module Accounts {
  import opened Wrappers
  import opened Money
  import opened Attest
  import opened LedgerSteps
  import opened Ledger
  import opened Budget

  // ---- the records of one call ----

  predicate ReserveOf(d: Data, callId: string) { d.Reserve? && d.callId == callId }
  predicate SettleOf(d: Data, callId: string) { d.Settle? && d.callId == callId }
  predicate TrustedOf(ctx: Context, d: Data, callId: string) { SettleOf(d, callId) && CostIsTrusted(ctx, d) }
  predicate AuthorityOf(ctx: Context, d: Data, callId: string) { SettleOf(d, callId) && AuthorizesFallback(ctx, d) }

  predicate IsReserved(datas: seq<Data>, callId: string) { exists d :: d in datas && ReserveOf(d, callId) }
  predicate IsSettled(datas: seq<Data>, callId: string) { exists d :: d in datas && SettleOf(d, callId) }
  predicate HasCost(ctx: Context, datas: seq<Data>, callId: string) { exists d :: d in datas && TrustedOf(ctx, d, callId) }
  predicate HasAuthority(ctx: Context, datas: seq<Data>, callId: string) {
    exists d :: d in datas && AuthorityOf(ctx, d, callId)
  }

  /** The proven cost the records give the call, if they give one. */
  function TrustedCost(ctx: Context, datas: seq<Data>, callId: string): Option<nat> {
    if datas == [] then None
    else
      var d := datas[|datas| - 1];
      if TrustedOf(ctx, d, callId) && ParseNano(d.usdNano).Ok? then Some(ParseNano(d.usdNano).value)
      else TrustedCost(ctx, datas[..|datas| - 1], callId)
  }

  /** A journal without a conflict: each call goes absent, reserved, settled; no nonce is reserved twice; and every amount
      that counts parses. */
  ghost predicate WellKept(ctx: Context, datas: seq<Data>) {
    && OneLife(datas)
    && (forall d :: d in datas && d.Reserve? ==> ParseNano(d.worstCaseNano).Ok?)
    && (forall d :: d in datas && d.Settle? && CostIsTrusted(ctx, d) ==> ParseNano(d.usdNano).Ok?)
  }

  /** The reservations, in the order they were made. */
  function Reservations(datas: seq<Data>): seq<Data> {
    if datas == [] then []
    else Reservations(datas[..|datas| - 1]) + if datas[|datas| - 1].Reserve? then [datas[|datas| - 1]] else []
  }

  /** The table's entry for a reservation says what the records say of its call. */
  ghost predicate Tells(ctx: Context, datas: seq<Data>, r: Data, e: Reservation) {
    && r.Reserve? && e.callId == r.callId && e.bind == r.bind && e.enforced == r.enforced
    && ParseNano(r.worstCaseNano) == Money.Result.Ok(e.worstCase)
    && (e.settled <==> IsSettled(datas, r.callId))
    && e.trustedUsd == TrustedCost(ctx, datas, r.callId)
    && (e.trustedUsd.Some? <==> HasCost(ctx, datas, r.callId))
    && (e.fallbackAuthorized <==> HasAuthority(ctx, datas, r.callId))
    && (e.over <==> e.enforced && e.trustedUsd.Some? && e.trustedUsd.value > e.worstCase)
  }

  ghost predicate TableOf(ctx: Context, datas: seq<Data>, entries: seq<Reservation>) {
    && |entries| == |Reservations(datas)|
    && (forall k :: 0 <= k < |entries| ==> Tells(ctx, datas, Reservations(datas)[k], entries[k]))
    && (forall j, k :: 0 <= j < k < |entries| ==> entries[j].callId != entries[k].callId)
  }

  // ---- one record more ----

  lemma MoreRecords(ctx: Context, datas: seq<Data>, d: Data, callId: string)
    ensures IsReserved(datas + [d], callId) <==> IsReserved(datas, callId) || ReserveOf(d, callId)
    ensures IsSettled(datas + [d], callId) <==> IsSettled(datas, callId) || SettleOf(d, callId)
    ensures HasCost(ctx, datas + [d], callId) <==> HasCost(ctx, datas, callId) || TrustedOf(ctx, d, callId)
    ensures HasAuthority(ctx, datas + [d], callId) <==> HasAuthority(ctx, datas, callId) || AuthorityOf(ctx, d, callId)
    ensures TrustedCost(ctx, datas + [d], callId) ==
            if TrustedOf(ctx, d, callId) && ParseNano(d.usdNano).Ok? then Some(ParseNano(d.usdNano).value)
            else TrustedCost(ctx, datas, callId)
    ensures Reservations(datas + [d]) == Reservations(datas) + if d.Reserve? then [d] else []
  {
    hide CostIsTrusted, AuthorizesFallback, ParseNano;
    var more := datas + [d];
    assert more[..|more| - 1] == datas && d in more && forall x :: x in more <==> x in datas || x == d;
    if IsReserved(datas, callId) { var x :| x in datas && ReserveOf(x, callId); assert x in more; }
    if IsSettled(datas, callId) { var x :| x in datas && SettleOf(x, callId); assert x in more; }
    if HasCost(ctx, datas, callId) { var x :| x in datas && TrustedOf(ctx, x, callId); assert x in more; }
    if HasAuthority(ctx, datas, callId) { var x :| x in datas && AuthorityOf(ctx, x, callId); assert x in more; }
  }

  lemma SettledHasAll(ctx: Context, datas: seq<Data>, callId: string)
    requires !IsSettled(datas, callId)
    ensures !HasCost(ctx, datas, callId) && !HasAuthority(ctx, datas, callId) && TrustedCost(ctx, datas, callId).None?
  {
    hide CostIsTrusted, AuthorizesFallback, ParseNano;
    if datas != [] {
      var front, d := datas[..|datas| - 1], datas[|datas| - 1];
      assert front + [d] == datas;
      MoreRecords(ctx, front, d, callId);
      SettledHasAll(ctx, front, callId);
    }
  }

  lemma TellsMore(ctx: Context, datas: seq<Data>, d: Data, r: Data, e: Reservation)
    requires Tells(ctx, datas, r, e) && !SettleOf(d, r.callId)
    ensures Tells(ctx, datas + [d], r, e)
  {
    hide IsSettled, HasCost, HasAuthority, TrustedCost, ParseNano;
    MoreRecords(ctx, datas, d, r.callId);
  }

  /** Entries and reservations are in step, so looking a call up in the table is looking for its reservation. */
  lemma {:induction false} ReservationsAre(datas: seq<Data>)
    ensures forall r :: r in Reservations(datas) <==> r in datas && r.Reserve?
  {
    if datas != [] {
      var front, d := datas[..|datas| - 1], datas[|datas| - 1];
      assert front + [d] == datas;
      ReservationsAre(front);
    }
  }

  lemma ReservedIsListed(datas: seq<Data>, callId: string, rs: seq<Data>)
    requires rs == Reservations(datas)
    ensures IsReserved(datas, callId) <==> exists k :: 0 <= k < |rs| && rs[k].callId == callId
  {
    ReservationsAre(datas);
    if IsReserved(datas, callId) {
      var d :| d in datas && ReserveOf(d, callId);
      var k :| 0 <= k < |rs| && rs[k] == d;
    }
    if k :| 0 <= k < |rs| && rs[k].callId == callId {
      assert rs[k] in rs;
      assert rs[k] in datas && ReserveOf(rs[k], callId);
    }
  }

  lemma LookUp(ctx: Context, datas: seq<Data>, entries: seq<Reservation>, callId: string)
    requires TableOf(ctx, datas, entries)
    ensures Has(entries, callId) <==> IsReserved(datas, callId)
    ensures Has(entries, callId) ==>
              var i := IndexOf(entries, callId);
              && i < |Reservations(datas)| && Reservations(datas)[i] in datas && Reservations(datas)[i].callId == callId
              && Tells(ctx, datas, Reservations(datas)[i], entries[i])
  {
    hide FirstAt, Tells;
    ReservedIsListed(datas, callId, Reservations(datas));
    ReservationsAre(datas);
    forall k | 0 <= k < |entries| ensures entries[k].callId == Reservations(datas)[k].callId {
      TellsId(ctx, datas, Reservations(datas)[k], entries[k]);
    }
  }

  lemma TellsId(ctx: Context, datas: seq<Data>, r: Data, e: Reservation)
    requires Tells(ctx, datas, r, e)
    ensures e.callId == r.callId && r.Reserve? && e.bind == r.bind
  {
  }

  // ---- the fold, exactly ----

  lemma TableAfterReserve(ctx: Context, datas: seq<Data>, d: Data, calls: Calls, after: Calls)
    requires TableOf(ctx, datas, calls.entries) && d.Reserve? && ApplyRecord(ctx, calls, d) == Some(after)
    requires !IsSettled(datas, d.callId)
    ensures TableOf(ctx, datas + [d], after.entries)
  {
    hide IsSettled, HasCost, HasAuthority, TrustedCost, ParseNano, FirstAt, Reservations;
    MoreRecords(ctx, datas, d, d.callId);
    SettledHasAll(ctx, datas, d.callId);
    var n, rs, more := |calls.entries|, Reservations(datas), Reservations(datas + [d]);
    assert after.entries[..n] == calls.entries;
    forall k | 0 <= k < |after.entries| ensures Tells(ctx, datas + [d], more[k], after.entries[k]) {
      if k < n {
        assert more[k] == rs[k] && after.entries[k] == calls.entries[k];
        TellsMore(ctx, datas, d, rs[k], calls.entries[k]);
      }
    }
  }

  lemma TableAfterSettle(ctx: Context, datas: seq<Data>, d: Data, calls: Calls, after: Calls)
    requires TableOf(ctx, datas, calls.entries) && d.Settle? && ApplyRecord(ctx, calls, d) == Some(after)
    ensures TableOf(ctx, datas + [d], after.entries)
  {
    hide IsSettled, HasCost, HasAuthority, TrustedCost, IndexOf, Reservations, Tells, ApplyRecord, SettleEntry, TableOf, FirstAt;
    SettleApplied(ctx, calls, d, after);
    MoreRecords(ctx, datas, d, d.callId);
    var i, rs := IndexOf(calls.entries, d.callId), Reservations(datas);
    TableRow(ctx, datas, calls.entries, i);
    SettledTells(ctx, datas, d, rs[i], calls.entries[i]);
    SettleEntryKeeps(ctx, calls.entries[i], d);
    forall k | 0 <= k < |calls.entries| && k != i ensures k < |rs| && Tells(ctx, datas + [d], rs[k], calls.entries[k]) {
      TableRow(ctx, datas, calls.entries, k);
      TellsMore(ctx, datas, d, rs[k], calls.entries[k]);
    }
    RowReplaced(ctx, datas, datas + [d], calls.entries, i, SettleEntry(ctx, calls.entries[i], d).value);
  }

  /** A row tells of its reservation, and no other row is of the same call. */
  lemma TableRow(ctx: Context, datas: seq<Data>, entries: seq<Reservation>, k: nat)
    requires TableOf(ctx, datas, entries) && k < |entries|
    ensures k < |Reservations(datas)| && Tells(ctx, datas, Reservations(datas)[k], entries[k])
    ensures Reservations(datas)[k].callId == entries[k].callId
    ensures forall j :: 0 <= j < |entries| && j != k ==> entries[j].callId != entries[k].callId
  {
    hide Reservations, IsSettled, HasCost, HasAuthority, TrustedCost, ParseNano;
  }

  lemma RowReplaced(ctx: Context, datas: seq<Data>, more: seq<Data>, entries: seq<Reservation>, i: nat, e: Reservation)
    requires TableOf(ctx, datas, entries) && i < |entries| && Reservations(more) == Reservations(datas)
    requires e.callId == entries[i].callId && Tells(ctx, more, Reservations(datas)[i], e)
    requires forall k :: 0 <= k < |entries| && k != i ==> Tells(ctx, more, Reservations(datas)[k], entries[k])
    ensures TableOf(ctx, more, entries[i := e])
  {
    hide Reservations, Tells;
  }

  lemma SettleApplied(ctx: Context, calls: Calls, d: Data, after: Calls)
    requires d.Settle? && ApplyRecord(ctx, calls, d) == Some(after)
    ensures var i := IndexOf(calls.entries, d.callId);
            && i < |calls.entries| && SettleEntry(ctx, calls.entries[i], d).Some?
            && after.entries == calls.entries[i := SettleEntry(ctx, calls.entries[i], d).value]
  {
  }

  lemma SettledTells(ctx: Context, datas: seq<Data>, d: Data, r: Data, e: Reservation)
    requires Tells(ctx, datas, r, e) && d.Settle? && d.callId == r.callId && SettleEntry(ctx, e, d).Some?
    ensures Tells(ctx, datas + [d], r, SettleEntry(ctx, e, d).value)
  {
    hide IsSettled, HasCost, HasAuthority, TrustedCost, CostIsTrusted, AuthorizesFallback, ParseNano;
    MoreRecords(ctx, datas, d, d.callId);
    SettledHasAll(ctx, datas, d.callId);
  }

  /** Main result. The fold accepts exactly the journals without a conflict, and its table is what their records say. */
  lemma {:induction false} FoldsExactly(ctx: Context, datas: seq<Data>)
    ensures FoldCalls(ctx, datas).Some? <==> WellKept(ctx, datas)
    ensures FoldCalls(ctx, datas).Some? ==>
              && TableOf(ctx, datas, FoldCalls(ctx, datas).value.entries)
              && forall n :: n in FoldCalls(ctx, datas).value.nonces <==> NonceReserved(datas, n)
    decreases |datas|
  {
    hide OneLife, Tracks, ApplyRecord, TableOf, NonceReserved, CostIsTrusted, ParseNano;
    if datas == [] {
      FoldNothing(ctx);
      NothingKept(ctx);
    } else {
      var n := |datas| - 1;
      var front, d := datas[..n], datas[n];
      assert datas == front + [d];
      FoldOneMore(ctx, front, d);
      FoldsExactly(ctx, front);
      if WellKept(ctx, datas) {
        KeptPrefix(ctx, front, d);
        KeptApplies(ctx, front, d, FoldCalls(ctx, front).value);
      }
      if FoldCalls(ctx, datas).Some? {
        var calls, after := FoldCalls(ctx, front).value, FoldCalls(ctx, datas).value;
        CallsHaveOneLife(ctx, datas);
        AppliedIsKept(ctx, front, d, calls, after);
      }
    }
  }

  lemma NothingKept(ctx: Context)
    ensures WellKept(ctx, []) && TableOf(ctx, [], []) && forall n :: !NonceReserved([], n)
  {
  }

  lemma AppliedIsKept(ctx: Context, front: seq<Data>, d: Data, calls: Calls, after: Calls)
    requires WellKept(ctx, front) && TableOf(ctx, front, calls.entries) && ApplyRecord(ctx, calls, d) == Some(after)
    requires OneLife(front + [d]) && Tracks(front + [d], after)
    ensures WellKept(ctx, front + [d]) && TableOf(ctx, front + [d], after.entries)
    ensures forall n :: n in after.nonces <==> NonceReserved(front + [d], n)
  {
    hide OneLife, TableOf, FirstAt, CostIsTrusted, AuthorizesFallback, ParseNano, NonceReserved, EntryReserved;
    var more := front + [d];
    assert forall x :: x in more ==> x in front || x == d;
    LookUp(ctx, front, calls.entries, d.callId);
    if d.Reserve? {
      Unsettled(ctx, front, d.callId);
      TableAfterReserve(ctx, front, d, calls, after);
    } else {
      TableAfterSettle(ctx, front, d, calls, after);
    }
  }

  /** What was never reserved was never settled. */
  lemma Unsettled(ctx: Context, datas: seq<Data>, callId: string)
    requires WellKept(ctx, datas) && !IsReserved(datas, callId)
    ensures !IsSettled(datas, callId)
  {
    if d :| d in datas && SettleOf(d, callId) {
      var j :| 0 <= j < |datas| && datas[j] == d;
      assert ReservedBefore(datas, j);
      var i :| 0 <= i < j && datas[i].Reserve? && datas[i].callId == datas[j].callId && datas[i].bind == datas[j].bind;
      assert datas[i] in datas;
    }
  }

  lemma KeptPrefix(ctx: Context, front: seq<Data>, d: Data)
    requires WellKept(ctx, front + [d])
    ensures WellKept(ctx, front)
  {
    hide CostIsTrusted, ParseNano;
    var more := front + [d];
    assert forall j :: 0 <= j < |front| ==> more[j] == front[j];
    forall x | x in front ensures x in more {}
    forall j | 0 <= j < |front| && front[j].Settle? ensures ReservedBefore(front, j) {
      assert ReservedBefore(more, j);
      var i :| 0 <= i < j && more[i].Reserve? && more[i].callId == more[j].callId && more[i].bind == more[j].bind;
      assert front[i] == more[i];
    }
  }

  lemma KeptApplies(ctx: Context, front: seq<Data>, d: Data, calls: Calls)
    requires WellKept(ctx, front + [d]) && WellKept(ctx, front) && TableOf(ctx, front, calls.entries)
    requires forall n :: n in calls.nonces <==> NonceReserved(front, n)
    ensures ApplyRecord(ctx, calls, d).Some?
  {
    hide FirstAt, CostIsTrusted, AuthorizesFallback, ParseNano, TableOf;
    var more, n := front + [d], |front|;
    assert more[n] == d && forall j :: 0 <= j < n ==> more[j] == front[j];
    LookUp(ctx, front, calls.entries, d.callId);
    if d.Reserve? {
      forall x | x in front && x.Reserve? ensures x.callId != d.callId {
        var j :| 0 <= j < n && front[j] == x;
        assert more[j].Reserve?;
      }
      assert d in more;
    } else {
      assert d in more;
      SettleIsForItsReservation(front, d);
      var i := IndexOf(calls.entries, d.callId);
      EntryTakes(ctx, front, d, Reservations(front)[i], calls.entries[i]);
    }
  }

  lemma EntryTakes(ctx: Context, front: seq<Data>, d: Data, r: Data, e: Reservation)
    requires Tells(ctx, front, r, e) && d.Settle? && r.callId == d.callId && r.bind == d.bind && !IsSettled(front, d.callId)
    requires CostIsTrusted(ctx, d) ==> ParseNano(d.usdNano).Ok?
    ensures SettleEntry(ctx, e, d).Some?
  {
  }

  lemma SettleIsForItsReservation(front: seq<Data>, d: Data)
    requires OneLife(front + [d]) && d.Settle?
    ensures IsReserved(front, d.callId) && !IsSettled(front, d.callId)
    ensures forall r :: r in front && ReserveOf(r, d.callId) ==> r.bind == d.bind
  {
    var more, n := front + [d], |front|;
    assert more[n] == d && ReservedBefore(more, n);
    var i :| 0 <= i < n && more[i].Reserve? && more[i].callId == d.callId && more[i].bind == d.bind;
    assert front[i] == more[i] && front[i] in front && ReserveOf(front[i], d.callId);
    forall r | r in front && ReserveOf(r, d.callId) ensures r.bind == d.bind {
      var k :| 0 <= k < n && front[k] == r;
      assert more[k] == front[k];
    }
    forall s | s in front && s.Settle? ensures s.callId != d.callId {
      var k :| 0 <= k < n && front[k] == s;
      assert more[k] == front[k] && more[k].Settle?;
    }
  }

  // ---- what is owed, and what a call's status is ----

  /** What a reservation still costs: the proven cost of its call, and its worst case if there is none. */
  function OwedFor(ctx: Context, datas: seq<Data>, r: Data): nat
    requires r.Reserve?
  {
    match TrustedCost(ctx, datas, r.callId)
    case Some(usd) => usd
    case None => if ParseNano(r.worstCaseNano).Ok? then ParseNano(r.worstCaseNano).value else 0
  }

  function OwedUpTo(ctx: Context, datas: seq<Data>, n: nat): nat
    requires n <= |datas|
  {
    if n == 0 then 0
    else OwedUpTo(ctx, datas, n - 1) + if datas[n - 1].Reserve? then OwedFor(ctx, datas, datas[n - 1]) else 0
  }

  /** The spend of a journal, each reservation counted once. */
  function Owed(ctx: Context, datas: seq<Data>): nat { OwedUpTo(ctx, datas, |datas|) }

  lemma {:induction false} OwedIsSum(ctx: Context, datas: seq<Data>, n: nat, entries: seq<Reservation>)
    requires n <= |datas| && |entries| == |Reservations(datas[..n])|
    requires forall k :: 0 <= k < |entries| ==> Tells(ctx, datas, Reservations(datas[..n])[k], entries[k])
    ensures OwedUpTo(ctx, datas, n) == SpendOf(entries)
    decreases n
  {
    hide IsSettled, HasCost, HasAuthority, TrustedCost, ParseNano, Tells;
    if n > 0 {
      var d := datas[n - 1];
      assert datas[..n][..n - 1] == datas[..n - 1];
      var rs := Reservations(datas[..n - 1]);
      assert Reservations(datas[..n]) == rs + if d.Reserve? then [d] else [];
      if d.Reserve? {
        var m := |rs|;
        assert Tells(ctx, datas, Reservations(datas[..n])[m], entries[m]);
        EntryCost(ctx, datas, d, entries[m]);
        forall k | 0 <= k < m ensures Tells(ctx, datas, rs[k], entries[..m][k]) {
          assert Tells(ctx, datas, Reservations(datas[..n])[k], entries[k]);
        }
        OwedIsSum(ctx, datas, n - 1, entries[..m]);
      } else {
        OwedIsSum(ctx, datas, n - 1, entries);
      }
    }
  }

  lemma EntryCost(ctx: Context, datas: seq<Data>, r: Data, e: Reservation)
    requires Tells(ctx, datas, r, e)
    ensures Cost(e) == OwedFor(ctx, datas, r)
  {
    SettledOrNothing(ctx, datas, r.callId);
  }

  lemma SettledOrNothing(ctx: Context, datas: seq<Data>, callId: string)
    ensures HasCost(ctx, datas, callId) ==> IsSettled(datas, callId)
  {
  }

  /** Main result. The spend the ledger answers with is what its records owe. */
  lemma SpendExactly(ctx: Context, datas: seq<Data>)
    requires FoldCalls(ctx, datas).Some?
    ensures SpendOf(FoldCalls(ctx, datas).value.entries) == Owed(ctx, datas)
  {
    hide Tells;
    FoldsExactly(ctx, datas);
    assert datas[..|datas|] == datas;
    OwedIsSum(ctx, datas, |datas|, FoldCalls(ctx, datas).value.entries);
  }

  // ---- overruns ----

  /** The call was reserved under a budget, and a settlement proves that it cost more than was reserved. */
  predicate Overruns(ctx: Context, datas: seq<Data>, r: Data) {
    && r.Reserve? && r.enforced && ParseNano(r.worstCaseNano).Ok?
    && TrustedCost(ctx, datas, r.callId).Some? && TrustedCost(ctx, datas, r.callId).value > ParseNano(r.worstCaseNano).value
  }

  lemma TableSize(ctx: Context, datas: seq<Data>, entries: seq<Reservation>)
    requires TableOf(ctx, datas, entries)
    ensures |entries| == |Reservations(datas)|
  {
  }

  /** The flag of a row says that its call overran. */
  lemma FlagExactly(ctx: Context, datas: seq<Data>, entries: seq<Reservation>, k: nat)
    requires TableOf(ctx, datas, entries) && k < |entries|
    ensures k < |Reservations(datas)| && entries[k].callId == Reservations(datas)[k].callId
    ensures entries[k].over <==> Overruns(ctx, datas, Reservations(datas)[k])
  {
    hide Reservations, IsSettled, HasCost, HasAuthority, TrustedCost, ParseNano;
  }

  // ---- which record a reservation call proposes ----

  /** Neither the call id nor the call nonce was reserved before. */
  predicate Fresh(datas: seq<Data>, bind: CallBinding) {
    forall d :: d in datas && d.Reserve? ==> d.callId != bind.callId && d.bind.callNonce != bind.callNonce
  }

  /** Main result. A reservation raises exactly for a malformed binding, a conflicting journal or a spent identity; it is
      denied exactly when a positive budget has no room for it; and otherwise it is proposed, enforced at its worst
      case under a positive budget and as an unenforced nothing without one. */
  lemma ReserveExactly(ctx: Context, bind: CallBinding, worstCase: nat, budget: nat, ts: string, datas: seq<Data>)
    ensures var answer := ReserveDecision(ctx, bind, worstCase, budget, ts, datas);
            && (answer.Raises? <==> !ValidBinding(bind) || !WellKept(ctx, datas) || !Fresh(datas, bind))
            && (answer.Declines? <==>
                  && ValidBinding(bind) && WellKept(ctx, datas) && Fresh(datas, bind)
                  && budget > 0 && Owed(ctx, datas) + worstCase > budget)
            && (answer.Proposes? ==>
                  answer.data == Reserve(bind.callId, FormatNano(if budget > 0 then worstCase else 0), budget > 0, ts, ctx.epoch, bind))
  {
    hide WellKept, TableOf, FoldCalls, ValidBinding, Has, SpendOf, Owed, FormatNano;
    FoldsExactly(ctx, datas);
    if WellKept(ctx, datas) {
      SpendExactly(ctx, datas);
      LookUp(ctx, datas, FoldCalls(ctx, datas).value.entries, bind.callId);
      FreshExactly(datas, bind);
    }
  }

  lemma FreshExactly(datas: seq<Data>, bind: CallBinding)
    ensures Fresh(datas, bind) <==> !IsReserved(datas, bind.callId) && !NonceReserved(datas, bind.callNonce)
  {
    if NonceReserved(datas, bind.callNonce) {
      var i :| 0 <= i < |datas| && datas[i].Reserve? && datas[i].bind.callNonce == bind.callNonce;
      assert datas[i] in datas;
    }
    if !Fresh(datas, bind) {
      var d :| d in datas && d.Reserve? && (d.callId == bind.callId || d.bind.callNonce == bind.callNonce);
      var i :| 0 <= i < |datas| && datas[i] == d;
      assert d.callId == bind.callId ==> ReserveOf(d, bind.callId);
    }
  }

  // ---- which record a settlement proposes ----

  /** The journal has this very reservation, and no settlement of the call. */
  predicate IsOpen(datas: seq<Data>, bind: CallBinding) {
    (exists d :: d in datas && ReserveOf(d, bind.callId) && d.bind == bind) && !IsSettled(datas, bind.callId)
  }

  lemma SettleExactly(
      ctx: Context, bind: CallBinding, attest: Option<Attestation>, usd: nat, reported: bool, ts: string, datas: seq<Data>)
    ensures var answer := SettleDecision(ctx, bind, attest, usd, reported, ts, datas);
            && !answer.Declines?
            && (answer.Proposes? <==> WellKept(ctx, datas) && IsOpen(datas, bind))
            && (answer.Proposes? ==> answer.data == Settle(bind.callId, FormatNano(usd), reported, ts, ctx.epoch, bind, attest))
  {
    hide WellKept, TableOf, FoldCalls, FirstAt, FormatNano, Reservations;
    FoldsExactly(ctx, datas);
    if WellKept(ctx, datas) {
      var entries := FoldCalls(ctx, datas).value.entries;
      LookUp(ctx, datas, entries, bind.callId);
      if Has(entries, bind.callId) {
        var i := IndexOf(entries, bind.callId);
        TellsId(ctx, datas, Reservations(datas)[i], entries[i]);
        OneReservationEach(ctx, datas, Reservations(datas)[i], bind);
      }
    }
  }

  lemma OneReservationEach(ctx: Context, datas: seq<Data>, r: Data, bind: CallBinding)
    requires WellKept(ctx, datas) && r in datas && ReserveOf(r, bind.callId)
    ensures (exists d :: d in datas && ReserveOf(d, bind.callId) && d.bind == bind) <==> r.bind == bind
  {
    if d :| d in datas && ReserveOf(d, bind.callId) && d.bind == bind {
      var i :| 0 <= i < |datas| && datas[i] == d;
      var j :| 0 <= j < |datas| && datas[j] == r;
      assert i == j;
    }
  }

  /** An uncertain settlement is proposed for every open call of a well-formed binding, and carries nothing. */
  lemma UncertainExactly(ctx: Context, bind: CallBinding, ts: string, datas: seq<Data>)
    ensures var answer := UncertainDecision(ctx, bind, ts, datas);
            && !answer.Declines?
            && (answer.Proposes? <==> ValidBinding(bind) && WellKept(ctx, datas) && IsOpen(datas, bind))
            && (answer.Proposes? ==> answer.data == Settle(bind.callId, "0", false, ts, ctx.epoch, bind, None))
  {
    hide WellKept, IsOpen, SettleDecision;
    SettleExactly(ctx, bind, None, 0, false, ts, datas);
    FormatZero();
  }

  // ---- the two mints ----

  /** The kernel's measurements: digests and sizes in range, and each frame inside the transcript. */
  predicate GoodFrame(sha256: string, bytes: nat, offset: nat, within: nat) {
    |sha256| == 64 && IsHex(sha256) && bytes > 0 && offset + bytes <= within
  }

  predicate GoodDraft(draft: Draft) {
    && draft.providerKind != "" && IsDecimal(draft.transcriptDev) && IsDecimal(draft.transcriptIno)
    && |draft.transcriptSha256| == 64 && IsHex(draft.transcriptSha256) && draft.transcriptBytes > 0
    && GoodFrame(draft.terminalSha256, draft.terminalBytes, draft.terminalOffset, draft.transcriptBytes)
  }

  /** The scope is empty, and the strongest kind this host has. */
  predicate ProvenScope(ctx: Context, scope: Scope) {
    !scope.alive && (scope.backend == "cgroup2" || (scope.backend == "pgid" && !ctx.strongScopes))
  }

  /** A generation that can issue attestations at all. */
  predicate CanSeal(ctx: Context) { ctx.key.Material? && IsNonce(ctx.epoch) }

  /** What a mint asks of its inputs. */
  predicate GoodMint(ctx: Context, op: Op, ts: string)
    requires op.AttestOp? || op.FallbackOp?
  {
    && CanSeal(ctx) && ts != ""
    && ValidBinding(op.bind) && op.bind.runNonce == ctx.runNonce
    && ProvenScope(ctx, op.scope)
    && (op.bind.adapter.Some? ==> op.draft.providerKind == op.bind.adapter.value)
    && GoodDraft(op.draft)
    && (if op.AttestOp? then ParseNano(op.usdNano).Ok?
        else GoodFrame(op.limit.sha256, op.limit.bytes, op.limit.offset, op.draft.transcriptBytes))
  }

  ghost predicate MayMint(ctx: Context, op: Op, ts: string, datas: seq<Data>)
    requires op.AttestOp? || op.FallbackOp?
  {
    GoodMint(ctx, op, ts) && WellKept(ctx, datas) && IsOpen(datas, op.bind)
  }

  /** The attestation is about this call of this run, this scope, this evidence, this amount, and nothing else. */
  predicate Attests(ctx: Context, op: Op, ts: string, p: Payload)
    requires op.AttestOp? || op.FallbackOp?
  {
    && p.ledgerEpoch == ctx.epoch && p.runNonce == ctx.runNonce && p.ts == ts
    && p.callId == op.bind.callId && p.callNonce == op.bind.callNonce && p.reservationId == op.bind.reservationId
    && p.routeEpoch == op.bind.routeEpoch && p.provider == op.bind.provider && p.model == op.bind.model
    && p.attempt == op.bind.attempt && p.providerKind == op.draft.providerKind
    && p.scopeBackend == op.scope.backend && p.scopeId == op.scope.id && p.scopeReapProof == op.scope.proof
    && p.transcriptDev == op.draft.transcriptDev && p.transcriptIno == op.draft.transcriptIno
    && p.transcriptSha256 == op.draft.transcriptSha256 && p.transcriptBytes == op.draft.transcriptBytes
    && p.terminalSha256 == op.draft.terminalSha256 && p.terminalBytes == op.draft.terminalBytes
    && p.terminalOffset == op.draft.terminalOffset
    && if op.AttestOp? then
         && p.kind == AccountedTerminal && p.costProvenance == ProviderReported && ParseNano(p.usdNano) == ParseNano(op.usdNano)
         && p.limitSha256.None? && p.limitBytes.None? && p.limitOffset.None?
       else
         && p.kind == TrustedFallback && p.costProvenance == UnknownCost && p.usdNano == "0"
         && p.limitSha256 == Some(op.limit.sha256) && p.limitBytes == Some(op.limit.bytes)
         && p.limitOffset == Some(op.limit.offset)
  }

  lemma PayloadShape(ctx: Context, bind: CallBinding, scope: Scope, draft: Draft, limit: Option<LimitFrame>,
                     usd: nat, provenance: Provenance, ts: string)
    requires ValidBinding(bind) && bind.runNonce == ctx.runNonce && (provenance == UnknownCost ==> usd == 0)
    ensures ShapeOk(PayloadOf(ctx, bind, scope, draft, limit, FormatNano(usd), provenance, ts)) <==>
              && IsNonce(ctx.epoch) && ts != "" && GoodDraft(draft)
              && (limit.Some? ==> GoodFrame(limit.value.sha256, limit.value.bytes, limit.value.offset, draft.transcriptBytes))
  {
    hide IsHex, FormatNano;
    FormatIsDecimal(usd);
    FormatZero();
  }

  lemma FormatIsDecimal(n: nat)
    ensures IsDecimal(FormatNano(n))
  {
    FormatNames(n);
    FormatZero();
  }

  /** Main result. A mint proposes a settlement exactly when the binding is well-formed and of this run, its call is open,
      its scope is proven empty, the evidence is well-formed and the adapter's own, and the amount parses; it never
      declines; and what it proposes is that settlement with an authentic attestation of just that. */
  lemma MintsExactly(ctx: Context, op: Op, ts: string, datas: seq<Data>)
    requires op.AttestOp? || op.FallbackOp?
    ensures var answer := Decide(ctx, op, ts, datas);
            && !answer.Declines?
            && (answer.Proposes? <==> MayMint(ctx, op, ts, datas))
            && (answer.Proposes? ==>
                  var d := answer.data;
                  && d.Settle? && d.callId == op.bind.callId && d.bind == op.bind && d.epoch == ctx.epoch && d.ts == ts
                  && d.reported == op.AttestOp?
                  && ParseNano(d.usdNano) == (if op.AttestOp? then ParseNano(op.usdNano) else Money.Result.Ok(0))
                  && d.attest.Some? && Verifies(ctx.key, d.attest.value) && Attests(ctx, op, ts, d.attest.value.payload))
  {
    hide WellKept, IsOpen, SettleDecision, ShapeOk, Canonical, GoodDraft, GoodFrame, ValidBinding, FormatNano, ParseNano;
    var limit := if op.FallbackOp? then Some(op.limit) else None;
    FormatZero();
    ParseAfterFormat(0);
    if op.AttestOp? {
      var usd := ParseNano(op.usdNano);
      if usd.Ok? && ValidBinding(op.bind) && op.bind.runNonce == ctx.runNonce {
        ParseAfterFormat(usd.value);
        ParsedFits(op.usdNano);
        PayloadShape(ctx, op.bind, op.scope, op.draft, None, usd.value, ProviderReported, ts);
        if ctx.key.Material? {
          var p := PayloadOf(ctx, op.bind, op.scope, op.draft, None, FormatNano(usd.value), ProviderReported, ts);
          SettleExactly(ctx, op.bind, Some(Attestation(p, TagPayload(ctx.key, p))), usd.value, true, ts, datas);
        }
      }
    } else if ValidBinding(op.bind) && op.bind.runNonce == ctx.runNonce {
      PayloadShape(ctx, op.bind, op.scope, op.draft, Some(op.limit), 0, UnknownCost, ts);
      if ctx.key.Material? {
        var p := PayloadOf(ctx, op.bind, op.scope, op.draft, Some(op.limit), FormatNano(0), UnknownCost, ts);
        SettleExactly(ctx, op.bind, Some(Attestation(p, TagPayload(ctx.key, p))), 0, false, ts, datas);
      }
    }
  }

  lemma ParsedFits(s: string)
    ensures ParseNano(s).Ok? ==> ParseNano(s).value <= MAX_NANO
  {
  }

  /** What an operation of the run proposes passes the record schema. */
  lemma ProposedPasses(ctx: Context, op: Op, ts: string, datas: seq<Data>, d: Data)
    requires Decide(ctx, op, ts, datas) == Proposes(d) && ts != "" && op.bind.runNonce == ctx.runNonce
    requires op.ReserveOp? ==> op.worstCase <= MAX_NANO
    ensures SchemaOk(ctx, d)
  {
    hide FormatNano, Canonical, FoldCalls, ShapeOk, FirstAt, ParseNano, IsNonce, IsSha256, SpendOf;
    ParseAfterFormat(0);
    if op.ReserveOp? { ParseAfterFormat(op.worstCase); }
    if op.AttestOp? {
      ParsedFits(op.usdNano);
      if ParseNano(op.usdNano).Ok? { ParseAfterFormat(ParseNano(op.usdNano).value); }
    }
  }

  // ---- what a proposed record makes of the journal ----

  lemma ProposedKeeps(ctx: Context, op: Op, ts: string, datas: seq<Data>, d: Data)
    requires Decide(ctx, op, ts, datas) == Proposes(d) && (op.ReserveOp? ==> op.worstCase <= MAX_NANO)
    ensures WellKept(ctx, datas + [d])
  {
    hide FormatNano, FoldCalls, FirstAt, ParseNano, SpendOf, WellKept, TableOf, NonceReserved, Mintable, TagPayload, BoundTo, Verifies;
    ParseAfterFormat(0);
    if op.ReserveOp? { ParseAfterFormat(op.worstCase); }
    if op.AttestOp? {
      ParsedFits(op.usdNano);
      if ParseNano(op.usdNano).Ok? { ParseAfterFormat(ParseNano(op.usdNano).value); }
    }
    FoldsExactly(ctx, datas);
    FoldOneMore(ctx, datas, d);
    FoldsExactly(ctx, datas + [d]);
  }

  lemma ReservationEffect(ctx: Context, op: Op, ts: string, datas: seq<Data>, d: Data)
    requires op.ReserveOp? && Decide(ctx, op, ts, datas) == Proposes(d) && op.worstCase <= MAX_NANO
    ensures WellKept(ctx, datas + [d]) && IsOpen(datas + [d], op.bind)
  {
    hide WellKept, IsSettled, ReserveDecision, IsReserved, NonceReserved, Fresh;
    ProposedKeeps(ctx, op, ts, datas, d);
    ReserveExactly(ctx, op.bind, op.worstCase, op.budget, ts, datas);
    FreshExactly(datas, op.bind);
    Unsettled(ctx, datas, op.bind.callId);
    MoreRecords(ctx, datas, d, op.bind.callId);
    assert d in datas + [d] && ReserveOf(d, op.bind.callId);
  }

  /** A settlement settles its call, gives it a proven cost exactly when the money mint made it, and authority to bill a
      second provider exactly when the route mint did. */
  lemma SettlementEffect(ctx: Context, op: Op, ts: string, datas: seq<Data>, d: Data)
    requires !op.ReserveOp? && Decide(ctx, op, ts, datas) == Proposes(d) && ts != "" && op.bind.runNonce == ctx.runNonce
    ensures WellKept(ctx, datas + [d]) && IsSettled(datas + [d], op.bind.callId)
    ensures HasCost(ctx, datas + [d], op.bind.callId) <==> op.AttestOp?
    ensures HasAuthority(ctx, datas + [d], op.bind.callId) <==> op.FallbackOp?
  {
    hide WellKept, IsSettled, HasCost, HasAuthority, IsOpen, Decide, BoundTo, ValidBinding, ParseNano, MayMint, Attests, Verifies;
    ProposedKeeps(ctx, op, ts, datas, d);
    ProposedPasses(ctx, op, ts, datas, d);
    SettleIsWhat(ctx, op, ts, datas, d);
    MoreRecords(ctx, datas, d, op.bind.callId);
    SettledHasAll(ctx, datas, op.bind.callId);
  }

  lemma SettleIsWhat(ctx: Context, op: Op, ts: string, datas: seq<Data>, d: Data)
    requires !op.ReserveOp? && Decide(ctx, op, ts, datas) == Proposes(d)
    ensures d.Settle? && d.callId == op.bind.callId && !IsSettled(datas, op.bind.callId)
    ensures d.attest.Some? <==> op.AttestOp? || op.FallbackOp?
    ensures op.AttestOp? ==> d.reported && d.attest.value.payload.costProvenance == ProviderReported
                             && d.attest.value.payload.kind != TrustedFallback
    ensures op.FallbackOp? ==> !d.reported && d.attest.value.payload.kind == TrustedFallback
  {
    hide WellKept, IsSettled, ValidBinding, ParseNano, Verifies, GoodMint;
    if op.UncertainOp? {
      hide Decide;
      assert UncertainDecision(ctx, op.bind, ts, datas) == Proposes(d) by { UncertainIs(ctx, op, ts, datas); }
      UncertainExactly(ctx, op.bind, ts, datas);
    } else {
      hide Decide;
      MintsExactly(ctx, op, ts, datas);
    }
  }

  lemma UncertainIs(ctx: Context, op: Op, ts: string, datas: seq<Data>)
    requires op.UncertainOp?
    ensures Decide(ctx, op, ts, datas) == UncertainDecision(ctx, op.bind, ts, datas)
  {
  }
}
