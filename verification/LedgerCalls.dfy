/** The ledger's calls as transactions of a handle, each a step of the runs the safety results are about. */
module LedgerCalls {
  import opened Wrappers
  import opened Money
  import opened LineLog
  import opened Journal
  import opened LedgerSteps
  import opened Files
  import opened LedgerHandle
  import opened CrashSafety
  import opened Durability
  import opened Ledger
  import opened Budget
  import opened Accounts

  /** A call refuses a malformed binding or amount before any file is opened. */
  datatype Answer = BadInput | Ran(out: Outcome<Data>)

  /** Nothing will fail, and the ledger can be read and appended to. */
  ghost predicate Healthy(h: LedgerHandle<Data>)
    reads h, h.host, h.leaf, h.wal
  {
    && h.host.script == [] && h.Usable() && Sound(h.g)
    && Readable(h.g, h.OnDisk()).Some? && !LogOverhang(h.g, h.OnDisk())
  }

  /** ... and neither file overhangs, and the journal takes whatever passes the record schema. */
  ghost predicate Smooth(h: LedgerHandle<Data>, ctx: Context)
    reads h, h.host, h.leaf, h.wal
  {
    Healthy(h) && !Overhang(h.g, h.OnDisk()) && forall d :: SchemaOk(ctx, d) ==> h.g.valid(d)
  }

  ghost function JournalOf(h: LedgerHandle<Data>): seq<Data>
    reads h, h.leaf, h.wal
  {
    var f := Readable(h.g, h.OnDisk());
    if f.Some? then f.value.datas else []
  }

  /** What a transaction comes to when nothing fails. */
  function Expected(f: Folded<Data>, choice: Decision<Data>): Outcome<Data> {
    match choice
    case Proposes(data) => Done(f, data)
    case Declines => Declined(f)
    case Raises => Outcome.Refused
  }

  /** The outcome is what the decision was. */
  predicate ComesOf(out: Outcome<Data>, choice: Decision<Data>) {
    match choice
    case Proposes(data) => out.Done? && out.data == data
    case Declines => out.Declined?
    case Raises => out.Refused?
  }

  lemma StoreTxnWeaken(g: Generation<Data>, may: Proposal<Data>, more: Proposal<Data>, s: Store, out: Outcome<Data>, t: Store)
    requires StoreTxnStep(g, may, s, out, t) && forall datas, data :: may(datas, data) ==> more(datas, data)
    ensures StoreTxnStep(g, more, s, out, t)
  {
    hide InterruptedStore, CommittedStore, Readable;
  }

  /** Run one operation's decision as a transaction: a run step justified by that operation. */
  method Perform(h: LedgerHandle<Data>, ctx: Context, op: Op, ts: string, ghost allowed: Op -> bool)
      returns (out: Outcome<Data>)
    requires h.leaf != h.wal && allowed(op) && ts != ""
    modifies h`poisonReason, h.host, h.leaf, h.wal
    ensures StoreStep(h.g, May(ctx, allowed), old(h.Stored()), TxnCall(out), h.Stored())
    ensures Step(h.g, May(ctx, allowed), old(h.OnDisk()), TxnCall(out), h.OnDisk())
    ensures out.Done? ==> Decide(ctx, op, ts, out.before.datas) == Proposes(out.data)
    ensures out.Declined? ==> Decide(ctx, op, ts, out.before.datas) == Declines
    ensures old(h.host.script) == [] ==> h.host.script == []
    ensures old(Healthy(h)) ==>
              var f := old(Readable(h.g, h.OnDisk())).value;
              out == Expected(f, Decide(ctx, op, ts, f.datas))
    ensures old(Smooth(h, ctx)) && op.bind.runNonce == ctx.runNonce && (op.ReserveOp? ==> op.worstCase <= MAX_NANO) ==>
              && Smooth(h, ctx) && ComesOf(out, Decide(ctx, op, ts, old(JournalOf(h))))
              && JournalOf(h) == old(JournalOf(h)) + if out.Done? then [out.data] else []
  {
    hide InterruptedStore, CommittedStore, Readable, Decide, TxnStep, LogOverhang;
    ghost var s := h.Stored();
    ghost var mine: Proposal<Data> := (datas, data) => Decide(ctx, op, ts, datas) == Proposes(data);
    out := h.Txn(datas => Decide(ctx, op, ts, datas));
    StoreTxnWeaken(h.g, (datas, data) => (x => Decide(ctx, op, ts, x))(datas) == Proposes(data), mine, s, out, h.Stored());
    StoreTxnWeaken(h.g, mine, May(ctx, allowed), s, out, h.Stored());
    SeenStep(h.g, May(ctx, allowed), s, TxnCall(out), h.Stored());
    if old(Smooth(h, ctx)) && op.bind.runNonce == ctx.runNonce && (op.ReserveOp? ==> op.worstCase <= MAX_NANO) {
      StaysSmooth(h, ctx, op, ts, old(h.OnDisk()), out, May(ctx, allowed));
    }
  }

  lemma StaysSmooth(h: LedgerHandle<Data>, ctx: Context, op: Op, ts: string, d: Disk, out: Outcome<Data>, may: Proposal<Data>)
    requires TxnStep(h.g, may, d, out, h.OnDisk()) && !out.Threw? && !out.Died?
    requires Readable(h.g, d).Some? && !Overhang(h.g, d) && !LogOverhang(h.g, d) && Sound(h.g)
    requires h.host.script == [] && h.Usable() && forall r :: SchemaOk(ctx, r) ==> h.g.valid(r)
    requires ts != "" && op.bind.runNonce == ctx.runNonce && (op.ReserveOp? ==> op.worstCase <= MAX_NANO)
    requires out.Done? ==> Decide(ctx, op, ts, out.before.datas) == Proposes(out.data)
    ensures Smooth(h, ctx)
    ensures JournalOf(h) == Readable(h.g, d).value.datas + if out.Done? then [out.data] else []
  {
    hide Decide, Readable, Overhang, LogOverhang, Committed, SchemaOk;
    if out.Done? {
      ProposedPasses(ctx, op, ts, out.before.datas, out.data);
      CommitIsReadExactly(h.g, d, out.before, out.data, h.OnDisk());
    }
  }

  /** Reserve a worst case before launching. An admitted reservation is committed and within a positive budget;
      a denied one wrote nothing, and would not have fitted. With nothing failing the decision is what happens. */
  method ReserveCall(h: LedgerHandle<Data>, ctx: Context, bind: CallBinding, worstCase: JsValue, budget: JsValue, ts: string)
      returns (r: Answer)
    requires h.leaf != h.wal && ts != "" && bind.runNonce == ctx.runNonce
    modifies h`poisonReason, h.host, h.leaf, h.wal
    ensures r.BadInput? <==> !ValidBinding(bind) || UsdToNano(budget).Refused? || UsdToNano(worstCase).Refused?
    ensures r.BadInput? ==> h.Stored() == old(h.Stored())
    ensures r.Ran? ==>
              var n, b := UsdToNano(worstCase).value, UsdToNano(budget).value;
              && StoreStep(h.g, May(ctx, BudgetOps(ctx, b)), old(h.Stored()), TxnCall(r.out), h.Stored())
              && (r.out.Done? ==>
                    && WellKept(ctx, r.out.before.datas) && Fresh(r.out.before.datas, bind)
                    && (b > 0 ==> Owed(ctx, r.out.before.datas) + n <= b)
                    && r.out.data == Reserve(bind.callId, FormatNano(if b > 0 then n else 0), b > 0, ts, ctx.epoch, bind))
              && (r.out.Declined? ==>
                    && h.OnDisk() == old(h.OnDisk()) && b > 0
                    && WellKept(ctx, r.out.before.datas) && Fresh(r.out.before.datas, bind)
                    && Owed(ctx, r.out.before.datas) + n > b)
    ensures r.Ran? && old(Healthy(h)) ==>
              var datas := old(Readable(h.g, h.OnDisk())).value.datas;
              var n, b := UsdToNano(worstCase).value, UsdToNano(budget).value;
              && (r.out.Refused? <==> !WellKept(ctx, datas) || !Fresh(datas, bind))
              && (r.out.Declined? <==> WellKept(ctx, datas) && Fresh(datas, bind) && b > 0 && Owed(ctx, datas) + n > b)
              && (r.out.Done? <==> WellKept(ctx, datas) && Fresh(datas, bind) && (b == 0 || Owed(ctx, datas) + n <= b))
    ensures r.Ran? && old(Smooth(h, ctx)) ==>
              && Smooth(h, ctx) && JournalOf(h) == old(JournalOf(h)) + (if r.out.Done? then [r.out.data] else [])
              && ComesOf(r.out, Decide(ctx, ReserveOp(bind, UsdToNano(worstCase).value, UsdToNano(budget).value), ts,
                                       old(JournalOf(h))))
  {
    ghost var before := Readable(h.g, h.OnDisk());
    assert Healthy(h) ==> before.Some?;
    hide StoreTxnStep, Readable, Healthy, WellKept, Fresh, Owed, UsdToNano, ValidBinding, ReserveDecision, FormatNano, Smooth, JournalOf, ComesOf;
    var b := UsdToNano(budget);
    var n := UsdToNano(worstCase);
    if !ValidBinding(bind) || b.Refused? || n.Refused? { return BadInput; }
    var out := Perform(h, ctx, ReserveOp(bind, n.value, b.value), ts, BudgetOps(ctx, b.value));
    if before.Some? { ReserveExactly(ctx, bind, n.value, b.value, ts, before.value.datas); }
    if out.Done? || out.Declined? { ReserveExactly(ctx, bind, n.value, b.value, ts, out.before.datas); }
    r := Ran(out);
  }

  /** Settle with no attestation: the worst case is kept and nothing is authorized. With nothing failing it settles
      every open call, and no other. */
  method SettleUncertain(h: LedgerHandle<Data>, ctx: Context, bind: CallBinding, ts: string) returns (r: Answer)
    requires h.leaf != h.wal && ts != ""
    modifies h`poisonReason, h.host, h.leaf, h.wal
    ensures r.BadInput? <==> !ValidBinding(bind)
    ensures r.BadInput? ==> h.Stored() == old(h.Stored())
    ensures r.Ran? ==> StoreStep(h.g, May(ctx, OwnRunOps(ctx)), old(h.Stored()), TxnCall(r.out), h.Stored())
    ensures r.Ran? && r.out.Done? ==> r.out.data == Settle(bind.callId, "0", false, ts, ctx.epoch, bind, None)
    ensures r.Ran? && old(Healthy(h)) ==>
              var datas := old(Readable(h.g, h.OnDisk())).value.datas;
              r.out.Done? <==> WellKept(ctx, datas) && IsOpen(datas, bind)
  {
    ghost var before := Readable(h.g, h.OnDisk());
    assert Healthy(h) ==> before.Some?;
    hide StoreTxnStep, Readable, Healthy, FormatNano, WellKept, IsOpen, UncertainDecision, ValidBinding;
    if !ValidBinding(bind) { return BadInput; }
    var out := Perform(h, ctx, UncertainOp(bind), ts, OwnRunOps(ctx));
    if before.Some? { UncertainExactly(ctx, bind, ts, before.value.datas); }
    if out.Done? { UncertainExactly(ctx, bind, ts, out.before.datas); }
    r := Ran(out);
  }

  /** The spend of the journal as folded; None only when the ledger refuses to be read or something fails. */
  method EffectiveSpend(h: LedgerHandle<Data>, ctx: Context) returns (r: Option<nat>)
    modifies h.host
    ensures h.Stored() == old(h.Stored())
    ensures r.Some? ==>
              && Readable(h.g, h.OnDisk()).Some?
              && var datas := Readable(h.g, h.OnDisk()).value.datas; WellKept(ctx, datas) && r.value == Owed(ctx, datas)
    ensures old(Healthy(h)) && WellKept(ctx, Readable(h.g, h.OnDisk()).value.datas) ==> r.Some?
  {
    hide Readable, LogOverhang, WellKept, Owed, TableOf;
    var folded := h.Read();
    if folded.None? { return None; }
    FoldsExactly(ctx, folded.value.datas);
    var calls := FoldReservations(ctx, folded.value.datas);
    if calls.None? { return None; }
    SpendExactly(ctx, folded.value.datas);
    var total := Spend(calls.value.entries);
    r := Some(total);
  }

  /** A positive budget is reached once what the records owe is at least it; no budget ever is. */
  method BudgetReached(h: LedgerHandle<Data>, ctx: Context, budget: JsValue) returns (r: Option<bool>)
    modifies h.host
    ensures h.Stored() == old(h.Stored())
    ensures r.Some? ==> UsdToNano(budget).Ok?
    ensures r.Some? && UsdToNano(budget).value == 0 ==> !r.value
    ensures r.Some? && UsdToNano(budget).value > 0 ==>
              && Readable(h.g, h.OnDisk()).Some?
              && var datas := Readable(h.g, h.OnDisk()).value.datas;
                 WellKept(ctx, datas) && (r.value <==> Owed(ctx, datas) >= UsdToNano(budget).value)
    ensures old(Healthy(h)) && WellKept(ctx, Readable(h.g, h.OnDisk()).value.datas) && UsdToNano(budget).Ok? ==> r.Some?
  {
    hide Readable, Healthy, WellKept, Owed, UsdToNano;
    var b := UsdToNano(budget);
    if b.Refused? { return None; }
    if b.value == 0 { return Some(false); }
    var spend := EffectiveSpend(h, ctx);
    r := if spend.None? then None else Some(spend.value >= b.value);
  }

  /** The first reservation, in the order they were made, that its proven cost overran, if one was. */
  method BudgetViolation(h: LedgerHandle<Data>, ctx: Context) returns (r: Option<Option<string>>)
    modifies h.host
    ensures h.Stored() == old(h.Stored())
    ensures r.Some? ==>
              && Readable(h.g, h.OnDisk()).Some?
              && var datas := Readable(h.g, h.OnDisk()).value.datas; WellKept(ctx, datas) && FirstOverrun(ctx, datas, r.value)
    ensures old(Healthy(h)) && WellKept(ctx, Readable(h.g, h.OnDisk()).value.datas) ==> r.Some?
  {
    hide Readable, LogOverhang, WellKept, FirstOverrun, TableOf;
    var folded := h.Read();
    if folded.None? { return None; }
    FoldsExactly(ctx, folded.value.datas);
    var calls := FoldReservations(ctx, folded.value.datas);
    if calls.None? { return None; }
    var first := FirstFlagged(ctx, folded.value.datas, calls.value.entries);
    r := Some(first);
  }

  method FirstFlagged(ctx: Context, ghost datas: seq<Data>, entries: seq<Reservation>) returns (r: Option<string>)
    requires TableOf(ctx, datas, entries)
    ensures FirstOverrun(ctx, datas, r)
  {
    hide Overruns, Reservations, TableOf;
    TableSize(ctx, datas, entries);
    for k := 0 to |entries|
      invariant forall j :: 0 <= j < k ==> !Overruns(ctx, datas, Reservations(datas)[j])
    {
      FlagExactly(ctx, datas, entries, k);
      if entries[k].over { return Some(entries[k].callId); }
    }
    r := None;
  }

  /** Nothing overran, or this is the call of the first reservation that did. */
  ghost predicate FirstOverrun(ctx: Context, datas: seq<Data>, callId: Option<string>) {
    var rs := Reservations(datas);
    match callId
    case None => forall k :: 0 <= k < |rs| ==> !Overruns(ctx, datas, rs[k])
    case Some(id) =>
      exists k :: 0 <= k < |rs| && rs[k].callId == id && Overruns(ctx, datas, rs[k])
                  && forall j :: 0 <= j < k ==> !Overruns(ctx, datas, rs[j])
  }
}
