/** The task board: an append-only log of events, the view it folds to, and the loop's passes over that view. */
module Board {
  import opened Wrappers

  datatype Status = Open | Claimed | InProgress | NeedsReview | Blocked | Done | Rejected | Escalated

  datatype Task = Task(assignee: string, dependsOn: seq<string>, priority: int)

  datatype Event = Event(role: string, taskId: string, status: Status)

  datatype View = View(status: Status, claimedBy: Option<string>, attempts: nat)

  const UNTOUCHED := View(Open, None, 0)

  /** The first claim wins and later ones are ignored, so a task under repair keeps the status it failed with;
      every other event sets the status; every failure counts. */
  function ApplyEvent(v: View, e: Event): View {
    var w :=
      if e.status == Claimed then (if v.claimedBy.None? then v.(claimedBy := Some(e.role), status := Claimed) else v)
      else v.(status := e.status);
    if e.status == Blocked || e.status == Rejected then w.(attempts := w.attempts + 1) else w
  }

  /** One task's view of the log. */
  function ViewOf(events: seq<Event>, id: string): View {
    if events == [] then UNTOUCHED
    else
      var v := ViewOf(events[..|events| - 1], id);
      var e := events[|events| - 1];
      if e.taskId == id then ApplyEvent(v, e) else v
  }

  function StatusOf(events: seq<Event>, id: string): Status { ViewOf(events, id).status }

  lemma ViewOfMore(events: seq<Event>, e: Event, id: string)
    ensures ViewOf(events + [e], id) == if e.taskId == id then ApplyEvent(ViewOf(events, id), e) else ViewOf(events, id)
  {
    assert (events + [e])[..|events|] == events;
  }

  // ---- the view, said of the events themselves ----

  predicate Claims(events: seq<Event>, id: string, i: nat) {
    i < |events| && events[i].taskId == id && events[i].status == Claimed
  }

  predicate FirstClaim(events: seq<Event>, id: string, i: nat) {
    Claims(events, id, i) && forall j: nat :: j < i ==> !Claims(events, id, j)
  }

  /** Every event of the task sets its status, except a claim that is not the first. */
  predicate Sets(events: seq<Event>, id: string, i: nat) {
    i < |events| && events[i].taskId == id && (events[i].status == Claimed ==> FirstClaim(events, id, i))
  }

  /** What the last such event set; a task no event speaks of is open. */
  ghost predicate IsNow(events: seq<Event>, id: string, status: Status) {
    || (exists i: nat :: Sets(events, id, i) && events[i].status == status && forall j: nat :: i < j ==> !Sets(events, id, j))
    || (status == Open && forall i: nat :: !Sets(events, id, i))
  }

  /** Claimed first by the role, or by nobody. */
  ghost predicate IsClaimedBy(events: seq<Event>, id: string, role: Option<string>) {
    match role
    case Some(r) => exists i: nat :: FirstClaim(events, id, i) && events[i].role == r
    case None => forall i: nat :: !Claims(events, id, i)
  }

  function Failures(events: seq<Event>, id: string): set<nat> {
    set i: nat | i < |events| && events[i].taskId == id && (events[i].status == Blocked || events[i].status == Rejected)
  }

  lemma EventsMore(events: seq<Event>, e: Event, id: string)
    ensures forall i: nat :: i != |events| ==> (Claims(events + [e], id, i) <==> Claims(events, id, i))
    ensures forall i: nat :: i != |events| ==> (Sets(events + [e], id, i) <==> Sets(events, id, i))
    ensures forall i: nat :: i != |events| ==> (FirstClaim(events + [e], id, i) <==> FirstClaim(events, id, i))
    ensures Claims(events + [e], id, |events|) <==> e.taskId == id && e.status == Claimed
    ensures FirstClaim(events + [e], id, |events|) <==>
            e.taskId == id && e.status == Claimed && forall i: nat :: !Claims(events, id, i)
  {
    forall i: nat | i != |events| ensures Claims(events + [e], id, i) <==> Claims(events, id, i) { }
  }

  lemma FailuresMore(events: seq<Event>, e: Event, id: string)
    ensures |Failures(events + [e], id)| ==
            |Failures(events, id)| + if e.taskId == id && (e.status == Blocked || e.status == Rejected) then 1 else 0
  {
    var n: nat := |events|;
    assert Failures(events + [e], id) ==
           Failures(events, id) + if e.taskId == id && (e.status == Blocked || e.status == Rejected) then {n} else {};
  }

  lemma {:induction false} ViewIsRead(events: seq<Event>, id: string)
    ensures IsNow(events, id, ViewOf(events, id).status)
    ensures IsClaimedBy(events, id, ViewOf(events, id).claimedBy)
    ensures ViewOf(events, id).attempts == |Failures(events, id)|
    decreases |events|
  {
    if events != [] {
      hide ViewOf, Failures;
      var front, e := events[..|events| - 1], events[|events| - 1];
      assert events == front + [e];
      ViewIsRead(front, id);
      ViewOfMore(front, e, id);
      FailuresMore(front, e, id);
      EventIsRead(front, e, id, ViewOf(front, id));
    }
  }

  lemma EventIsRead(events: seq<Event>, e: Event, id: string, v: View)
    requires IsNow(events, id, v.status) && IsClaimedBy(events, id, v.claimedBy)
    ensures var w := if e.taskId == id then ApplyEvent(v, e) else v;
            IsNow(events + [e], id, w.status) && IsClaimedBy(events + [e], id, w.claimedBy)
  {
    hide Claims, FirstClaim, Sets;
    var more := events + [e];
    var n: nat := |events|;
    EventsMore(events, e, id);
    NotBeyond(events, id);
    NotBeyond(more, id);
    assert more[n] == e && forall i :: 0 <= i < n ==> more[i] == events[i];
    if Sets(more, id, n) { assert more[n].status == e.status; }
    if FirstClaim(more, id, n) { assert more[n].role == e.role; }
    if v.claimedBy.Some? {
      var i: nat :| FirstClaim(events, id, i) && events[i].role == v.claimedBy.value;
      assert FirstClaim(more, id, i) && more[i].role == v.claimedBy.value;
    }
  }

  lemma NotBeyond(events: seq<Event>, id: string)
    ensures forall i: nat :: Claims(events, id, i) || Sets(events, id, i) || FirstClaim(events, id, i) ==> i < |events|
    ensures forall i: nat :: FirstClaim(events, id, i) ==> Claims(events, id, i)
    ensures forall i: nat :: Sets(events, id, i) <==>
              i < |events| && events[i].taskId == id && (events[i].status == Claimed ==> FirstClaim(events, id, i))
  {
  }

  lemma OneReading(events: seq<Event>, id: string)
    ensures forall a, b :: IsNow(events, id, a) && IsNow(events, id, b) ==> a == b
    ensures forall a, b :: IsClaimedBy(events, id, a) && IsClaimedBy(events, id, b) ==> a == b
  {
    hide Sets, Claims;
    forall a, b | IsNow(events, id, a) && IsNow(events, id, b) ensures a == b { }
    forall a, b | IsClaimedBy(events, id, a) && IsClaimedBy(events, id, b) ensures a == b { }
  }

  /** Main result. The fold of the log reads each task off the events themselves. */
  lemma ViewExactly(events: seq<Event>, id: string)
    ensures forall status :: ViewOf(events, id).status == status <==> IsNow(events, id, status)
    ensures forall role :: ViewOf(events, id).claimedBy == role <==> IsClaimedBy(events, id, role)
    ensures ViewOf(events, id).attempts == |Failures(events, id)|
  {
    hide IsNow, IsClaimedBy, ViewOf, Failures;
    ViewIsRead(events, id);
    OneReading(events, id);
  }

  /** Failed, with repairs left: `maxRepairs` counts repairs after the first attempt. */
  predicate Retryable(v: View, maxRepairs: nat) {
    (v.status == Blocked || v.status == Rejected) && v.attempts <= maxRepairs
  }

  predicate Exhausted(v: View, maxRepairs: nat) {
    (v.status == Blocked || v.status == Rejected) && v.attempts > maxRepairs
  }

  function InStatus(tasks: map<string, Task>, events: seq<Event>, status: Status): set<string> {
    set id | id in tasks && StatusOf(events, id) == status
  }

  function OutOfRepairs(tasks: map<string, Task>, events: seq<Event>, maxRepairs: nat): set<string> {
    set id | id in tasks && Exhausted(ViewOf(events, id), maxRepairs)
  }

  predicate DependenciesMet(tasks: map<string, Task>, events: seq<Event>, id: string)
    requires id in tasks
  {
    forall dep :: dep in tasks[id].dependsOn ==> dep in tasks && StatusOf(events, dep) == Done
  }

  predicate Eligible(tasks: map<string, Task>, events: seq<Event>, maxRepairs: nat, id: string) {
    && id in tasks
    && (StatusOf(events, id) == Open || Retryable(ViewOf(events, id), maxRepairs))
    && DependenciesMet(tasks, events, id)
  }

  /** Main result. A task may go exactly when nobody has spoken of it or it is failed with no more failures than repairs,
      and each of its dependencies is a known task that is done. */
  lemma EligibleExactly(tasks: map<string, Task>, events: seq<Event>, maxRepairs: nat, id: string)
    ensures Eligible(tasks, events, maxRepairs, id) <==>
              && id in tasks
              && (IsNow(events, id, Open)
                  || ((IsNow(events, id, Blocked) || IsNow(events, id, Rejected)) && |Failures(events, id)| <= maxRepairs))
              && forall dep :: dep in tasks[id].dependsOn ==> dep in tasks && IsNow(events, dep, Done)
    ensures id in OutOfRepairs(tasks, events, maxRepairs) <==>
              && id in tasks && (IsNow(events, id, Blocked) || IsNow(events, id, Rejected))
              && |Failures(events, id)| > maxRepairs
  {
    hide ViewOf, IsNow, Failures;
    forall x ensures forall status :: ViewOf(events, x).status == status <==> IsNow(events, x, status) { ViewExactly(events, x); }
    ViewExactly(events, id);
  }

  /** A role has work awaiting review when it claimed that work first, or was assigned it and nobody claimed it. */
  lemma AwaitsReviewExactly(tasks: map<string, Task>, events: seq<Event>, role: string)
    ensures AwaitsReview(tasks, events, role) <==>
            exists id :: id in tasks && IsNow(events, id, NeedsReview)
                         && (IsClaimedBy(events, id, Some(role))
                             || (IsClaimedBy(events, id, None) && tasks[id].assignee == role))
  {
    hide ViewOf, IsNow, IsClaimedBy;
    forall id ensures StatusOf(events, id) == NeedsReview <==> IsNow(events, id, NeedsReview) { ViewExactly(events, id); }
    forall id | id in tasks
      ensures Implementer(tasks, events, id) == role <==>
              IsClaimedBy(events, id, Some(role)) || (IsClaimedBy(events, id, None) && tasks[id].assignee == role) {
      ViewExactly(events, id);
    }
  }

  /** Higher priority first; of equals, a repair before new work. */
  predicate Before(tasks: map<string, Task>, events: seq<Event>, a: string, b: string)
    requires a in tasks && b in tasks
  {
    || tasks[a].priority > tasks[b].priority
    || (tasks[a].priority == tasks[b].priority && StatusOf(events, a) != Open && StatusOf(events, b) == Open)
  }

  function Implementer(tasks: map<string, Task>, events: seq<Event>, id: string): string
    requires id in tasks
  {
    match ViewOf(events, id).claimedBy case Some(role) => role case None => tasks[id].assignee
  }

  predicate AwaitsReview(tasks: map<string, Task>, events: seq<Event>, role: string) {
    exists id :: id in tasks && StatusOf(events, id) == NeedsReview && Implementer(tasks, events, id) == role
  }

  /** What one iteration may dispatch: for each role that has nothing awaiting review, its best eligible task. */
  ghost predicate BestFor(tasks: map<string, Task>, events: seq<Event>, maxRepairs: nat, role: string, id: string) {
    && Eligible(tasks, events, maxRepairs, id) && tasks[id].assignee == role
    && !AwaitsReview(tasks, events, role)
    && forall other :: Eligible(tasks, events, maxRepairs, other) && tasks[other].assignee == role ==>
         || tasks[other].priority < tasks[id].priority
         || (tasks[other].priority == tasks[id].priority && (StatusOf(events, id) == Open ==> StatusOf(events, other) == Open))
  }

  ghost predicate Idle(tasks: map<string, Task>, events: seq<Event>, maxRepairs: nat, role: string) {
    || AwaitsReview(tasks, events, role)
    || forall id :: Eligible(tasks, events, maxRepairs, id) ==> tasks[id].assignee != role
  }

  ghost predicate Selection(
      tasks: map<string, Task>, events: seq<Event>, maxRepairs: nat, roles: seq<string>, chosen: map<string, string>) {
    && chosen.Keys <= (set role | role in roles)
    && (forall role :: role in chosen ==> BestFor(tasks, events, maxRepairs, role, chosen[role]))
    && (forall role :: role in roles && role !in chosen ==> Idle(tasks, events, maxRepairs, role))
  }

  /** The task board of a run. */
  class BoardLog {
    const tasks: map<string, Task>
    var events: seq<Event>

    constructor (tasks: map<string, Task>, events: seq<Event>)
      ensures this.tasks == tasks && this.events == events
    {
      this.tasks, this.events := tasks, events;
    }

    method AddEvent(e: Event)
      modifies this
      ensures events == old(events) + [e]
    {
      events := events + [e];
    }

    /** `foldBoard`: every event moves the view of its task, and an event of an unknown task moves nothing. */
    method FoldBoard() returns (views: map<string, View>)
      ensures views == map id | id in tasks :: ViewOf(events, id)
    {
      views := map id | id in tasks :: UNTOUCHED;
      for i := 0 to |events|
        invariant views == map id | id in tasks :: ViewOf(events[..i], id)
      {
        var e := events[i];
        forall id
          ensures ViewOf(events[..i + 1], id) ==
                  if e.taskId == id then ApplyEvent(ViewOf(events[..i], id), e) else ViewOf(events[..i], id)
        {
          assert events[..i + 1] == events[..i] + [e];
          ViewOfMore(events[..i], e, id);
        }
        if e.taskId in views {
          var v := views[e.taskId];
          if e.status == Claimed {
            if v.claimedBy.None? { v := v.(claimedBy := Some(e.role), status := Claimed); }
          } else {
            v := v.(status := e.status);
          }
          if e.status == Blocked || e.status == Rejected { v := v.(attempts := v.attempts + 1); }
          views := views[e.taskId := v];
        }
      }
      assert events[..|events|] == events;
    }

    /** The selection of one role: the best of its open and retryable tasks whose dependencies are done. */
    method NextFor(role: string, maxRepairs: nat) returns (next: Option<string>)
      ensures next.None? ==> forall id :: Eligible(tasks, events, maxRepairs, id) ==> tasks[id].assignee != role
      ensures next.Some? ==>
                && Eligible(tasks, events, maxRepairs, next.value) && tasks[next.value].assignee == role
                && forall other :: Eligible(tasks, events, maxRepairs, other) && tasks[other].assignee == role ==>
                     || tasks[other].priority < tasks[next.value].priority
                     || (tasks[other].priority == tasks[next.value].priority
                         && (StatusOf(events, next.value) == Open ==> StatusOf(events, other) == Open))
    {
      next := None;
      var rest := tasks.Keys;
      while rest != {}
        invariant rest <= tasks.Keys
        invariant next.Some? ==> Eligible(tasks, events, maxRepairs, next.value) && tasks[next.value].assignee == role
        invariant forall id :: id !in rest && Eligible(tasks, events, maxRepairs, id) && tasks[id].assignee == role ==>
                    next.Some? && !Before(tasks, events, id, next.value)
      {
        var id :| id in rest;
        rest := rest - {id};
        if tasks[id].assignee == role && Eligible(tasks, events, maxRepairs, id)
           && (next.None? || Before(tasks, events, id, next.value)) {
          next := Some(id);
        }
      }
    }

    /** One task a role, and none for a role whose work awaits review. */
    method Select(roles: seq<string>, maxRepairs: nat) returns (chosen: map<string, string>)
      ensures Selection(tasks, events, maxRepairs, roles, chosen)
    {
      chosen := map[];
      for i := 0 to |roles|
        invariant Selection(tasks, events, maxRepairs, roles[..i], chosen)
      {
        hide Eligible, Before, AwaitsReview;
        assert forall role :: role in roles[..i + 1] <==> role in roles[..i] || role == roles[i];
        if !AwaitsReview(tasks, events, roles[i]) {
          var next := NextFor(roles[i], maxRepairs);
          if next.Some? { chosen := chosen[roles[i] := next.value]; }
        }
      }
      assert roles[..|roles|] == roles;
    }

    /** On resume every claimed task is abandoned: each gets one failure, and no other task moves. */
    method ReclaimStaleClaims() returns (reclaimed: nat)
      modifies this
      ensures forall id :: id in tasks ==>
                ViewOf(events, id) ==
                if StatusOf(old(events), id) == Claimed
                then ViewOf(old(events), id).(status := Blocked, attempts := ViewOf(old(events), id).attempts + 1)
                else ViewOf(old(events), id)
      ensures reclaimed == |InStatus(tasks, old(events), Claimed)|
    {
      hide ViewOf;
      var views := FoldBoard();
      var rest := set id | id in tasks && views[id].status == Claimed;
      ghost var all := rest;
      assert all == InStatus(tasks, events, Claimed);
      reclaimed := 0;
      while rest != {}
        invariant rest <= all && reclaimed == |all| - |rest|
        invariant forall id :: id in tasks ==>
                    ViewOf(events, id) ==
                    if id in all && id !in rest
                    then views[id].(status := Blocked, attempts := views[id].attempts + 1)
                    else views[id]
      {
        var id :| id in rest;
        var role := match views[id].claimedBy case Some(r) => r case None => tasks[id].assignee;
        var e := Event(role, id, Blocked);
        forall x ensures ViewOf(events + [e], x) == if x == id then ApplyEvent(ViewOf(events, x), e) else ViewOf(events, x) {
          ViewOfMore(events, e, x);
        }
        AddEvent(e);
        rest := rest - {id};
        reclaimed := reclaimed + 1;
      }
    }

    /** Tasks out of repairs are escalated; nothing else moves. */
    method EscalateExhausted(orchestrator: string, maxRepairs: nat) returns (escalations: nat)
      modifies this
      ensures forall id :: id in tasks ==>
                ViewOf(events, id) ==
                if Exhausted(ViewOf(old(events), id), maxRepairs) then ViewOf(old(events), id).(status := Escalated)
                else ViewOf(old(events), id)
      ensures escalations == |OutOfRepairs(tasks, old(events), maxRepairs)|
    {
      hide ViewOf, Exhausted;
      var views := FoldBoard();
      var rest := set id | id in tasks && Exhausted(views[id], maxRepairs);
      ghost var all := rest;
      assert all == OutOfRepairs(tasks, events, maxRepairs);
      ghost var before := events;
      assert forall id :: id in tasks ==>
               (id in all <==> Exhausted(ViewOf(before, id), maxRepairs)) && views[id] == ViewOf(before, id);
      assert forall id :: id in rest ==> id in tasks;
      hide OutOfRepairs;
      escalations := 0;
      while rest != {}
        invariant rest <= all && escalations == |all| - |rest|
        invariant forall id :: id in tasks ==>
                    ViewOf(events, id) == if id in all && id !in rest then views[id].(status := Escalated) else views[id]
      {
        var id :| id in rest;
        var e := Event(orchestrator, id, Escalated);
        forall x ensures ViewOf(events + [e], x) == if x == id then ApplyEvent(ViewOf(events, x), e) else ViewOf(events, x) {
          ViewOfMore(events, e, x);
        }
        AddEvent(e);
        rest := rest - {id};
        escalations := escalations + 1;
      }
    }
  }
}
