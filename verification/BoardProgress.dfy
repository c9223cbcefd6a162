/** The loop is never stuck: from every reachable moment a run goes on to finish a task that may go. */
module BoardProgress {
  import opened Wrappers
  import opened Board
  import opened BoardRun

  /** All other tasks are read as before. */
  ghost predicate OthersKept(s: State, t: State, id: string) {
    forall x :: x != id ==> ViewOf(t.events, x) == ViewOf(s.events, x)
  }

  lemma NotedView(events: seq<Event>, e: Event)
    ensures ViewOf(events + [e], e.taskId) == ApplyEvent(ViewOf(events, e.taskId), e)
    ensures forall x :: x != e.taskId ==> ViewOf(events + [e], x) == ViewOf(events, x)
  {
    forall x ensures ViewOf(events + [e], x) == if e.taskId == x then ApplyEvent(ViewOf(events, x), e) else ViewOf(events, x) {
      ViewOfMore(events, e, x);
    }
  }

  /** A selected task can be claimed, launched and brought to review while the others of its iteration wait. */
  lemma SelectedIsReviewed(c: Config, states: seq<State>, labels: seq<Label>, chosen: map<string, string>, id: string)
      returns (ts: seq<State>, ls: seq<Label>)
    requires Run(c, states, labels) && LastState(states).phase.Top? && id in chosen.Values && id in c.tasks
    requires Selection(c.tasks, LastState(states).events, c.maxRepairs, c.roles, chosen)
    ensures Run(c, ts, ls) && states <= ts
    ensures var s, t := LastState(states), LastState(ts);
            && t.phase.Reviewing? && id in t.phase.todo && id in t.held && OthersKept(s, t, id)
            && ViewOf(t.events, id).status == NeedsReview && ViewOf(t.events, id).attempts == ViewOf(s.events, id).attempts
            && t.launches == s.launches + [id]
  {
    hide Run, ViewOf, Selection;
    var role := c.tasks[id].assignee;
    ts, ls := Extend(c, states, labels, Select(chosen));
    NotedView(LastState(ts).events, Event(role, id, Claimed));
    ts, ls := Extend(c, ts, ls, Claim(id));
    ts, ls := Extend(c, ts, ls, Launch(id));
    NotedView(LastState(ts).events, Event(role, id, NeedsReview));
    ts, ls := Extend(c, ts, ls, Finish(id));
    ts, ls := Extend(c, ts, ls, DispatchDone);
  }

  /** Accepted, it is done. */
  lemma SelectedIsDone(c: Config, states: seq<State>, labels: seq<Label>, chosen: map<string, string>, id: string)
      returns (ts: seq<State>, ls: seq<Label>)
    requires Run(c, states, labels) && LastState(states).phase.Top? && id in chosen.Values && id in c.tasks
    requires Selection(c.tasks, LastState(states).events, c.maxRepairs, c.roles, chosen)
    ensures Run(c, ts, ls) && states <= ts && OthersKept(LastState(states), LastState(ts), id)
    ensures StatusOf(LastState(ts).events, id) == Done && LastState(ts).launches == LastState(states).launches + [id]
  {
    hide Run, ViewOf, Selection;
    ts, ls := SelectedIsReviewed(c, states, labels, chosen, id);
    NotedView(LastState(ts).events, Event("", id, Done));
    ts, ls := Extend(c, ts, ls, Review(id, Accept, ""));
  }

  /** Rejected, it has failed once more, and out of repairs it is escalated before the next selection. */
  lemma SelectedIsRejected(c: Config, states: seq<State>, labels: seq<Label>, chosen: map<string, string>, id: string)
      returns (ts: seq<State>, ls: seq<Label>)
    requires Run(c, states, labels) && LastState(states).phase.Top? && id in chosen.Values && id in c.tasks
    requires Selection(c.tasks, LastState(states).events, c.maxRepairs, c.roles, chosen)
    ensures Run(c, ts, ls) && states <= ts && OthersKept(LastState(states), LastState(ts), id)
    ensures var before, after := ViewOf(LastState(states).events, id), ViewOf(LastState(ts).events, id);
            && after.attempts == before.attempts + 1
            && after.status == if after.attempts > c.maxRepairs then Escalated else Rejected
  {
    hide Run, ViewOf, Selection;
    ts, ls := SelectedIsReviewed(c, states, labels, chosen, id);
    NotedView(LastState(ts).events, Event("", id, Rejected));
    ts, ls := Extend(c, ts, ls, Review(id, Reject, ""));
    ts, ls := Extend(c, ts, ls, ReviewDone);
    var v := ViewOf(LastState(ts).events, id);
    if v.attempts > c.maxRepairs {
      NotedView(LastState(ts).events, Event("", id, Escalated));
      ts, ls := Extend(c, ts, ls, Escalate(id, ""));
    }
  }

  /** What a resume makes of a task: one the dead process had claimed has failed once more, and no other moves. */
  function Reclaimed(v: View): View {
    if v.status == Claimed then v.(status := Blocked, attempts := v.attempts + 1) else v
  }

  lemma {:induction false} ReclaimAll(c: Config, states: seq<State>, labels: seq<Label>) returns (ts: seq<State>, ls: seq<Label>)
    requires Run(c, states, labels) && LastState(states).phase.Reclaiming?
    requires forall id :: id in LastState(states).phase.todo ==> id in c.tasks && StatusOf(LastState(states).events, id) == Claimed
    ensures Run(c, ts, ls) && states <= ts
    ensures var s, t := LastState(states), LastState(ts);
            && t == s.(events := t.events, phase := Top)
            && forall id :: ViewOf(t.events, id) ==
                 if id in s.phase.todo then Reclaimed(ViewOf(s.events, id)) else ViewOf(s.events, id)
    decreases |LastState(states).phase.todo|
  {
    hide Run, ViewOf;
    var s := LastState(states);
    if s.phase.todo == {} {
      ts, ls := Extend(c, states, labels, ReclaimDone);
    } else {
      var id :| id in s.phase.todo;
      NotedView(s.events, Event(Implementer(c.tasks, s.events, id), id, Blocked));
      ts, ls := Extend(c, states, labels, Reclaim(id));
      ts, ls := ReclaimAll(c, ts, ls);
    }
  }

  /** Main result. Whatever a process was doing when it died, the next one gets to its loop: each known task it had
      claimed has failed once more, every other one is as it was, and nothing is in flight. */
  lemma BackToTop(c: Config, states: seq<State>, labels: seq<Label>) returns (ts: seq<State>, ls: seq<Label>)
    requires Run(c, states, labels)
    ensures Run(c, ts, ls) && states <= ts
    ensures var s, t := LastState(states), LastState(ts);
            && t.phase.Top? && t.flight == map[] && t.launches == s.launches
            && forall id :: id in c.tasks ==> ViewOf(t.events, id) == Reclaimed(ViewOf(s.events, id))
  {
    hide ViewOf, Step;
    ts, ls := states, labels;
    if !LastState(states).phase.Down? { ts, ls := Extend(c, ts, ls, Crash); }
    RunKeepsInv(c, ts, ls, |ls|);
    assert LastState(ts).flight == map[];
    ts, ls := Extend(c, ts, ls, Resume);
    ts, ls := ReclaimAll(c, ts, ls);
  }

  // ---- a selection always exists ----

  function Weight(tasks: map<string, Task>, events: seq<Event>, id: string): int
    requires id in tasks
  {
    2 * tasks[id].priority + if StatusOf(events, id) == Open then 0 else 1
  }

  lemma {:induction false} HeaviestOf(tasks: map<string, Task>, events: seq<Event>, ids: set<string>) returns (best: string)
    requires ids != {} && ids <= tasks.Keys
    ensures best in ids && forall id :: id in ids ==> Weight(tasks, events, id) <= Weight(tasks, events, best)
    decreases ids
  {
    hide Weight;
    var one :| one in ids;
    var rest := ids - {one};
    best := one;
    if rest != {} {
      var other := HeaviestOf(tasks, events, rest);
      if Weight(tasks, events, other) > Weight(tasks, events, one) { best := other; }
    }
    forall id | id in ids ensures Weight(tasks, events, id) <= Weight(tasks, events, best) {
      assert id == one || id in rest;
    }
  }

  function Candidates(c: Config, events: seq<Event>, role: string): set<string> {
    set id | id in c.tasks && Eligible(c.tasks, events, c.maxRepairs, id) && c.tasks[id].assignee == role
  }

  lemma {:induction false} SelectionExists(c: Config, events: seq<Event>, roles: seq<string>) returns (chosen: map<string, string>)
    ensures Selection(c.tasks, events, c.maxRepairs, roles, chosen)
    decreases |roles|
  {
    chosen := map[];
    if roles != [] {
      hide Eligible, AwaitsReview, StatusOf;
      var front, role := roles[..|roles| - 1], roles[|roles| - 1];
      chosen := SelectionExists(c, events, front);
      assert forall r :: r in roles <==> r in front || r == role;
      var ids := Candidates(c, events, role);
      if !AwaitsReview(c.tasks, events, role) && ids != {} {
        var best := HeaviestOf(c.tasks, events, ids);
        HeaviestIsBest(c, events, role, best);
        chosen := chosen[role := best];
      } else {
        NoneEligible(c, events, role);
      }
    }
  }

  lemma HeaviestIsBest(c: Config, events: seq<Event>, role: string, best: string)
    requires !AwaitsReview(c.tasks, events, role) && best in Candidates(c, events, role)
    requires forall id :: id in Candidates(c, events, role) ==> Weight(c.tasks, events, id) <= Weight(c.tasks, events, best)
    ensures BestFor(c.tasks, events, c.maxRepairs, role, best)
  {
    hide AwaitsReview, Eligible, StatusOf;
    forall other | Eligible(c.tasks, events, c.maxRepairs, other) && other in c.tasks && c.tasks[other].assignee == role
      ensures Weight(c.tasks, events, other) <= Weight(c.tasks, events, best) {
      assert other in Candidates(c, events, role);
    }
    forall id ensures Eligible(c.tasks, events, c.maxRepairs, id) ==> id in c.tasks { EligibleIsKnown(c, events, id); }
  }

  lemma EligibleIsKnown(c: Config, events: seq<Event>, id: string)
    ensures Eligible(c.tasks, events, c.maxRepairs, id) ==> id in c.tasks
  {
  }

  lemma NoneEligible(c: Config, events: seq<Event>, role: string)
    requires AwaitsReview(c.tasks, events, role) || Candidates(c, events, role) == {}
    ensures Board.Idle(c.tasks, events, c.maxRepairs, role)
  {
    hide AwaitsReview;
    forall id | Eligible(c.tasks, events, c.maxRepairs, id) && c.tasks[id].assignee == role
      ensures id in Candidates(c, events, role) { }
  }

  /** Main result. At the top of the loop, a role of the team with a task that may go and nothing awaiting review can
      have a task done that was not: no run gets to where such work is never finished. */
  lemma NeverStuck(c: Config, states: seq<State>, labels: seq<Label>, id: string)
      returns (ts: seq<State>, ls: seq<Label>, done: string)
    requires Run(c, states, labels) && LastState(states).phase.Top?
    requires Eligible(c.tasks, LastState(states).events, c.maxRepairs, id)
    requires c.tasks[id].assignee in c.roles && !AwaitsReview(c.tasks, LastState(states).events, c.tasks[id].assignee)
    ensures Run(c, ts, ls) && states <= ts
    ensures done in c.tasks && c.tasks[done].assignee == c.tasks[id].assignee
    ensures StatusOf(LastState(states).events, done) != Done && StatusOf(LastState(ts).events, done) == Done
    ensures LastState(ts).launches == LastState(states).launches + [done]
  {
    hide Run, ViewOf, AwaitsReview;
    var s, role := LastState(states), c.tasks[id].assignee;
    var chosen := SelectionExists(c, s.events, c.roles);
    assert role in chosen;
    done := chosen[role];
    assert BestFor(c.tasks, s.events, c.maxRepairs, role, done);
    ts, ls := SelectedIsDone(c, states, labels, chosen, done);
  }
}
