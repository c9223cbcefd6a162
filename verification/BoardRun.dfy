/** Whole runs of the autonomy loop over a board: iterations whose dispatches interleave, reviews, escalations,
    crashes between any two events, and resumes. */
module BoardRun {
  import opened Wrappers
  import opened Board

  datatype Config = Config(tasks: map<string, Task>, roles: seq<string>, maxRepairs: nat)

  /** Where one dispatch is: chosen, claimed, provider launched, or failed and cleaning up. */
  datatype Stage = Selected | AtClaim | Launched | Failing

  datatype Phase =
    | Down                            // no process
    | Reclaiming(todo: set<string>)   // resumed: tasks the dead process left claimed
    | Top                             // about to select
    | Dispatching
    | Reviewing(todo: set<string>)
    | Escalating(todo: set<string>)

  /** `held` is the in-memory table of attempts; the rest records the history: the launches, how many crashes there
      were, and how often a crash hit each task while its provider ran a repair. */
  datatype State = State(
    events: seq<Event>, phase: Phase, flight: map<string, Stage>, held: set<string>,
    launches: seq<string>, crashes: nat, lost: multiset<string>)

  const START := State([], Down, map[], {}, [], 0, multiset{})

  /** The tasks whose provider runs and whose status is still the failure they are repaired from. */
  function Repairing(s: State): set<string> {
    set id | id in s.flight && s.flight[id] == Launched && StatusOf(s.events, id) in {Blocked, Rejected}
  }

  datatype Verdict = Accept | Reject | NoTip

  datatype Label =
    | Resume
    | Reclaim(id: string)
    | ReclaimDone
    | Select(chosen: map<string, string>)
    | Claim(id: string)
    | Launch(id: string)
    | Fail(id: string)            // the dispatch ends in a `blocked` event
    | FailAgain(id: string)       // cleaning up after it throws too: a second `blocked`
    | Finish(id: string)          // the dispatch ends in `needs-review`
    | Clear(id: string)           // cleaned up
    | DispatchDone
    | Review(id: string, verdict: Verdict, reviewer: string)
    | ReviewDone                  // reviewed all, or stopped by budget or cancellation
    | Escalate(id: string, orchestrator: string)
    | EscalateDone
    | Stop                        // the process ends with no dispatch under way
    | Crash                       // ... or at any moment at all

  function Note(s: State, role: string, id: string, status: Status): State {
    s.(events := s.events + [Event(role, id, status)])
  }

  predicate Idle(s: State) { forall id :: id in s.flight ==> s.flight[id] == Selected }

  predicate Enabled(c: Config, s: State, l: Label) {
    match l
    case Resume => s.phase.Down?
    case Reclaim(id) => s.phase.Reclaiming? && id in s.phase.todo && id in c.tasks
    case ReclaimDone => s.phase.Reclaiming? && s.phase.todo == {}
    case Select(_) => s.phase.Top?
    case Claim(id) => s.phase.Dispatching? && id in s.flight && s.flight[id] == Selected && id in c.tasks
    case Launch(id) => s.phase.Dispatching? && id in s.flight && s.flight[id] == AtClaim
    case Fail(id) => s.phase.Dispatching? && id in s.flight && s.flight[id] != Failing && id in c.tasks
    case FailAgain(id) => s.phase.Dispatching? && id in s.flight && s.flight[id] == Failing && id in c.tasks
    case Finish(id) => s.phase.Dispatching? && id in s.flight && s.flight[id] == Launched && id in c.tasks
    case Clear(id) => s.phase.Dispatching? && id in s.flight && s.flight[id] == Failing
    case DispatchDone => s.phase.Dispatching? && Idle(s)
    case Review(id, verdict, _) => s.phase.Reviewing? && id in s.phase.todo && (id !in s.held ==> verdict == Reject)
    case ReviewDone => s.phase.Reviewing?
    case Escalate(id, _) => s.phase.Escalating? && id in s.phase.todo
    case EscalateDone => s.phase.Escalating? && s.phase.todo == {}
    case Stop => !s.phase.Down? && Idle(s)
    case Crash => !s.phase.Down?
  }

  function Next(c: Config, s: State, l: Label): State
    requires Enabled(c, s, l)
  {
    match l
    case Resume => s.(phase := Reclaiming(InStatus(c.tasks, s.events, Claimed)))
    case Reclaim(id) =>
      Note(s, Implementer(c.tasks, s.events, id), id, Blocked).(phase := Reclaiming(s.phase.todo - {id}))
    case ReclaimDone => s.(phase := Top)
    case Select(chosen) => s.(phase := Dispatching, flight := map id | id in chosen.Values :: Selected)
    case Claim(id) =>
      Note(s, c.tasks[id].assignee, id, Claimed).(flight := s.flight[id := AtClaim], held := s.held + {id})
    case Launch(id) => s.(launches := s.launches + [id], flight := s.flight[id := Launched])
    case Fail(id) => Note(s, c.tasks[id].assignee, id, Blocked).(flight := s.flight[id := Failing])
    case FailAgain(id) =>
      Note(s, c.tasks[id].assignee, id, Blocked).(flight := s.flight - {id}, held := s.held - {id})
    case Finish(id) => Note(s, c.tasks[id].assignee, id, NeedsReview).(flight := s.flight - {id})
    case Clear(id) => s.(flight := s.flight - {id}, held := s.held - {id})
    case DispatchDone => s.(phase := Reviewing(InStatus(c.tasks, s.events, NeedsReview)), flight := map[])
    case Review(id, verdict, reviewer) =>
      var t := s.(phase := Reviewing(s.phase.todo - {id}), held := s.held - {id});
      (match verdict
       case Accept => Note(t, reviewer, id, Done)
       case Reject => Note(t, reviewer, id, Rejected)
       case NoTip => t)
    case ReviewDone => s.(phase := Escalating(OutOfRepairs(c.tasks, s.events, c.maxRepairs)))
    case Escalate(id, orchestrator) =>
      Note(s, orchestrator, id, Escalated).(phase := Escalating(s.phase.todo - {id}))
    case EscalateDone => s.(phase := Top)
    case Stop => s.(phase := Down, flight := map[], held := {})
    case Crash =>
      s.(phase := Down, flight := map[], held := {}, crashes := s.crashes + 1, lost := s.lost + multiset(Repairing(s)))
  }

  ghost predicate Step(c: Config, s: State, l: Label, t: State) {
    && Enabled(c, s, l) && t == Next(c, s, l)
    && (l.Select? ==> Selection(c.tasks, s.events, c.maxRepairs, c.roles, l.chosen))
  }

  ghost predicate Run(c: Config, states: seq<State>, labels: seq<Label>) {
    && |states| == |labels| + 1 && states[0] == START
    && forall i :: 0 <= i < |labels| ==> Step(c, states[i], labels[i], states[i + 1])
  }

  function Count(launches: seq<string>, id: string): nat { multiset(launches)[id] }

  // ---- the invariant, task by task ----

  /** What is known of one task from its view `v`, its dispatch, and how often it was launched. A task whose last
      launch is accounted for by a failure (or that was never launched) has at most one launch for each failure
      and each crash that hit it under repair; otherwise one more. */
  predicate TaskOk(v: View, flight: Option<Stage>, launches: nat, maxRepairs: nat, lost: nat) {
    var accounted := (v.status == Blocked || v.status == Rejected || v.status == Escalated || v.status == Open
                      || flight == Some(Selected) || flight == Some(AtClaim)) && flight != Some(Launched);
    && launches <= 1 + maxRepairs + lost
    && launches <= v.attempts + lost + (if accounted then 0 else 1)
    && (v.status == Open ==> v.attempts == 0 && launches == 0)
    && (v.status == Open ==> v.claimedBy.None?)
    && (v.status == NeedsReview || v.status == Done || flight == Some(Launched) ==> launches > 0)
    && v.status != InProgress
    && (flight.Some? ==> v.status == Open || v.status == Claimed || v.status == Blocked || v.status == Rejected)
    && (flight == Some(Selected) ==> v.status != Claimed && v.attempts <= maxRepairs)
    && (flight == Some(AtClaim) ==> v.status != Open && v.attempts <= maxRepairs)
    && (flight == Some(Failing) ==> v.status == Blocked)
  }

  function FlightOf(s: State, id: string): Option<Stage> {
    if id in s.flight then Some(s.flight[id]) else None
  }

  predicate PhaseOk(c: Config, s: State) {
    match s.phase
    case Reclaiming(todo) => forall id :: id in todo ==> id in c.tasks && StatusOf(s.events, id) == Claimed
    case Reviewing(todo) => forall id :: id in todo ==> id in c.tasks && StatusOf(s.events, id) == NeedsReview
    case Escalating(todo) => forall id :: id in todo ==> id in c.tasks && Exhausted(ViewOf(s.events, id), c.maxRepairs)
    case _ => true
  }

  /** Every launch came after a launch of each of its dependencies. */
  predicate Ordered(c: Config, launches: seq<string>) {
    forall k :: 0 <= k < |launches| ==>
      launches[k] in c.tasks && forall dep :: dep in c.tasks[launches[k]].dependsOn ==> dep in c.tasks && dep in launches[..k]
  }

  ghost predicate Inv(c: Config, s: State) {
    && (forall id :: TaskOk(ViewOf(s.events, id), FlightOf(s, id), Count(s.launches, id), c.maxRepairs, s.lost[id]))
    && (forall id :: id in s.flight ==> id in c.tasks && DependenciesMet(c.tasks, s.events, id))
    && (!s.phase.Dispatching? ==> s.flight == map[])
    && PhaseOk(c, s)
    && Ordered(c, s.launches)
    && forall id :: s.lost[id] <= s.crashes
  }

  /** The task a label writes an event about, with the event it writes. */
  function Written(c: Config, s: State, l: Label): Option<Event>
    requires Enabled(c, s, l)
  {
    match l
    case Reclaim(id) => Some(Event(Implementer(c.tasks, s.events, id), id, Blocked))
    case Claim(id) => Some(Event(c.tasks[id].assignee, id, Claimed))
    case Fail(id) => Some(Event(c.tasks[id].assignee, id, Blocked))
    case FailAgain(id) => Some(Event(c.tasks[id].assignee, id, Blocked))
    case Finish(id) => Some(Event(c.tasks[id].assignee, id, NeedsReview))
    case Review(id, Accept, reviewer) => Some(Event(reviewer, id, Done))
    case Review(id, Reject, reviewer) => Some(Event(reviewer, id, Rejected))
    case Escalate(id, orchestrator) => Some(Event(orchestrator, id, Escalated))
    case _ => None
  }

  lemma StepViews(c: Config, s: State, l: Label, id: string)
    requires Enabled(c, s, l)
    ensures var e := Written(c, s, l);
            ViewOf(Next(c, s, l).events, id) ==
            if e.Some? && e.value.taskId == id then ApplyEvent(ViewOf(s.events, id), e.value) else ViewOf(s.events, id)
  {
    hide ApplyEvent, ViewOf;
    var e := Written(c, s, l);
    if e.Some? { ViewOfMore(s.events, e.value, id); }
  }

  lemma CountMore(launches: seq<string>, x: string, id: string)
    ensures Count(launches + [x], id) == Count(launches, id) + if x == id then 1 else 0
  {
  }

  lemma StepCounts(c: Config, s: State, l: Label, id: string)
    requires Enabled(c, s, l)
    ensures Count(Next(c, s, l).launches, id) == Count(s.launches, id) + if l == Launch(id) then 1 else 0
  {
    hide Count;
    if l.Launch? { CountMore(s.launches, l.id, id); }
  }

  lemma StepLost(c: Config, s: State, l: Label, id: string)
    requires Enabled(c, s, l)
    ensures Next(c, s, l).lost[id] == s.lost[id] + if l.Crash? && id in Repairing(s) then 1 else 0
    ensures id in Repairing(s) <==>
              FlightOf(s, id) == Some(Launched) && StatusOf(s.events, id) in {Blocked, Rejected}
  {
  }

  /** The states in which a task is finished for good. */
  predicate Terminal(events: seq<Event>, id: string) {
    StatusOf(events, id) == Done || StatusOf(events, id) == Escalated
  }

  /** A task is written about only while it is in flight, claimed by the dead, under review, or exhausted. */
  lemma WrittenIsLive(c: Config, s: State, l: Label)
    requires Inv(c, s) && Enabled(c, s, l) && Written(c, s, l).Some?
    ensures var id := Written(c, s, l).value.taskId; id in c.tasks && !Terminal(s.events, id)
  {
    var id := Written(c, s, l).value.taskId;
    assert TaskOk(ViewOf(s.events, id), FlightOf(s, id), Count(s.launches, id), c.maxRepairs, s.lost[id]);
  }

  lemma StepKeepsTerminal(c: Config, s: State, l: Label, t: State, id: string)
    requires Inv(c, s) && Step(c, s, l, t) && Terminal(s.events, id)
    ensures ViewOf(t.events, id) == ViewOf(s.events, id)
  {
    hide Inv, Next, ViewOf, ApplyEvent;
    StepViews(c, s, l, id);
    if Written(c, s, l).Some? { WrittenIsLive(c, s, l); }
  }

  lemma SelectionIsEligible(c: Config, s: State, chosen: map<string, string>, id: string)
    requires Selection(c.tasks, s.events, c.maxRepairs, c.roles, chosen) && id in chosen.Values
    ensures Eligible(c.tasks, s.events, c.maxRepairs, id)
  {
    var role :| role in chosen && chosen[role] == id;
    assert BestFor(c.tasks, s.events, c.maxRepairs, role, id);
  }

  /** One task through one step. */
  lemma StepKeepsTask(c: Config, s: State, l: Label, t: State, id: string)
    requires Inv(c, s) && Step(c, s, l, t)
    ensures TaskOk(ViewOf(t.events, id), FlightOf(t, id), Count(t.launches, id), c.maxRepairs, t.lost[id])
  {
    hide ViewOf, Count, Eligible, Selection, DependenciesMet, Ordered, Repairing;
    assert TaskOk(ViewOf(s.events, id), FlightOf(s, id), Count(s.launches, id), c.maxRepairs, s.lost[id]);
    StepViews(c, s, l, id);
    StepCounts(c, s, l, id);
    StepLost(c, s, l, id);
    if l.Select? {
      if id in l.chosen.Values {
        SelectionIsEligible(c, s, l.chosen, id);
        EligibleStatus(c, s, id);
      }
    } else if s.phase.Dispatching? && !l.Crash? {
      DispatchKeepsTask(c, s, l, t, id);
    } else if !l.Crash? {
      PassKeepsTask(c, s, l, t, id);
    }
  }

  lemma PassKeepsTask(c: Config, s: State, l: Label, t: State, id: string)
    requires Inv(c, s) && Step(c, s, l, t) && !l.Select? && !l.Crash? && !s.phase.Dispatching?
    ensures TaskOk(ViewOf(t.events, id), FlightOf(t, id), Count(t.launches, id), c.maxRepairs, t.lost[id])
  {
    hide ViewOf, Count, Eligible, Selection, DependenciesMet, Ordered, Repairing;
    assert TaskOk(ViewOf(s.events, id), FlightOf(s, id), Count(s.launches, id), c.maxRepairs, s.lost[id]);
    StepViews(c, s, l, id);
    StepCounts(c, s, l, id);
  }

  lemma DispatchKeepsTask(c: Config, s: State, l: Label, t: State, id: string)
    requires Inv(c, s) && Step(c, s, l, t) && !l.Select? && !l.Crash? && s.phase.Dispatching?
    ensures TaskOk(ViewOf(t.events, id), FlightOf(t, id), Count(t.launches, id), c.maxRepairs, t.lost[id])
  {
    hide ViewOf, Count, Eligible, Selection, DependenciesMet, Ordered, Repairing;
    assert TaskOk(ViewOf(s.events, id), FlightOf(s, id), Count(s.launches, id), c.maxRepairs, s.lost[id]);
    StepViews(c, s, l, id);
    StepCounts(c, s, l, id);
  }

  lemma EligibleStatus(c: Config, s: State, id: string)
    requires Eligible(c.tasks, s.events, c.maxRepairs, id)
    ensures var v := ViewOf(s.events, id);
            v.status == Open || ((v.status == Blocked || v.status == Rejected) && v.attempts <= c.maxRepairs)
  {
  }

  lemma StepKeepsDependencies(c: Config, s: State, l: Label, t: State, id: string)
    requires Inv(c, s) && Step(c, s, l, t) && id in t.flight
    ensures id in c.tasks && DependenciesMet(c.tasks, t.events, id)
  {
    hide Written, TaskOk, Ordered, PhaseOk, Selection, ViewOf;
    if l.Select? { SelectionIsEligible(c, s, l.chosen, id); }
    forall dep | dep in c.tasks[id].dependsOn ensures dep in c.tasks && StatusOf(t.events, dep) == Done {
      assert DependenciesMet(c.tasks, s.events, id);
      StepKeepsTerminal(c, s, l, t, dep);
    }
  }

  lemma StepKeepsPhase(c: Config, s: State, l: Label, t: State)
    requires Inv(c, s) && Step(c, s, l, t)
    ensures PhaseOk(c, t)
  {
    hide ViewOf, TaskOk, Ordered, DependenciesMet, Selection, ApplyEvent;
    if t.phase.Reclaiming? || t.phase.Reviewing? || t.phase.Escalating? {
      forall id | id in t.phase.todo ensures ViewOf(t.events, id) == ViewOf(s.events, id) { StepViews(c, s, l, id); }
    }
  }

  lemma StepKeepsOrder(c: Config, s: State, l: Label, t: State)
    requires Inv(c, s) && Step(c, s, l, t)
    ensures Ordered(c, t.launches)
  {
    hide ViewOf, PhaseOk, Selection;
    if l.Launch? {
      forall dep | dep in c.tasks[l.id].dependsOn ensures dep in s.launches {
        assert DependenciesMet(c.tasks, s.events, l.id);
        assert TaskOk(ViewOf(s.events, dep), FlightOf(s, dep), Count(s.launches, dep), c.maxRepairs, s.lost[dep]);
      }
      assert t.launches[..|s.launches|] == s.launches;
      forall k | 0 <= k < |s.launches| ensures t.launches[..k] == s.launches[..k] {}
    }
  }

  lemma StepKeepsInv(c: Config, s: State, l: Label, t: State)
    requires Inv(c, s) && Step(c, s, l, t)
    ensures Inv(c, t)
  {
    hide ViewOf, TaskOk, Ordered, DependenciesMet, PhaseOk, Count, FlightOf, Selection;
    forall id ensures TaskOk(ViewOf(t.events, id), FlightOf(t, id), Count(t.launches, id), c.maxRepairs, t.lost[id]) {
      StepKeepsTask(c, s, l, t, id);
    }
    forall id | id in t.flight ensures id in c.tasks && DependenciesMet(c.tasks, t.events, id) {
      StepKeepsDependencies(c, s, l, t, id);
    }
    StepKeepsPhase(c, s, l, t);
    StepKeepsOrder(c, s, l, t);
  }

  lemma {:induction false} RunKeepsInv(c: Config, states: seq<State>, labels: seq<Label>, i: nat)
    requires Run(c, states, labels) && i <= |labels|
    ensures Inv(c, states[i])
  {
    hide Inv, Step;
    if i == 0 {
      StartOk(c);
    } else {
      RunKeepsInv(c, states, labels, i - 1);
      StepKeepsInv(c, states[i - 1], labels[i - 1], states[i]);
    }
  }

  lemma StartOk(c: Config)
    ensures Inv(c, START)
  {
  }

  /** Main result. Over any run with any number of crashes and resumes, no task is launched more often than its
      first attempt, its repairs, and one more for each crash that hit it under repair. */
  lemma LaunchesAreBounded(c: Config, states: seq<State>, labels: seq<Label>, i: nat, id: string)
    requires Run(c, states, labels) && i <= |labels|
    ensures Count(states[i].launches, id) <= 1 + c.maxRepairs + states[i].lost[id] <= 1 + c.maxRepairs + states[i].crashes
  {
    hide ViewOf, Count, Step;
    RunKeepsInv(c, states, labels, i);
    var s := states[i];
    assert TaskOk(ViewOf(s.events, id), FlightOf(s, id), Count(s.launches, id), c.maxRepairs, s.lost[id]);
  }

  /** Main result. A task that is done or escalated stays exactly as it is, and is never launched again. */
  lemma {:induction false} TerminalIsFinal(c: Config, states: seq<State>, labels: seq<Label>, i: nat, j: nat, id: string)
    requires Run(c, states, labels) && i <= j <= |labels| && Terminal(states[i].events, id)
    ensures ViewOf(states[j].events, id) == ViewOf(states[i].events, id)
    ensures Count(states[j].launches, id) == Count(states[i].launches, id)
    decreases j
  {
    hide Inv, Step, ViewOf, Count;
    if i < j {
      TerminalIsFinal(c, states, labels, i, j - 1, id);
      RunKeepsInv(c, states, labels, j - 1);
      assert Step(c, states[j - 1], labels[j - 1], states[j]);
      StepKeepsTerminal(c, states[j - 1], labels[j - 1], states[j], id);
      TerminalNotLaunched(c, states[j - 1], labels[j - 1], states[j], id);
    }
  }

  lemma TerminalNotLaunched(c: Config, s: State, l: Label, t: State, id: string)
    requires Inv(c, s) && Step(c, s, l, t) && Terminal(s.events, id)
    ensures Count(t.launches, id) == Count(s.launches, id)
  {
    hide ViewOf, Count, PhaseOk, Ordered, DependenciesMet;
    assert TaskOk(ViewOf(s.events, id), FlightOf(s, id), Count(s.launches, id), c.maxRepairs, s.lost[id]);
    StepCounts(c, s, l, id);
  }

  /** Main result. When a task is launched all its dependencies are done, and each was itself launched before. */
  lemma LaunchesRespectDependencies(c: Config, states: seq<State>, labels: seq<Label>, i: nat, id: string)
    requires Run(c, states, labels) && i < |labels| && labels[i] == Launch(id)
    ensures id in c.tasks && DependenciesMet(c.tasks, states[i].events, id)
    ensures forall dep :: dep in c.tasks[id].dependsOn ==> dep in states[i].launches
  {
    hide ViewOf, Count, PhaseOk;
    RunKeepsInv(c, states, labels, i);
    assert Step(c, states[i], labels[i], states[i + 1]);
    forall dep | dep in c.tasks[id].dependsOn ensures dep in states[i].launches {
      var s := states[i];
      assert TaskOk(ViewOf(s.events, dep), FlightOf(s, dep), Count(s.launches, dep), c.maxRepairs, s.lost[dep]);
      LaunchedIsCounted(states[i].launches, dep);
    }
  }

  lemma LaunchedIsCounted(launches: seq<string>, id: string)
    ensures Count(launches, id) > 0 <==> id in launches
  {
  }

  /** Tasks each of which depends on another of them: the tasks of a dependency cycle, and all that wait on one.
      An unknown dependency waits for ever too. */
  ghost predicate Entangled(c: Config, ids: set<string>) {
    forall id :: id in ids && id in c.tasks ==> exists dep :: dep in c.tasks[id].dependsOn && (dep in ids || dep !in c.tasks)
  }

  /** Main result. Such tasks are never launched. */
  lemma CyclesNeverLaunch(c: Config, states: seq<State>, labels: seq<Label>, i: nat, ids: set<string>)
    requires Run(c, states, labels) && i <= |labels| && Entangled(c, ids)
    ensures forall id :: id in ids ==> id !in states[i].launches
  {
    hide Step, ViewOf, Count, TaskOk, PhaseOk, DependenciesMet;
    RunKeepsInv(c, states, labels, i);
    NoneLaunched(c, states[i].launches, ids, |states[i].launches|);
    assert states[i].launches[..|states[i].launches|] == states[i].launches;
  }

  lemma {:induction false} NoneLaunched(c: Config, launches: seq<string>, ids: set<string>, k: nat)
    requires Ordered(c, launches) && Entangled(c, ids) && k <= |launches|
    ensures forall id :: id in ids ==> id !in launches[..k]
  {
    if k > 0 {
      NoneLaunched(c, launches, ids, k - 1);
      assert launches[..k] == launches[..k - 1] + [launches[k - 1]];
    }
  }

  /** Why crashes count: resuming reclaims a dead attempt, as a failure, exactly when its claim was the first one.
      A task that dies under repair kept the status it failed with, and no failure is added for it. */
  lemma ReclaimedIffFirstClaim(c: Config, states: seq<State>, labels: seq<Label>, i: nat, id: string)
    requires Run(c, states, labels) && i < |labels| && labels[i].Crash? && id in states[i].flight
    ensures var up := Next(c, states[i + 1], Resume);
            && ViewOf(up.events, id) == ViewOf(states[i].events, id)
            && (id in up.phase.todo <==> StatusOf(states[i].events, id) == Claimed)
            && (id !in up.phase.todo ==> StatusOf(states[i].events, id) in {Open, Blocked, Rejected})
  {
    hide ViewOf, Count, PhaseOk, Ordered, DependenciesMet;
    RunKeepsInv(c, states, labels, i);
    assert Step(c, states[i], labels[i], states[i + 1]);
    var s := states[i];
    assert TaskOk(ViewOf(s.events, id), FlightOf(s, id), Count(s.launches, id), c.maxRepairs, s.lost[id]);
  }

  // ---- the bound is attained ----

  function Solo(maxRepairs: nat): Config { Config(map["a" := Task("r", [], 0)], ["r"], maxRepairs) }

  function LastState(states: seq<State>): State { if states == [] then START else states[|states| - 1] }

  /** The one task may be dispatched now: never touched, or failed with repairs left. */
  ghost predicate Ready(s: State, v: View, launches: nat, lost: nat, crashes: nat) {
    && s.phase.Top? && s.flight == map[] && ViewOf(s.events, "a") == v
    && (v == UNTOUCHED || (v.status == Blocked && v.claimedBy.Some?))
    && Count(s.launches, "a") == launches && s.lost["a"] == lost && s.crashes == crashes
  }

  lemma Extend(c: Config, states: seq<State>, labels: seq<Label>, l: Label) returns (ts: seq<State>, ls: seq<Label>)
    requires Run(c, states, labels) && Enabled(c, LastState(states), l)
    requires l.Select? ==> Selection(c.tasks, LastState(states).events, c.maxRepairs, c.roles, l.chosen)
    ensures Run(c, ts, ls) && LastState(ts) == Next(c, LastState(states), l) && states <= ts
  {
    hide Enabled, Next, Selection;
    var t := Next(c, LastState(states), l);
    ts, ls := states + [t], labels + [l];
    assert Step(c, LastState(states), l, t);
    forall i | 0 <= i < |ls| ensures Step(c, ts[i], ls[i], ts[i + 1]) {
      if i < |labels| { assert Step(c, states[i], labels[i], states[i + 1]); }
    }
  }

  lemma SoloSelection(maxRepairs: nat, events: seq<Event>)
    requires var v := ViewOf(events, "a"); v == UNTOUCHED || (v.status == Blocked && v.attempts <= maxRepairs)
    ensures Selection(Solo(maxRepairs).tasks, events, maxRepairs, ["r"], map["r" := "a"])
  {
    var tasks := Solo(maxRepairs).tasks;
    assert Eligible(tasks, events, maxRepairs, "a");
    assert BestFor(tasks, events, maxRepairs, "r", "a");
  }

  /** Select, claim, launch. */
  lemma Dispatch(n: nat, states: seq<State>, labels: seq<Label>, v: View, launches: nat, lost: nat, crashes: nat)
      returns (ts: seq<State>, ls: seq<Label>)
    requires Run(Solo(n), states, labels) && Ready(LastState(states), v, launches, lost, crashes) && v.attempts <= n
    ensures Run(Solo(n), ts, ls)
    ensures var t := LastState(ts);
            && t.phase.Dispatching? && t.flight == map["a" := Launched]
            && ViewOf(t.events, "a") == ApplyEvent(v, Event("r", "a", Claimed))
            && Count(t.launches, "a") == launches + 1 && t.lost["a"] == lost && t.crashes == crashes
  {
    hide Run, ViewOf, Count, Selection;
    var c, s := Solo(n), LastState(states);
    SoloSelection(n, s.events);
    ts, ls := Extend(c, states, labels, Select(map["r" := "a"]));
    assert map["r" := "a"]["r"] == "a" && map["r" := "a"].Values == {"a"};
    assert LastState(ts).flight == map["a" := Selected];
    ts, ls := Extend(c, ts, ls, Claim("a"));
    ViewOfMore(s.events, Event("r", "a", Claimed), "a");
    ts, ls := Extend(c, ts, ls, Launch("a"));
    CountMore(s.launches, "a", "a");
  }

  /** A repair that dies with the process: up again, nothing is reclaimed, and the task is as ready as before. */
  lemma DieRepairing(n: nat, states: seq<State>, labels: seq<Label>, v: View, launches: nat, lost: nat, crashes: nat)
      returns (ts: seq<State>, ls: seq<Label>)
    requires Run(Solo(n), states, labels) && Ready(LastState(states), v, launches, lost, crashes) && v.attempts <= n
    requires v.status == Blocked
    ensures Run(Solo(n), ts, ls) && Ready(LastState(ts), v, launches + 1, lost + 1, crashes + 1)
  {
    hide Run, ViewOf, Count;
    var c := Solo(n);
    ts, ls := Dispatch(n, states, labels, v, launches, lost, crashes);
    var s := LastState(ts);
    assert Repairing(s) == {"a"};
    ts, ls := Extend(c, ts, ls, Crash);
    ts, ls := Extend(c, ts, ls, Resume);
    assert InStatus(c.tasks, s.events, Claimed) == {};
    ts, ls := Extend(c, ts, ls, ReclaimDone);
  }

  /** An attempt that fails, and an iteration that ends with repairs left. */
  lemma FailOnce(n: nat, states: seq<State>, labels: seq<Label>, v: View, launches: nat, lost: nat, crashes: nat)
      returns (ts: seq<State>, ls: seq<Label>)
    requires Run(Solo(n), states, labels) && Ready(LastState(states), v, launches, lost, crashes) && v.attempts < n
    ensures Run(Solo(n), ts, ls)
    ensures Ready(LastState(ts), View(Blocked, if v.claimedBy.None? then Some("r") else v.claimedBy, v.attempts + 1),
                  launches + 1, lost, crashes)
  {
    hide Run, ViewOf, Count;
    var c := Solo(n);
    ts, ls := Dispatch(n, states, labels, v, launches, lost, crashes);
    ViewOfMore(LastState(ts).events, Event("r", "a", Blocked), "a");
    ts, ls := Extend(c, ts, ls, Fail("a"));
    var events := LastState(ts).events;
    ts, ls := Extend(c, ts, ls, Clear("a"));
    assert LastState(ts).flight == map[];
    ts, ls := Extend(c, ts, ls, DispatchDone);
    ts, ls := Extend(c, ts, ls, ReviewDone);
    assert OutOfRepairs(c.tasks, events, n) == {};
    ts, ls := Extend(c, ts, ls, EscalateDone);
  }

  lemma {:induction false} FailAndDie(n: nat, fails: nat, dies: nat)
      returns (ts: seq<State>, ls: seq<Label>, v: View)
    requires fails <= n && (dies > 0 ==> fails > 0)
    ensures Run(Solo(n), ts, ls) && Ready(LastState(ts), v, fails + dies, dies, dies) && v.attempts == fails
    ensures fails > 0 ==> v.status == Blocked
    decreases fails + dies
  {
    hide Run, Ready;
    if dies > 0 {
      ts, ls, v := FailAndDie(n, fails, dies - 1);
      ts, ls := DieRepairing(n, ts, ls, v, fails + dies - 1, dies - 1, dies - 1);
    } else if fails > 0 {
      ts, ls, v := FailAndDie(n, fails - 1, 0);
      ts, ls := FailOnce(n, ts, ls, v, fails - 1, 0, 0);
      v := View(Blocked, if v.claimedBy.None? then Some("r") else v.claimedBy, v.attempts + 1);
    } else {
      v := UNTOUCHED;
      ts, ls := FirstTop(n);
    }
  }

  lemma FirstTop(n: nat) returns (ts: seq<State>, ls: seq<Label>)
    ensures Run(Solo(n), ts, ls) && Ready(LastState(ts), UNTOUCHED, 0, 0, 0)
  {
    var c := Solo(n);
    ts, ls := Extend(c, [START], [], Resume);
    assert InStatus(c.tasks, [], Claimed) == {};
    ts, ls := Extend(c, ts, ls, ReclaimDone);
  }

  /** With repairs allowed the bound is attained, whatever the number of crashes: each of them buys one more launch of
      the same task. */
  lemma CrashesBuyLaunches(n: nat, crashes: nat) returns (ts: seq<State>, ls: seq<Label>)
    requires n > 0
    ensures Run(Solo(n), ts, ls) && LastState(ts).crashes == LastState(ts).lost["a"] == crashes
    ensures Count(LastState(ts).launches, "a") == 1 + n + crashes
  {
    hide Run, Count;
    var v: View;
    ts, ls, v := FailAndDie(n, n, crashes);
    ts, ls := Dispatch(n, ts, ls, v, n + crashes, crashes, crashes);
  }
}
