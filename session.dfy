/** The simulation session of App.tsx as one sequential object: the state
    the component keeps with `useState` (App.tsx:187-219), the mutation
    handlers (App.tsx:745-926), the dispatcher and the calendar, and the
    lifecycle operations (setup, reset, snapshots, load, import, save).
    The company part of the state is one `Company` value; every method
    states its new company as a step function of the old one, and the
    lemmas beside the step functions show that each keeps `Inv`.
    Every Math.random() is a parameter, every `Date.now()` id is the fresh
    counter `nextId`, and every `setTimeout` continuation is a method of
    its own that the caller runs when the timer would fire. */
module App {
  import opened Base
  import opened Calendar
  import opened Entities
  import opened Activities
  import opened DomainKnowledge
  import opened Engine
  import opened TaskBoard

  /** An activity chosen by `simulateAgentActivity` whose 500 ms timer has
      not fired yet. An agent with no activity table draws `undefined`: None. */
  datatype Pending = Pending(agent: Agent, activity: Option<Activity>)

  /** The draws of one iteration of `skipTime`'s loop. */
  datatype Round = Round(agent: Unit, trigger: Unit, eventPick: Unit, activityPick: Unit, after: MetricsDraw)

  /** A task template is never a bug: bug tasks come only from bug reports. */
  predicate Dispatchable(a: Activity) {
    !(a.TaskActivity? && a.taskType == BugTask)
  }

  /** The random event of `simulateAgentActivity` (App.tsx:624-630), if any. */
  function RandomEventFor(s: Settings, c: Option<ProjectConfig>, trigger: Unit, pick: Unit): (r: Option<string>)
    ensures r.Some? <==> s.enableRandomEvents && c.Some? && c.value.domain in Industries && trigger <= 0.1
    ensures r.Some? ==> r.value in DomainEvents(Industries[c.value.domain])
  {
    if s.enableRandomEvents && c.Some? then GetRandomEvent(c.value.domain, trigger, pick) else None
  }

  /** Rival `k` of the five `handleProjectSetup` seeds the market with (App.tsx:345-353). */
  function InitialCompetitor(k: nat): (r: Competitor)
    requires k < 5
  {
    if k == 0 then Competitor("comp-0", "TechCore Inc", 15.0, 75, None, Up)
    else if k == 1 then Competitor("comp-1", "InnovateLabs", 22.0, 85, Some("AI-powered analytics"), Up)
    else if k == 2 then Competitor("comp-2", "StartupBoost", 12.0, 65, None, Stable)
    else if k == 3 then Competitor("comp-3", "FastGrow Systems", 18.0, 72, None, Up)
    else Competitor("comp-4", "Legacy Solutions", 28.0, 55, None, Down)
  }

  function InitialCompetitors(): (r: seq<Competitor>)
    ensures |r| == 5
  {
    seq(5, k requires 0 <= k < 5 => InitialCompetitor(k))
  }

  /** News item `k` of the two a new project starts with (App.tsx:356-376). */
  function InitialMarketEvent(domain: string, k: nat): (r: MarketEvent)
    requires k < 2
    ensures r.impact == (if k == 0 then Positive else Negative)
  {
    if k == 0 then MarketEvent("1", TrendEvent, "Industry Growth Accelerating", domain + " market seeing 35% YoY growth", Positive, 8)
    else MarketEvent("2", CompetitorEvent, "Competitor Raises Series B", "InnovateLabs raised $50M, expanding aggressively", Negative, 6)
  }

  function InitialMarketEvents(domain: string): (r: seq<MarketEvent>)
    ensures |r| == 2 && r[0].impact == Positive && r[1].impact == Negative
  {
    seq(2, k requires 0 <= k < 2 => InitialMarketEvent(domain, k))
  }

  /** The kind of message a talking activity posts (App.tsx:653, 671, 677). */
  function PostKind(a: Activity): MessageType {
    match a
    case DecisionActivity(_) => DecisionMessage
    case FinancialActivity(_) => FinancialMessage
    case _ => ChatMessage
  }

  predicate Talks(a: Activity) {
    a.MessageActivity? || a.DecisionActivity? || a.FinancialActivity?
  }


  // ---- the values the handlers create ----

  /** The task `createTask` files: a backlog task under the fresh id,
      assigned to the agent the draw picks. */
  function NewTask(c: Company, agent: Agent, title: string, description: string, priority: Priority,
                   kind: TaskType, assignee: Unit): Task
    requires |c.agents| > 0
  {
    Task(c.nextId, title, description, c.agents[Pick(assignee, |c.agents|)].id, Backlog, agent.id, priority, kind)
  }

  /** The task `reportBug` files: a high-priority bug for the developer. */
  function BugReport(agent: Agent, pick: Unit, id: nat): Task {
    Task(id, BugTitle(Bug(Pick(pick, BugCount))), BugDescription, "developer", Backlog, agent.id, High, BugTask)
  }

  /** The PR `createPullRequest` opens, reviewed by QA and the CEO. */
  function NewPR(agent: Agent, pick: Unit, id: nat, d: CalDate): PullRequest {
    PullRequest(id, PrTitle(Pick(pick, PrTitleCount)), PrDescription, agent.id, Open, ["qa", "ceo"], d)
  }

  /** The document `createDocumentation` publishes, at version 1.0.0. */
  function NewDoc(agent: Agent, kind: DocType, title: string, id: nat, d: CalDate): Documentation {
    Documentation(id, DocTitle(title, kind), kind, DocContent(kind), agent.id, d, "1.0.0")
  }

  // ---- the handlers' changes to the company ----

  /** `completeRandomTask`: nothing without a pending task of the agent's. */
  function CompleteStep(c: Company, agentId: string, pick: Unit): Company {
    var cands := IncompleteFor(c.tasks, agentId);
    if |cands| == 0 then c else Complete(c, cands[Pick(pick, |cands|)].id, agentId)
  }

  /** `reviewPullRequest`: nothing without an open PR. */
  function ReviewStep(c: Company, pick: Unit, approve: Unit): Company {
    var open := OpenPRs(c.pullRequests);
    if |open| == 0 then c
    else Engine.Review(c, open[Pick(pick, |open|)].id, if approve > 0.3 then Approved else Open)
  }

  /** `executeActivity`: the handler for the activity's kind. */
  function ExecuteStep(c: Company, agent: Agent, activity: Activity, draws: ActivityDraws, d: CalDate): Company {
    match activity
    case TaskActivity(title, description, priority, kind) =>
      // on an empty team the assignee is `undefined` and reading its id throws
      if |c.agents| == 0 then c
      else AddTask(c, NewTask(c, agent, title, description, priority, kind, draws.assignee))
    case CompleteActivity => CompleteStep(c, agent.id, draws.pick)
    case BugActivity => FileBug(c, BugReport(agent, draws.pick, c.nextId))
    case PrActivity => AddPR(c, NewPR(agent, draws.pick, c.nextId, d))
    case ReviewActivity => ReviewStep(c, draws.pick, draws.approve)
    case DocumentationActivity(kind, title) => AddDoc(c, NewDoc(agent, kind, title, c.nextId, d))
    case _ => Later(c, 1)
  }

  /** `updateMetricsAndProgress`: growth only when the trigger draw is above 0.7. */
  function GrowStep(c: Company, g: MetricsDraw): Company {
    if g.trigger > 0.7 then Grow(c, g) else c
  }

  /** `simulateAgentActivity` up to its timer: a random event is one CEO
      message; otherwise the drawn agent starts thinking. On an empty team
      the drawn agent is `undefined` and `getAgentActivities` throws before
      anything changes. */
  function BeginStep(c: Company, ev: Option<string>, agentDraw: Unit): (r: Company)
    ensures AgentIds(r.agents) == AgentIds(c.agents)
  {
    if ev.Some? then Later(c, 1)
    else if |c.agents| == 0 then c
    else WithStatus(c, c.agents[Pick(agentDraw, |c.agents|)].id, Thinking)
  }

  /** One round of `skipTime`: an activity begins and the metrics may grow. */
  function SkipRoundStep(c: Company, s: Settings, cfg: Option<ProjectConfig>, r: Round): (n: Company)
    ensures AgentIds(n.agents) == AgentIds(c.agents)
  {
    GrowStep(BeginStep(c, RandomEventFor(s, cfg, r.trigger, r.eventPick), r.agent), r.after)
  }

  /** A started activity is defined exactly for a roster member, and then
      comes from its table. */
  predicate Startable(p: Pending) {
    && (p.activity.Some? <==> IsRosterId(p.agent.id))
    && (p.activity.Some? ==> Dispatchable(p.activity.value))
  }

  predicate AllStartable(ps: seq<Pending>) {
    forall j :: 0 <= j < |ps| ==> Startable(ps[j])
  }

  /** The rounds of `skipTime`, one after another. */
  function SkipRounds(c: Company, s: Settings, cfg: Option<ProjectConfig>, rounds: seq<Round>): (r: Company)
    ensures AgentIds(r.agents) == AgentIds(c.agents)
    decreases |rounds|
  {
    if rounds == [] then c
    else SkipRoundStep(SkipRounds(c, s, cfg, rounds[..|rounds| - 1]), s, cfg, rounds[|rounds| - 1])
  }

  /** The timer continuation: the agent is active, the activity runs, the
      metrics may grow. An `undefined` activity throws at `activity.type`
      once the agent is active again, and a task on an empty team throws in
      `createTask`; either way nothing else happens, growth included. */
  predicate Throws(c: Company, p: Pending) {
    p.activity.None? || (p.activity.value.TaskActivity? && |c.agents| == 0)
  }

  function FinishStep(c: Company, p: Pending, draws: ActivityDraws, g: MetricsDraw, d: CalDate): Company {
    var c1 := WithStatus(c, p.agent.id, Active);
    if Throws(c1, p) then c1
    else GrowStep(ExecuteStep(c1, p.agent, p.activity.value, draws, d), g)
  }

  /** The monthly report effect: a report for the date's month unless one exists. */
  function ReportStep(c: Company, d: CalDate, u: Unit): Company {
    if ReportDue(c.financialRecords, d) then File(c, MonthlyReport(MonthKey(d), c.metrics.revenue, u)) else c
  }

  // ---- each step keeps the invariant ----

  /** The drawn assignee of a new task is a roster agent. */
  lemma NewTaskOnRoster(c: Company, agent: Agent, title: string, description: string, priority: Priority,
                        kind: TaskType, assignee: Unit)
    requires Inv(c) && |c.agents| > 0
    ensures IsRosterId(NewTask(c, agent, title, description, priority, kind, assignee).assignedTo)
  {
    var i := Pick(assignee, |c.agents|);
    assert c.agents[i].id == AgentIds(c.agents)[i];
  }

  /** Completing a roster agent's task keeps the invariant. */
  lemma CompleteStepInv(c: Company, agentId: string, pick: Unit)
    requires Inv(c) && IsRosterId(agentId)
    ensures Inv(CompleteStep(c, agentId, pick))
  {
    var cands := IncompleteFor(c.tasks, agentId);
    if |cands| > 0 {
      IncompleteForMembers(c.tasks, agentId, Pick(pick, |cands|));
      CompleteInv(c, cands[Pick(pick, |cands|)], agentId);
    }
  }

  /** Reviewing keeps the invariant: the reviewed PR was open. */
  lemma ReviewStepInv(c: Company, pick: Unit, approve: Unit)
    requires Inv(c)
    ensures Inv(ReviewStep(c, pick, approve))
  {
    var open := OpenPRs(c.pullRequests);
    if |open| > 0 {
      OpenPRsMembers(c.pullRequests, Pick(pick, |open|));
      ReviewInv(c, open[Pick(pick, |open|)], approve > 0.3);
    }
  }

  /** Any dispatchable activity of a roster agent keeps the invariant. */
  lemma ExecuteStepInv(c: Company, agent: Agent, activity: Activity, draws: ActivityDraws, d: CalDate)
    requires Inv(c) && IsRosterId(agent.id) && Dispatchable(activity)
    ensures activity.TaskActivity? ==> |c.agents| > 0
    ensures Inv(ExecuteStep(c, agent, activity, draws, d))
  {
    assert |c.agents| == |AgentIds(c.agents)|;
    match activity
    case TaskActivity(title, description, priority, kind) =>
      AddTaskInv(c, NewTask(c, agent, title, description, priority, kind, draws.assignee));
    case CompleteActivity => CompleteStepInv(c, agent.id, draws.pick);
    case BugActivity => FileBugInv(c, BugReport(agent, draws.pick, c.nextId));
    case PrActivity => AddPRInv(c, NewPR(agent, draws.pick, c.nextId, d));
    case ReviewActivity => ReviewStepInv(c, draws.pick, draws.approve);
    case DocumentationActivity(kind, title) => AddDocInv(c, NewDoc(agent, kind, title, c.nextId, d));
    case _ => LaterInv(c, 1);
  }

  /** Growth, when it fires, keeps the invariant. */
  lemma GrowStepInv(c: Company, g: MetricsDraw)
    requires Inv(c)
    ensures Inv(GrowStep(c, g))
  {
    if g.trigger > 0.7 {
      GrowInv(c, g);
    }
  }

  /** Starting an activity keeps the invariant. */
  lemma SkipRoundStepInv(c: Company, s: Settings, cfg: Option<ProjectConfig>, r: Round)
    requires Inv(c)
    ensures Inv(SkipRoundStep(c, s, cfg, r))
  {
    var ev := RandomEventFor(s, cfg, r.trigger, r.eventPick);
    BeginStepInv(c, ev, r.agent);
    GrowStepInv(BeginStep(c, ev, r.agent), r.after);
  }

  /** Running one more round extends the run by that round. */
  lemma SkipRoundsSnoc(c: Company, s: Settings, cfg: Option<ProjectConfig>, rounds: seq<Round>, i: nat)
    requires i < |rounds|
    ensures SkipRounds(c, s, cfg, rounds[..i + 1]) == SkipRoundStep(SkipRounds(c, s, cfg, rounds[..i]), s, cfg, rounds[i])
  {
    assert rounds[..i + 1][..i] == rounds[..i];
  }

  lemma {:induction false} SkipRoundsInv(c: Company, s: Settings, cfg: Option<ProjectConfig>, rounds: seq<Round>)
    requires Inv(c)
    ensures Inv(SkipRounds(c, s, cfg, rounds))
    decreases |rounds|
  {
    if rounds != [] {
      var n := |rounds| - 1;
      SkipRoundsInv(c, s, cfg, rounds[..n]);
      SkipRoundStepInv(SkipRounds(c, s, cfg, rounds[..n]), s, cfg, rounds[n]);
    }
  }

  lemma BeginStepInv(c: Company, ev: Option<string>, agentDraw: Unit)
    requires Inv(c)
    ensures Inv(BeginStep(c, ev, agentDraw))
  {
    if ev.Some? {
      LaterInv(c, 1);
    } else if |c.agents| > 0 {
      StatusInv(c, c.agents[Pick(agentDraw, |c.agents|)].id, Thinking);
    }
  }

  /** Finishing a started activity keeps the invariant. */
  lemma FinishStepInv(c: Company, p: Pending, draws: ActivityDraws, g: MetricsDraw, d: CalDate)
    requires Inv(c) && Startable(p)
    ensures Inv(FinishStep(c, p, draws, g, d))
  {
    var c1 := WithStatus(c, p.agent.id, Active);
    StatusInv(c, p.agent.id, Active);
    if p.activity.Some? {
      ExecuteStepInv(c1, p.agent, p.activity.value, draws, d);
      GrowStepInv(ExecuteStep(c1, p.agent, p.activity.value, draws, d), g);
    }
  }

  /** The report effect keeps the invariant and leaves no report due that day. */
  lemma ReportStepInv(c: Company, d: CalDate, u: Unit)
    requires Inv(c)
    ensures Inv(ReportStep(c, d, u))
    ensures !ReportDue(ReportStep(c, d, u).financialRecords, d)
  {
    if ReportDue(c.financialRecords, d) {
      var r := MonthlyReport(MonthKey(d), c.metrics.revenue, u);
      FileInv(c, r);
      var rs := c.financialRecords + [r];
      assert rs[|rs| - 1].month == MonthKey(d);
    }
  }

  class Session {
    var config: Option<ProjectConfig>
    var settings: Settings
    var showSetup: bool
    var messages: seq<Message>
    var timeline: seq<TimelineEvent>
    var isSimulating: bool
    var speed: real
    var date: CalDate
    var currentSnapshotIndex: nat
    var competitors: seq<Competitor>
    var marketEvents: seq<MarketEvent>
    var marketShare: real
    var totalMarketSize: nat
    /** Agents, tasks, PRs, OKRs, documents, reports, progress, metrics,
        the snapshot history and the fresh-id counter. */
    var company: Company

    /** The ten fields a snapshot captures. */
    function Data(): (d: SnapshotData)
      reads this
    {
      SnapshotData(company.agents, company.tasks, messages, company.pullRequests, company.okrs,
        company.documentation, company.financialRecords, timeline, company.productProgress, company.metrics)
    }

    /** The fields the export file carries. */
    function LiveState(): (l: Live)
      reads this
    {
      Live(config, company.agents, company.tasks, messages, company.pullRequests, company.okrs,
        company.documentation, company.financialRecords, timeline, company.metrics, company.productProgress, date)
    }

    /** The counters agree with the collections, ids are fresh, and the
        snapshot history is made of consistent companies. */
    predicate Consistent()
      reads this
    {
      Inv(company)
    }

    /** The state on first render. */
    constructor()
      ensures config.None? && settings == DefaultSettings && showSetup
      ensures messages == [] && timeline == [] && !isSimulating && speed == 1.0 && date == StartDate
      ensures currentSnapshotIndex == 0 && competitors == [] && marketEvents == []
      ensures marketShare == 5.0 && totalMarketSize == 50000000
      ensures company == FirstCompany && Consistent()
    {
      config := None;
      settings := DefaultSettings;
      showSetup := true;
      messages := [];
      timeline := [];
      isSimulating := false;
      speed := 1.0;
      date := StartDate;
      currentSnapshotIndex := 0;
      competitors := [];
      marketEvents := [];
      marketShare := 5.0;
      totalMarketSize := 50000000;
      company := FirstCompany;
      FirstCompanyInv();
    }

    // ---- mutation handlers ----

    /** `addMessage` (App.tsx:745-760). */
    method AddMessage(agent: Agent, content: string, kind: MessageType)
      modifies this`messages, this`company
      ensures messages == old(messages) + [Message(old(company.nextId), agent.id, agent.name, content, date, kind)]
      ensures company == Later(old(company), 1)
    {
      messages := messages + [Message(company.nextId, agent.id, agent.name, content, date, kind)];
      company := Later(company, 1);
    }

    /** `createTask` (App.tsx:762-780). On an empty team the assignee is
        `undefined` and reading its id throws before anything changes. */
    method CreateTask(agent: Agent, title: string, description: string, priority: Priority, kind: TaskType, assignee: Unit)
      modifies this`messages, this`company
      ensures |old(company.agents)| == 0 ==> company == old(company) && messages == old(messages)
      ensures |old(company.agents)| > 0 ==>
        company == AddTask(old(company), NewTask(old(company), agent, title, description, priority, kind, assignee))
      ensures |old(company.agents)| > 0 ==>
        messages == old(messages) + [Message(old(company.nextId) + 1, agent.id, agent.name, CreatedTaskText(title), date, TaskMessage)]
    {
      if |company.agents| == 0 {
        return;
      }
      messages := messages + [Message(company.nextId + 1, agent.id, agent.name, CreatedTaskText(title), date, TaskMessage)];
      company := AddTask(company, NewTask(company, agent, title, description, priority, kind, assignee));
    }

    /** `reportBug` (App.tsx:805-829). */
    method ReportBug(agent: Agent, pick: Unit)
      modifies this`messages, this`company
      ensures company == FileBug(old(company), BugReport(agent, pick, old(company.nextId)))
      ensures messages == old(messages) +
        [Message(old(company.nextId) + 1, agent.id, agent.name, FoundBugText(Bug(Pick(pick, BugCount))), date, BugMessage)]
    {
      messages := messages + [Message(company.nextId + 1, agent.id, agent.name, FoundBugText(Bug(Pick(pick, BugCount))), date, BugMessage)];
      company := FileBug(company, BugReport(agent, pick, company.nextId));
    }

    /** `createPullRequest` (App.tsx:831-853). */
    method CreatePullRequest(agent: Agent, pick: Unit)
      modifies this`messages, this`company
      ensures company == AddPR(old(company), NewPR(agent, pick, old(company.nextId), date))
      ensures messages == old(messages) +
        [Message(old(company.nextId) + 1, agent.id, agent.name, OpenedPRText(PrTitle(Pick(pick, PrTitleCount))), date, PrMessage)]
    {
      messages := messages + [Message(company.nextId + 1, agent.id, agent.name, OpenedPRText(PrTitle(Pick(pick, PrTitleCount))), date, PrMessage)];
      company := AddPR(company, NewPR(agent, pick, company.nextId, date));
    }

    /** `createDocumentation` (App.tsx:782-803). */
    method CreateDocumentation(agent: Agent, kind: DocType, title: string)
      modifies this`messages, this`company
      ensures company == AddDoc(old(company), NewDoc(agent, kind, title, old(company.nextId), date))
      ensures messages == old(messages) +
        [Message(old(company.nextId) + 1, agent.id, agent.name, PublishedText(DocTitle(title, kind)), date, DocumentationMessage)]
    {
      messages := messages + [Message(company.nextId + 1, agent.id, agent.name, PublishedText(DocTitle(title, kind)), date, DocumentationMessage)];
      company := AddDoc(company, NewDoc(agent, kind, title, company.nextId, date));
    }

    /** `reviewPullRequest` (App.tsx:855-871): one open PR is approved (draw
        above 0.3) or commented on; an approved PR is handed to the merge
        timer when the second draw is above 0.5. */
    method ReviewPullRequest(agent: Agent, pick: Unit, approve: Unit, merge: Unit) returns (toMerge: Option<nat>)
      modifies this`messages, this`company
      ensures company == ReviewStep(old(company), pick, approve)
      ensures var open := OpenPRs(old(company.pullRequests));
        && (|open| == 0 ==> messages == old(messages) && toMerge.None?)
        && (|open| > 0 ==>
              var pr := open[Pick(pick, |open|)];
              && messages == old(messages) + [Message(old(company.nextId), agent.id, agent.name, ReviewText(approve > 0.3, pr.title), date, PrMessage)]
              && toMerge == (if approve > 0.3 && merge > 0.5 then Some(pr.id) else None))
      ensures toMerge.Some? ==>
        exists k :: 0 <= k < |company.pullRequests| && company.pullRequests[k].id == toMerge.value &&
          company.pullRequests[k].status == Approved
    {
      var open := OpenPRs(company.pullRequests);
      if |open| == 0 {
        return None;
      }
      var j := Pick(pick, |open|);
      var pr := open[j];
      OpenPRsMembers(company.pullRequests, j);
      ghost var k :| 0 <= k < |company.pullRequests| && company.pullRequests[k] == pr;
      var approved := approve > 0.3;
      messages := messages + [Message(company.nextId, agent.id, agent.name, ReviewText(approved, pr.title), date, PrMessage)];
      company := Engine.Review(company, pr.id, if approved then Approved else Open);
      assert company.pullRequests[k].id == pr.id;
      toMerge := if approved && merge > 0.5 then Some(pr.id) else None;
    }

    /** `mergePullRequest` (App.tsx:873-878), the timer continuation of a
        review, for a PR that is still approved. */
    method MergePullRequest(id: nat)
      requires exists k :: (0 <= k < |company.pullRequests| && company.pullRequests[k].id == id &&
        company.pullRequests[k].status == Approved)
      modifies this`company
      ensures company == Merge(old(company), id)
    {
      company := Merge(company, id);
    }

    /** `completeRandomTask` (App.tsx:880-895). */
    method CompleteRandomTask(agent: Agent, pick: Unit)
      modifies this`messages, this`company
      ensures company == CompleteStep(old(company), agent.id, pick)
      ensures var cands := IncompleteFor(old(company.tasks), agent.id);
        && (|cands| == 0 ==> messages == old(messages))
        && (|cands| > 0 ==>
              messages == old(messages) +
                [Message(old(company.nextId), agent.id, agent.name, CompletedText(cands[Pick(pick, |cands|)].title), date, TaskMessage)])
    {
      var cands := IncompleteFor(company.tasks, agent.id);
      if |cands| == 0 {
        return;
      }
      var t := cands[Pick(pick, |cands|)];
      messages := messages + [Message(company.nextId, agent.id, agent.name, CompletedText(t.title), date, TaskMessage)];
      company := Complete(company, t.id, agent.id);
    }

    /** `updateTaskStatus` (App.tsx:897-899). */
    method UpdateTaskStatus(id: nat, st: TaskStatus)
      modifies this`company
      ensures company == MoveTask(old(company), id, st)
    {
      company := MoveTask(company, id, st);
    }

    /** A click on a task card (TaskBoard.tsx:100-106): the task moves one
        column to the right; a done task stays. */
    method ClickTask(t: Task)
      modifies this`company
      ensures company == if NextStatus(t.status).Some? then MoveTask(old(company), t.id, NextStatus(t.status).value)
        else old(company)
    {
      var next := NextStatus(t.status);
      if next.Some? {
        UpdateTaskStatus(t.id, next.value);
      }
    }

    /** `updateMetricsAndProgress` (App.tsx:901-917). */
    method UpdateMetricsAndProgress(g: MetricsDraw)
      modifies this`company
      ensures company == GrowStep(old(company), g)
    {
      if g.trigger > 0.7 {
        company := Grow(company, g);
      }
    }

    /** `addTimelineEvent` (App.tsx:919-926): dated with the current day. */
    method AddTimelineEvent(title: string, description: string, kind: EventType, impact: Impact)
      modifies this`timeline, this`company
      ensures timeline == old(timeline) + [TimelineEvent(old(company.nextId), date, title, description, kind, impact)]
      ensures company == Later(old(company), 1)
    {
      timeline := timeline + [TimelineEvent(company.nextId, date, title, description, kind, impact)];
      company := Later(company, 1);
    }

    // ---- dispatch ----

    /** `executeActivity` (App.tsx:650-680). */
    method Execute(agent: Agent, activity: Activity, draws: ActivityDraws) returns (toMerge: Option<nat>)
      modifies this`messages, this`company
      ensures company == ExecuteStep(old(company), agent, activity, draws, date)
      ensures Talks(activity) ==>
        messages == old(messages) + [Message(old(company.nextId), agent.id, agent.name, activity.content, date, PostKind(activity))]
      ensures old(|messages|) <= |messages| <= old(|messages|) + 1 && messages[..old(|messages|)] == old(messages)
      ensures !activity.ReviewActivity? ==> toMerge.None?
      ensures toMerge.Some? ==>
        exists k :: 0 <= k < |company.pullRequests| && company.pullRequests[k].id == toMerge.value &&
          company.pullRequests[k].status == Approved
    {
      toMerge := None;
      match activity
      case MessageActivity(content) =>
        AddMessage(agent, content, ChatMessage);
      case TaskActivity(title, description, priority, taskType) =>
        CreateTask(agent, title, description, priority, taskType, draws.assignee);
      case CompleteActivity =>
        CompleteRandomTask(agent, draws.pick);
      case BugActivity =>
        ReportBug(agent, draws.pick);
      case PrActivity =>
        CreatePullRequest(agent, draws.pick);
      case ReviewActivity =>
        toMerge := ReviewPullRequest(agent, draws.pick, draws.approve, draws.merge);
      case DecisionActivity(content) =>
        AddMessage(agent, content, DecisionMessage);
      case DocumentationActivity(docType, title) =>
        CreateDocumentation(agent, docType, title);
      case FinancialActivity(content) =>
        AddMessage(agent, content, FinancialMessage);
    }

    /** `simulateAgentActivity` up to its timer (App.tsx:621-648): a random
        event makes the CEO post a decision; otherwise the drawn agent picks
        an activity from its table and starts thinking. On an empty team
        without an event nothing happens (the drawn agent is `undefined`
        and `getAgentActivities` throws); an agent off the roster has an
        empty table, draws `undefined` and still starts thinking. */
    method BeginActivity(agentDraw: Unit, trigger: Unit, eventPick: Unit, activityPick: Unit) returns (p: Option<Pending>)
      modifies this`messages, this`company
      ensures var ev := RandomEventFor(settings, config, trigger, eventPick);
        company == BeginStep(old(company), ev, agentDraw)
      ensures var ev := RandomEventFor(settings, config, trigger, eventPick);
        ev.Some? ==> p.None? && messages == old(messages) + [Message(old(company.nextId), Ceo.id, Ceo.name, ev.value, date, DecisionMessage)]
      ensures RandomEventFor(settings, config, trigger, eventPick).None? && |old(company.agents)| == 0 ==>
        p.None? && messages == old(messages)
      ensures RandomEventFor(settings, config, trigger, eventPick).None? && |old(company.agents)| > 0 ==>
        var agent := old(company.agents)[Pick(agentDraw, |old(company.agents)|)];
        && messages == old(messages)
        && p == Some(Pending(agent, if IsRosterId(agent.id) then Some(GetAgentActivities(agent.id)[Pick(activityPick, 6)]) else None))
      ensures p.Some? ==> Startable(p.value)
    {
      var ev := RandomEventFor(settings, config, trigger, eventPick);
      if ev.Some? {
        AddMessage(Ceo, ev.value, DecisionMessage);
        return None;
      }
      if |company.agents| == 0 {
        return None;
      }
      var agent := company.agents[Pick(agentDraw, |company.agents|)];
      var activities := GetAgentActivities(agent.id);
      var i := Pick(activityPick, |activities|);
      company := WithStatus(company, agent.id, Thinking);
      if i < |activities| {
        if activities[i].TaskActivity? {
          TaskActivitiesAreNotBugs(agent.id, i);
        }
        p := Some(Pending(agent, Some(activities[i])));
      } else {
        p := Some(Pending(agent, None));
      }
    }

    /** The timer continuation of `simulateAgentActivity` (App.tsx:640-647):
        the agent is active again, the activity runs, and the metrics may grow. */
    method FinishActivity(p: Pending, draws: ActivityDraws, g: MetricsDraw) returns (toMerge: Option<nat>)
      modifies this`messages, this`company
      ensures company == FinishStep(old(company), p, draws, g, date)
      ensures Throws(old(company), p) ==> messages == old(messages) && company == WithStatus(old(company), p.agent.id, Active)
      ensures !(p.activity.Some? && p.activity.value.ReviewActivity?) ==> toMerge.None?
    {
      company := WithStatus(company, p.agent.id, Active);
      if Throws(company, p) {
        return None;
      }
      toMerge := Execute(p.agent, p.activity.value, draws);
      UpdateMetricsAndProgress(g);
    }

    // ---- the calendar ----

    /** `advanceTime` (App.tsx:525-531). */
    method AdvanceTime()
      modifies this`date
      ensures date == NextDay(old(date))
      ensures DayNumber(date) == DayNumber(old(date)) + 1
    {
      date := NextDay(date);
    }

    /** One round of the `skipTime` loop (App.tsx:535-538). */
    method SkipRound(r: Round) returns (p: Option<Pending>)
      modifies this`messages, this`company
      ensures company == SkipRoundStep(old(company), settings, config, r)
      ensures p.Some? ==> Startable(p.value)
    {
      p := BeginActivity(r.agent, r.trigger, r.eventPick, r.activityPick);
      UpdateMetricsAndProgress(r.after);
    }

    /** The loop of `skipTime`: one round per draw, collecting the started activities. */
    method RunRounds(rounds: seq<Round>) returns (pending: seq<Pending>)
      modifies this`messages, this`company
      ensures company == SkipRounds(old(company), settings, config, rounds)
      ensures |pending| <= |rounds|
      ensures AllStartable(pending)
    {
      pending := [];
      var i := 0;
      while i < |rounds|
        invariant 0 <= i <= |rounds|
        invariant |pending| <= i
        invariant company == SkipRounds(old(company), settings, config, rounds[..i])
        invariant AllStartable(pending)
      {
        var p := SkipRound(rounds[i]);
        SkipRoundsSnoc(old(company), settings, config, rounds, i);
        if p.Some? {
          pending := pending + [p.value];
        }
        i := i + 1;
      }
      assert rounds[..i] == rounds;
    }

    /** `skipTime` (App.tsx:533-552): `days / 2` rounds of activity start and
        growth, then the date jumps by `days` and one milestone is logged
        under the date the skip started from. `rounds` holds each round's
        draws; the started activities are returned for their timers to finish. */
    method SkipTime(days: nat, rounds: seq<Round>) returns (pending: seq<Pending>)
      requires |rounds| == days / 2
      modifies this`messages, this`company, this`timeline, this`date
      ensures var skipped := SkipRounds(old(company), settings, config, rounds);
        company == Later(skipped, 1) &&
        timeline == old(timeline) + [TimelineEvent(skipped.nextId, old(date), SkippedTitle(days), SkippedText(days), Milestone, MediumImpact)]
      ensures date == AddDays(old(date), days) && DayNumber(date) == DayNumber(old(date)) + days
      ensures |pending| <= days / 2
      ensures AllStartable(pending)
    {
      pending := RunRounds(rounds);
      var start := date;
      AddTimelineEvent(SkippedTitle(days), SkippedText(days), Milestone, MediumImpact);
      date := AddDays(start, days);
      AddDaysCounts(start, days);
    }

    /** The monthly report effect (App.tsx:554-561, 597-619). */
    method CheckMonthlyReport(u: Unit) returns (filed: bool)
      modifies this`company
      ensures filed <==> ReportDue(old(company.financialRecords), date)
      ensures company == ReportStep(old(company), date, u)
    {
      filed := ReportDue(company.financialRecords, date);
      if filed {
        company := File(company, MonthlyReport(MonthKey(date), company.metrics.revenue, u));
      }
    }

    /** `conductSprintMeeting` up to its timer (App.tsx:570-578): everyone
        meets, the CEO announces it, and the run pauses if so configured. */
    method ConductSprintMeeting()
      modifies this`messages, this`company, this`isSimulating
      ensures company == Later(WithAllStatus(old(company), InMeeting), 1)
      ensures messages == old(messages) + [Message(old(company.nextId), Ceo.id, Ceo.name, SprintPlanningText, date, MeetingMessage)]
      ensures isSimulating == (old(isSimulating) && !settings.pauseOnMilestone)
    {
      company := WithAllStatus(company, InMeeting);
      AddMessage(Ceo, SprintPlanningText, MeetingMessage);
      if settings.pauseOnMilestone {
        isSimulating := false;
      }
    }

    /** The sprint effect (App.tsx:563-568): a meeting every 14th day of the year while running. */
    method CheckSprint() returns (held: bool)
      modifies this`messages, this`company, this`isSimulating
      ensures held <==> SprintDay(date) && old(isSimulating)
      ensures held ==> company == Later(WithAllStatus(old(company), InMeeting), 1)
      ensures !held ==> company == old(company) && messages == old(messages) && isSimulating == old(isSimulating)
    {
      held := SprintDay(date) && isSimulating;
      if held {
        ConductSprintMeeting();
      }
    }

    /** The meeting's timer continuation (App.tsx:580-594): one drawn agent
        comments and everyone is active again. On an empty team the drawn
        agent is `undefined` and `addMessage` throws before anything changes. */
    method FinishSprintMeeting(agentPick: Unit, commentPick: Unit)
      modifies this`messages, this`company
      ensures |old(company.agents)| == 0 ==> messages == old(messages) && company == old(company)
      ensures |old(company.agents)| > 0 ==>
        var a := old(company.agents)[Pick(agentPick, |old(company.agents)|)];
        messages == old(messages) +
          [Message(old(company.nextId), a.id, a.name, MeetingComment(Pick(commentPick, MeetingCommentCount)), date, MeetingMessage)]
      ensures |old(company.agents)| > 0 ==> company == WithAllStatus(Later(old(company), 1), Active)
    {
      if |company.agents| == 0 {
        return;
      }
      var a := company.agents[Pick(agentPick, |company.agents|)];
      AddMessage(a, MeetingComment(Pick(commentPick, MeetingCommentCount)), MeetingMessage);
      company := WithAllStatus(company, Active);
    }

    // ---- lifecycle ----

    /** `startSimulation` (App.tsx:928-931). */
    method Start()
      modifies this`isSimulating, this`messages, this`company
      ensures isSimulating && company == Later(old(company), 1)
      ensures messages == old(messages) + [Message(old(company.nextId), Ceo.id, Ceo.name, StartText(config), date, DecisionMessage)]
    {
      isSimulating := true;
      AddMessage(Ceo, StartText(config), DecisionMessage);
    }

    /** `stopSimulation` (App.tsx:933-935). */
    method Stop()
      modifies this`isSimulating
      ensures !isSimulating
    {
      isSimulating := false;
    }

    /** The speed buttons (`onSpeedChange`). */
    method SetSpeed(s: real)
      modifies this`speed
      ensures speed == s
    {
      speed := s;
    }

    /** `onSettingsChange`. */
    method UpdateSettings(s: Settings)
      modifies this`settings
      ensures settings == s
    {
      settings := s;
    }

    /** `handleProjectSetup` (App.tsx:338-419): the domain's OKRs, the seeded
        market, the initial snapshot as the whole history, and a "Founded"
        milestone. The rest of the company is left as it is. */
    method ProjectSetup(c: ProjectConfig)
      modifies this`config, this`showSetup, this`competitors, this`marketEvents, this`timeline, this`company
      ensures config == Some(c) && !showSetup
      ensures company == Setup(old(company), GetOKRsForDomain(c.domain))
      ensures competitors == InitialCompetitors() && marketEvents == InitialMarketEvents(c.domain)
      ensures timeline == old(timeline) +
        [TimelineEvent(old(company.nextId), date, FoundedTitle(c.projectName), FoundedText(c), Milestone, HighImpact)]
    {
      config := Some(c);
      showSetup := false;
      competitors := InitialCompetitors();
      marketEvents := InitialMarketEvents(c.domain);
      timeline := timeline + [TimelineEvent(company.nextId, date, FoundedTitle(c.projectName), FoundedText(c), Milestone, HighImpact)];
      company := Setup(company, GetOKRsForDomain(c.domain));
    }

    /** `resetSimulation` (App.tsx:937-962): the initial roster with no work on 2025-01-01;
        the OKRs, the snapshots and the market are kept. */
    method Reset()
      modifies this`isSimulating, this`showSetup, this`config, this`messages, this`timeline
      modifies this`date, this`speed, this`company
      ensures !isSimulating && showSetup && config.None?
      ensures messages == [] && timeline == [] && date == StartDate && speed == settings.defaultSpeed
      ensures company == Cleared(old(company))
    {
      isSimulating := false;
      showSetup := true;
      config := None;
      messages := [];
      timeline := [];
      date := StartDate;
      speed := settings.defaultSpeed;
      company := Cleared(company);
    }

    /** `onRestoreSnapshot` (App.tsx:1213-1226): the ten data fields are
        overwritten; the date and the history are not. */
    method RestoreSnapshot(s: Snapshot)
      modifies this`messages, this`timeline, this`company
      ensures Data() == s.data
      ensures company == Restored(old(company), s)
    {
      messages := s.data.messages;
      timeline := s.data.timeline;
      company := Restored(company, s);
    }

    /** `onCreateBranch` (App.tsx:1227-1237): a labelled copy of the snapshot
        under a fresh id, pointing back at it. */
    method CreateBranch(s: Snapshot, name: string)
      modifies this`company
      ensures company == Branched(old(company), s, name)
    {
      company := Branched(company, s, name);
    }

    /** `handleLoadSimulation` (App.tsx:315-336): a missing list falls back to
        its initial value; the project gets a 6-month duration and no description. */
    method LoadSimulation(sim: LoadedSimulation)
      modifies this`config, this`date, this`messages, this`timeline, this`showSetup, this`company
      ensures config == Some(ProjectConfig(sim.projectName, sim.domain, 6, ""))
      ensures date == sim.currentDate && !showSetup
      ensures messages == sim.messages.GetOr([]) && timeline == sim.timeline.GetOr([])
      ensures company == Company(sim.agents.GetOr(InitialAgents()), sim.tasks.GetOr([]), sim.pullRequests.GetOr([]),
        sim.okrs.GetOr([]), sim.documentation.GetOr([]), sim.financialRecords.GetOr([]),
        sim.productProgress, sim.metrics, old(company.snapshots), old(company.nextId))
    {
      config := Some(ProjectConfig(sim.projectName, sim.domain, 6, ""));
      date := sim.currentDate;
      messages := sim.messages.GetOr([]);
      timeline := sim.timeline.GetOr([]);
      showSetup := false;
      company := Company(sim.agents.GetOr(InitialAgents()), sim.tasks.GetOr([]), sim.pullRequests.GetOr([]),
        sim.okrs.GetOr([]), sim.documentation.GetOr([]), sim.financialRecords.GetOr([]),
        sim.productProgress, sim.metrics, company.snapshots, company.nextId);
    }

    /** `onImportData` (App.tsx:1262-1275): every field the file carries is
        written back (a progress of 0 included). */
    method ImportData(p: ImportPayload)
      modifies this`config, this`messages, this`timeline, this`date, this`company
      ensures LiveState() == ApplyImport(old(LiveState()), p)
      ensures company.snapshots == old(company.snapshots) && company.nextId == old(company.nextId)
    {
      var l := ApplyImport(LiveState(), p);
      config := l.projectConfig;
      messages := l.messages;
      timeline := l.timeline;
      date := l.currentDate;
      company := company.(agents := l.agents, tasks := l.tasks, pullRequests := l.pullRequests, okrs := l.okrs,
        documentation := l.documentation, financialRecords := l.financialRecords,
        productProgress := l.productProgress, metrics := l.metrics);
    }

    /** The body `handleSaveSimulation` posts (App.tsx:272-292): nothing
        without a signed-in user and a project; the whole state with only
        the last 50 messages. `signedIn` stands for the source's test
        `user && accessToken && projectId` (App.tsx:271). */
    function SavePayload(stamp: string, signedIn: bool): (r: Option<SavedSimulation>)
      reads this
      ensures r.Some? <==> signedIn && config.Some?
      ensures r.Some? ==>
        && r.value.id == stamp && r.value.projectName == config.value.projectName
        && r.value.domain == config.value.domain && r.value.currentDate == date
        && r.value.tasks == company.tasks && r.value.agents == company.agents && r.value.metrics == company.metrics
        && |r.value.messages| == (if |messages| <= 50 then |messages| else 50)
        && messages == messages[..|messages| - |r.value.messages|] + r.value.messages
      ensures r.Some? ==>
        && r.value.productProgress == company.productProgress && r.value.pullRequests == company.pullRequests
        && r.value.okrs == company.okrs && r.value.documentation == company.documentation
        && r.value.financialRecords == company.financialRecords && r.value.timeline == timeline
    {
      if !signedIn || config.None? then None
      else Some(SavedSimulation(stamp, config.value.projectName, config.value.domain, date,
        company.productProgress, company.metrics, company.agents, LastN(messages, 50), company.tasks,
        company.pullRequests, company.okrs, company.documentation, company.financialRecords, timeline))
    }
  }
}
