/** The records the simulated company is made of (App.tsx:34-110 and the
    snapshot record of TimeTravel.tsx:9-28), the seven-member roster, and
    the counting functions the session's invariants are written with. */
module Entities {
  import opened Base
  import opened Calendar

  datatype AgentStatus = Active | Idle | Thinking | InMeeting

  datatype Agent = Agent(
    id: string, name: string, role: string, avatar: string,
    status: AgentStatus, personality: string, tasksCompleted: nat)

  datatype MessageType =
    | ChatMessage | TaskMessage | DecisionMessage | BugMessage | PrMessage
    | MeetingMessage | DocumentationMessage | FinancialMessage

  /** A chat line; `id` is the session's fresh counter at the time it was posted. */
  datatype Message = Message(
    id: nat, agentId: string, agentName: string, content: string,
    timestamp: CalDate, kind: MessageType)

  datatype TaskStatus = Backlog | InProgress | Review | Done

  datatype Priority = Low | Medium | High

  datatype TaskType =
    | FeatureTask | BugTask | DesignTask | MarketingTask | PlanningTask
    | DocumentationTask | FinancialTask

  datatype Task = Task(
    id: nat, title: string, description: string, assignedTo: string,
    status: TaskStatus, createdBy: string, priority: Priority, kind: TaskType)

  datatype PRStatus = Open | Approved | Merged | Rejected

  datatype PullRequest = PullRequest(
    id: nat, title: string, description: string, author: string,
    status: PRStatus, reviewers: seq<string>, createdAt: CalDate)

  datatype OKR = OKR(
    id: string, objective: string, keyResults: seq<string>, progress: real, owner: string)

  datatype DocType = ApiDocs | UserGuide | TechnicalDocs | OnboardingDocs

  datatype Documentation = Documentation(
    id: nat, title: string, kind: DocType, content: string, author: string,
    lastUpdated: CalDate, version: string)

  datatype FinancialRecord = FinancialRecord(
    month: string, revenue: int, expenses: int, profit: int, runway: int,
    arr: int, mrr: int, burnRate: int)

  datatype EventType = Milestone | FeatureEvent | Hire | Funding | Launch

  datatype Impact = HighImpact | MediumImpact | LowImpact

  datatype TimelineEvent = TimelineEvent(
    id: nat, date: CalDate, title: string, description: string,
    kind: EventType, impact: Impact)

  /** The aggregate counters shown on the dashboard. */
  datatype Metrics = Metrics(
    tasksCompleted: nat, features: nat, bugs: nat, prsOpened: nat, prsMerged: nat,
    users: nat, revenue: nat, testCoverage: real, docsPages: nat)

  const ZeroMetrics: Metrics := Metrics(0, 0, 0, 0, 0, 0, 0, 0.0, 0)

  /** The ten fields a snapshot captures and a restore writes back. */
  datatype SnapshotData = SnapshotData(
    agents: seq<Agent>, tasks: seq<Task>, messages: seq<Message>,
    pullRequests: seq<PullRequest>, okrs: seq<OKR>, documentation: seq<Documentation>,
    financialRecords: seq<FinancialRecord>, timeline: seq<TimelineEvent>,
    productProgress: real, metrics: Metrics)

  /** A snapshot id: the setup's "snapshot-0", or a branch's `Date.now()`
      stamp, here the session's fresh counter. */
  datatype SnapshotId = InitialSnapshot | Stamp(n: nat)

  datatype Snapshot = Snapshot(
    id: SnapshotId, name: string, simulationDay: nat, data: SnapshotData,
    isBranch: bool, parentId: Option<SnapshotId>)

  datatype ProjectConfig = ProjectConfig(
    projectName: string, domain: string, duration: int, description: string)

  datatype Trend = Up | Down | Stable

  /** A rival in the market view (MarketSimulation.tsx:7-14). */
  datatype Competitor = Competitor(
    id: string, name: string, marketShare: real, strength: int,
    recentLaunch: Option<string>, trend: Trend)

  datatype MarketEventType = TrendEvent | CompetitorEvent | CrisisEvent | OpportunityEvent

  datatype MarketImpact = Positive | Negative | Neutral

  /** A market news item (MarketSimulation.tsx:16-24); its wall-clock `date` is not modelled. */
  datatype MarketEvent = MarketEvent(
    id: string, kind: MarketEventType, title: string, description: string,
    impact: MarketImpact, severity: int)

  /** The body `handleSaveSimulation` posts (App.tsx:277-292). */
  datatype SavedSimulation = SavedSimulation(
    id: string, projectName: string, domain: string, currentDate: CalDate,
    productProgress: real, metrics: Metrics, agents: seq<Agent>, messages: seq<Message>,
    tasks: seq<Task>, pullRequests: seq<PullRequest>, okrs: seq<OKR>,
    documentation: seq<Documentation>, financialRecords: seq<FinancialRecord>,
    timeline: seq<TimelineEvent>)

  /** A saved simulation as `handleLoadSimulation` receives it: the lists it
      guards with `||` may be missing. */
  datatype LoadedSimulation = LoadedSimulation(
    projectName: string, domain: string, currentDate: CalDate,
    productProgress: real, metrics: Metrics, agents: Option<seq<Agent>>,
    messages: Option<seq<Message>>, tasks: Option<seq<Task>>,
    pullRequests: Option<seq<PullRequest>>, okrs: Option<seq<OKR>>,
    documentation: Option<seq<Documentation>>,
    financialRecords: Option<seq<FinancialRecord>>, timeline: Option<seq<TimelineEvent>>)

  /** A parsed import file: every field may be missing. */
  datatype ImportPayload = ImportPayload(
    projectConfig: Option<ProjectConfig>, agents: Option<seq<Agent>>,
    tasks: Option<seq<Task>>, messages: Option<seq<Message>>,
    pullRequests: Option<seq<PullRequest>>, okrs: Option<seq<OKR>>,
    documentation: Option<seq<Documentation>>,
    financialRecords: Option<seq<FinancialRecord>>, timeline: Option<seq<TimelineEvent>>,
    metrics: Option<Metrics>, productProgress: Option<real>, currentDate: Option<CalDate>)

  datatype Frequency = HighFrequency | MediumFrequency | LowFrequency

  /** The user settings the engine reads. */
  datatype Settings = Settings(
    activityFrequency: Frequency, enableRandomEvents: bool,
    pauseOnMilestone: bool, defaultSpeed: real)

  /** `defaultSettings` of SettingsModal.tsx, restricted to the fields above. */
  const DefaultSettings: Settings := Settings(MediumFrequency, true, false, 1.0)

  // ---- the roster ----

  const RosterIds: seq<string> := ["ceo", "developer", "designer", "marketer", "qa", "docs", "cfo"]

  predicate IsRosterId(id: string) {
    id in RosterIds
  }

  /** The seven roles, one per roster id. */
  datatype Role = CeoRole | DeveloperRole | DesignerRole | MarketerRole | QaRole | DocsRole | CfoRole

  function RoleId(r: Role): (id: string)
    ensures IsRosterId(id)
  {
    match r
    case CeoRole => "ceo"
    case DeveloperRole => "developer"
    case DesignerRole => "designer"
    case MarketerRole => "marketer"
    case QaRole => "qa"
    case DocsRole => "docs"
    case CfoRole => "cfo"
  }

  /** The role an agent id names, if any. */
  function RoleOf(id: string): (r: Option<Role>)
    ensures r.Some? <==> IsRosterId(id)
    ensures r.Some? ==> RoleId(r.value) == id
  {
    if id == "ceo" then Some(CeoRole)
    else if id == "developer" then Some(DeveloperRole)
    else if id == "designer" then Some(DesignerRole)
    else if id == "marketer" then Some(MarketerRole)
    else if id == "qa" then Some(QaRole)
    else if id == "docs" then Some(DocsRole)
    else if id == "cfo" then Some(CfoRole)
    else None
  }

  /** Entry `k` of `initialAgents` (App.tsx:112-176): the roster member at
      position `k`, active and with nothing completed yet. */
  function InitialAgent(k: nat): (a: Agent)
    requires k < |RosterIds|
    ensures a.id == RosterIds[k] && a.status == Active && a.tasksCompleted == 0
  {
    if k == 0 then
      Agent("ceo", "Alex Chen", "CEO", "👔", Active,
        "Strategic visionary, drives product direction", 0)
    else if k == 1 then
      Agent("developer", "Sam Rodriguez", "Lead Developer", "💻", Active,
        "Tech-savvy problem solver, builds features", 0)
    else if k == 2 then
      Agent("designer", "Maya Patel", "UX Designer", "🎨", Active,
        "User-focused creative, designs experiences", 0)
    else if k == 3 then
      Agent("marketer", "Jordan Kim", "Marketing Lead", "📱", Active,
        "Growth hacker, builds audience & brand", 0)
    else if k == 4 then
      Agent("qa", "Taylor Swift", "QA Engineer", "🧪", Active,
        "Quality guardian, ensures reliability", 0)
    else if k == 5 then
      Agent("docs", "Riley Morgan", "Documentation Lead", "📚", Active,
        "Clear communicator, makes complex simple", 0)
    else
      Agent("cfo", "Casey Lin", "CFO", "💰", Active,
        "Financial strategist, manages growth & runway", 0)
  }

  /** `initialAgents`: the whole roster in order. */
  function InitialAgents(): (r: seq<Agent>)
    ensures |r| == |RosterIds|
    ensures forall k :: 0 <= k < |RosterIds| ==> r[k] == InitialAgent(k)
  {
    seq(|RosterIds|, k requires 0 <= k < |RosterIds| => InitialAgent(k))
  }

  /** The agent the engine posts announcements as (`initialAgents[0]`). */
  const Ceo: Agent := InitialAgent(0)

  function AgentIds(agents: seq<Agent>): (ids: seq<string>)
    ensures |ids| == |agents|
    ensures forall i :: 0 <= i < |agents| ==> ids[i] == agents[i].id
  {
    seq(|agents|, i requires 0 <= i < |agents| => agents[i].id)
  }

  lemma InitialAgentsAreRoster()
    ensures AgentIds(InitialAgents()) == RosterIds
    ensures TotalCompleted(InitialAgents()) == 0
    ensures forall i :: 0 <= i < |InitialAgents()| ==> InitialAgents()[i].status == Active
  {
    assert AgentIds(InitialAgents()) == RosterIds;
    ZeroCountersZeroTotal(InitialAgents());
  }

  lemma {:induction false} ZeroCountersZeroTotal(agents: seq<Agent>)
    requires forall i :: 0 <= i < |agents| ==> agents[i].tasksCompleted == 0
    ensures TotalCompleted(agents) == 0
    decreases |agents|
  {
    if agents != [] {
      ZeroCountersZeroTotal(agents[..|agents| - 1]);
    }
  }

  lemma RosterIdsDistinct()
    ensures forall i, j :: 0 <= i < j < |RosterIds| ==> RosterIds[i] != RosterIds[j]
  {
  }

  // ---- counting ----

  /** The sum of the agents' own completed-task counters. */
  function TotalCompleted(agents: seq<Agent>): nat
    decreases |agents|
  {
    if agents == [] then 0
    else TotalCompleted(agents[..|agents| - 1]) + agents[|agents| - 1].tasksCompleted
  }

  function CountTaskStatus(tasks: seq<Task>, st: TaskStatus): (n: nat)
    ensures n <= |tasks|
  {
    |Filter(tasks, (t: Task) => t.status == st)|
  }

  function CountTaskKind(tasks: seq<Task>, k: TaskType): (n: nat)
    ensures n <= |tasks|
  {
    |Filter(tasks, (t: Task) => t.kind == k)|
  }

  function CountPRStatus(prs: seq<PullRequest>, st: PRStatus): (n: nat)
    ensures n <= |prs|
  {
    |Filter(prs, (p: PullRequest) => p.status == st)|
  }

  lemma CountStatusAppend(tasks: seq<Task>, t: Task, st: TaskStatus)
    ensures CountTaskStatus(tasks + [t], st) == CountTaskStatus(tasks, st) + (if t.status == st then 1 else 0)
  {
    FilterAppend(tasks, t, (t: Task) => t.status == st);
  }

  lemma CountKindAppend(tasks: seq<Task>, t: Task, k: TaskType)
    ensures CountTaskKind(tasks + [t], k) == CountTaskKind(tasks, k) + (if t.kind == k then 1 else 0)
  {
    FilterAppend(tasks, t, (t: Task) => t.kind == k);
  }

  lemma CountPRAppend(prs: seq<PullRequest>, p: PullRequest, st: PRStatus)
    ensures CountPRStatus(prs + [p], st) == CountPRStatus(prs, st) + (if p.status == st then 1 else 0)
  {
    FilterAppend(prs, p, (p: PullRequest) => p.status == st);
  }

  // ---- updates by id, as the source's `prev.map(x => x.id === id ? {...} : x)` ----

  function SetTaskStatus(tasks: seq<Task>, id: nat, st: TaskStatus): (r: seq<Task>)
    ensures |r| == |tasks|
  {
    seq(|tasks|, i requires 0 <= i < |tasks| =>
      if tasks[i].id == id then tasks[i].(status := st) else tasks[i])
  }

  /** `SetTaskStatus` for pull requests: the PRs with the id take the status. */
  function SetPRStatus(prs: seq<PullRequest>, id: nat, st: PRStatus): (r: seq<PullRequest>)
    ensures |r| == |prs|
  {
    seq(|prs|, i requires 0 <= i < |prs| =>
      if prs[i].id == id then prs[i].(status := st) else prs[i])
  }

  /** Adds one to the counter of every agent with the given id. */
  function BumpCompleted(agents: seq<Agent>, id: string): (r: seq<Agent>)
    ensures |r| == |agents|
    ensures AgentIds(r) == AgentIds(agents)
  {
    seq(|agents|, i requires 0 <= i < |agents| =>
      if agents[i].id == id then agents[i].(tasksCompleted := agents[i].tasksCompleted + 1) else agents[i])
  }

  /** Sets the status of every agent with the given id. */
  function SetAgentStatus(agents: seq<Agent>, id: string, st: AgentStatus): (r: seq<Agent>)
    ensures |r| == |agents|
    ensures AgentIds(r) == AgentIds(agents)
  {
    seq(|agents|, i requires 0 <= i < |agents| =>
      if agents[i].id == id then agents[i].(status := st) else agents[i])
  }

  /** Sets the status of every agent. */
  function SetAllStatus(agents: seq<Agent>, st: AgentStatus): (r: seq<Agent>)
    ensures |r| == |agents|
    ensures AgentIds(r) == AgentIds(agents)
    ensures forall i :: 0 <= i < |r| ==> r[i] == agents[i].(status := st)
  {
    seq(|agents|, i requires 0 <= i < |agents| => agents[i].(status := st))
  }

  lemma StatusChangeKeepsIdsAndCounters(agents: seq<Agent>, id: string, st: AgentStatus)
    ensures AgentIds(SetAgentStatus(agents, id, st)) == AgentIds(agents)
    ensures AgentIds(SetAllStatus(agents, st)) == AgentIds(agents)
    ensures TotalCompleted(SetAgentStatus(agents, id, st)) == TotalCompleted(agents)
    ensures TotalCompleted(SetAllStatus(agents, st)) == TotalCompleted(agents)
  {
    SameCountersSameTotal(agents, SetAgentStatus(agents, id, st));
    SameCountersSameTotal(agents, SetAllStatus(agents, st));
  }

  lemma {:induction false} SameCountersSameTotal(a: seq<Agent>, b: seq<Agent>)
    requires |a| == |b|
    requires forall i :: 0 <= i < |a| ==> a[i].tasksCompleted == b[i].tasksCompleted
    ensures TotalCompleted(a) == TotalCompleted(b)
    decreases |a|
  {
    if a != [] {
      SameCountersSameTotal(a[..|a| - 1], b[..|b| - 1]);
    }
  }

  predicate DistinctIds(ids: seq<string>) {
    forall i, j :: 0 <= i < j < |ids| ==> ids[i] != ids[j]
  }

  /** With distinct ids, bumping one roster agent raises the total by exactly one. */
  lemma {:induction false} BumpCompletedTotal(agents: seq<Agent>, id: string)
    requires DistinctIds(AgentIds(agents))
    ensures TotalCompleted(BumpCompleted(agents, id)) ==
      TotalCompleted(agents) + (if id in AgentIds(agents) then 1 else 0)
    ensures AgentIds(BumpCompleted(agents, id)) == AgentIds(agents)
    decreases |agents|
  {
    if agents != [] {
      var init := agents[..|agents| - 1];
      assert AgentIds(init) == AgentIds(agents)[..|agents| - 1];
      BumpCompletedTotal(init, id);
      assert BumpCompleted(agents, id)[..|agents| - 1] == BumpCompleted(init, id);
      var last := agents[|agents| - 1];
      assert id in AgentIds(agents) <==> id in AgentIds(init) || last.id == id;
    }
  }

  predicate DistinctTaskIds(tasks: seq<Task>) {
    forall i, j :: 0 <= i < j < |tasks| ==> tasks[i].id != tasks[j].id
  }

  predicate DistinctPRIds(prs: seq<PullRequest>) {
    forall i, j :: 0 <= i < j < |prs| ==> prs[i].id != prs[j].id
  }

  /** Changing a status never changes ids or kinds. */
  lemma SetTaskStatusKeeps(tasks: seq<Task>, id: nat, st: TaskStatus)
    ensures forall k :: CountTaskKind(SetTaskStatus(tasks, id, st), k) == CountTaskKind(tasks, k)
    ensures DistinctTaskIds(tasks) ==> DistinctTaskIds(SetTaskStatus(tasks, id, st))
  {
    forall k ensures CountTaskKind(SetTaskStatus(tasks, id, st), k) == CountTaskKind(tasks, k) {
      SameKindsSameCount(tasks, SetTaskStatus(tasks, id, st), k);
    }
  }

  lemma {:induction false} SameKindsSameCount(a: seq<Task>, b: seq<Task>, k: TaskType)
    requires |a| == |b|
    requires forall i :: 0 <= i < |a| ==> a[i].kind == b[i].kind
    ensures CountTaskKind(a, k) == CountTaskKind(b, k)
    decreases |a|
  {
    if a != [] {
      var n := |a| - 1;
      SameKindsSameCount(a[..n], b[..n], k);
      assert a == a[..n] + [a[n]];
      assert b == b[..n] + [b[n]];
      CountKindAppend(a[..n], a[n], k);
      CountKindAppend(b[..n], b[n], k);
    }
  }

  /** The not-yet-done tasks carrying a given id. */
  function PendingWithId(tasks: seq<Task>, id: nat): (n: nat)
    ensures n <= |tasks|
  {
    |Filter(tasks, (t: Task) => t.id == id && t.status != Done)|
  }

  lemma PendingWithIdPositive(tasks: seq<Task>, i: nat)
    requires i < |tasks| && tasks[i].status != Done
    ensures PendingWithId(tasks, tasks[i].id) >= 1
  {
    var id := tasks[i].id;
    FilterMembers(tasks, (t: Task) => t.id == id && t.status != Done);
    assert tasks[i] in Filter(tasks, (t: Task) => t.id == id && t.status != Done);
  }

  /** With distinct ids, at most one task is pending under a given id. */
  lemma {:induction false} PendingWithIdAtMostOne(tasks: seq<Task>, id: nat)
    requires DistinctTaskIds(tasks)
    ensures PendingWithId(tasks, id) <= 1
    decreases |tasks|
  {
    if tasks != [] {
      var n := |tasks| - 1;
      var init := tasks[..n];
      assert tasks == init + [tasks[n]];
      FilterAppend(init, tasks[n], (t: Task) => t.id == id && t.status != Done);
      if tasks[n].id == id {
        FilterNone(init, (t: Task) => t.id == id && t.status != Done);
      } else {
        PendingWithIdAtMostOne(init, id);
      }
    }
  }

  /** Moving the tasks with one id to `done` adds exactly the ones that were not done. */
  lemma {:induction false} SetDoneCount(tasks: seq<Task>, id: nat)
    ensures CountTaskStatus(SetTaskStatus(tasks, id, Done), Done) ==
      CountTaskStatus(tasks, Done) + PendingWithId(tasks, id)
    decreases |tasks|
  {
    if tasks != [] {
      var n := |tasks| - 1;
      var init := tasks[..n];
      SetDoneCount(init, id);
      var r := SetTaskStatus(tasks, id, Done);
      var t := tasks[n];
      assert r == SetTaskStatus(init, id, Done) + [if t.id == id then t.(status := Done) else t];
      assert tasks == init + [tasks[n]];
      CountStatusAppend(SetTaskStatus(init, id, Done), r[n], Done);
      CountStatusAppend(init, tasks[n], Done);
      FilterAppend(init, tasks[n], (t: Task) => t.id == id && t.status != Done);
    }
  }

  /** Status changes of tasks that are not done never lower the number of `done` tasks. */
  lemma {:induction false} SetStatusDoneMonotone(tasks: seq<Task>, id: nat, st: TaskStatus)
    requires forall i :: 0 <= i < |tasks| && tasks[i].id == id ==> tasks[i].status != Done
    ensures CountTaskStatus(SetTaskStatus(tasks, id, st), Done) >= CountTaskStatus(tasks, Done)
    decreases |tasks|
  {
    if tasks != [] {
      var n := |tasks| - 1;
      var init := tasks[..n];
      SetStatusDoneMonotone(init, id, st);
      var r := SetTaskStatus(tasks, id, st);
      var t := tasks[n];
      assert r == SetTaskStatus(init, id, st) + [if t.id == id then t.(status := st) else t];
      assert tasks == init + [tasks[n]];
      CountStatusAppend(SetTaskStatus(init, id, st), r[n], Done);
      CountStatusAppend(init, tasks[n], Done);
    }
  }

  /** Merging the approved PR at index `k` (ids distinct) adds exactly one merged PR. */
  lemma {:induction false} SetMergedCount(prs: seq<PullRequest>, k: nat)
    requires DistinctPRIds(prs)
    requires k < |prs| && prs[k].status == Approved
    ensures CountPRStatus(SetPRStatus(prs, prs[k].id, Merged), Merged) == CountPRStatus(prs, Merged) + 1
    decreases |prs|
  {
    var id := prs[k].id;
    var n := |prs| - 1;
    var init := prs[..n];
    var p := prs[n];
    assert SetPRStatus(prs, id, Merged) == SetPRStatus(init, id, Merged) + [if p.id == id then p.(status := Merged) else p];
    assert prs == init + [p];
    CountPRAppend(SetPRStatus(init, id, Merged), if p.id == id then p.(status := Merged) else p, Merged);
    CountPRAppend(init, p, Merged);
    if k == n {
      SetAbsentPR(init, id, Merged);
    } else {
      assert init[k] == prs[k];
      SetMergedCount(init, k);
    }
  }

  /** A status change keeps every id, so distinct ids stay distinct. */
  lemma SetPRStatusKeepsIds(prs: seq<PullRequest>, id: nat, st: PRStatus)
    ensures forall i :: 0 <= i < |prs| ==> SetPRStatus(prs, id, st)[i].id == prs[i].id
    ensures DistinctPRIds(prs) ==> DistinctPRIds(SetPRStatus(prs, id, st))
  {
  }

  /** Setting the status of an id no task has changes nothing. */
  lemma SetAbsentTask(tasks: seq<Task>, id: nat, st: TaskStatus)
    requires forall i :: 0 <= i < |tasks| ==> tasks[i].id != id
    ensures SetTaskStatus(tasks, id, st) == tasks
  {
  }

  /** Setting the status of an id no PR has changes nothing. */
  lemma SetAbsentPR(prs: seq<PullRequest>, id: nat, st: PRStatus)
    requires forall i :: 0 <= i < |prs| ==> prs[i].id != id
    ensures SetPRStatus(prs, id, st) == prs
  {
  }

  /** A review that leaves the PR open (ids distinct) keeps every count. */
  lemma SetOpenKeepsCounts(prs: seq<PullRequest>, id: nat)
    requires exists i :: 0 <= i < |prs| && prs[i].id == id && prs[i].status == Open
    requires DistinctPRIds(prs)
    ensures SetPRStatus(prs, id, Open) == prs
  {
  }

  /** Approving an open PR (ids distinct) leaves the number of merged PRs alone. */
  lemma {:induction false} SetApprovedCount(prs: seq<PullRequest>, id: nat)
    requires forall i :: 0 <= i < |prs| && prs[i].id == id ==> prs[i].status == Open
    ensures CountPRStatus(SetPRStatus(prs, id, Approved), Merged) == CountPRStatus(prs, Merged)
    decreases |prs|
  {
    if prs != [] {
      var n := |prs| - 1;
      var init := prs[..n];
      SetApprovedCount(init, id);
      var r := SetPRStatus(prs, id, Approved);
      var p := prs[n];
      assert r == SetPRStatus(init, id, Approved) + [if p.id == id then p.(status := Approved) else p];
      assert prs == init + [prs[n]];
      CountPRAppend(SetPRStatus(init, id, Approved), r[n], Merged);
      CountPRAppend(init, prs[n], Merged);
    }
  }

  // ---- the invariants the engine keeps ----

  predicate InPercent(x: real) { 0.0 <= x <= 100.0 }

  /** The counters stay in step with the collections they count:
      completed tasks are counted once globally and once on the agent,
      every bug report is one bug task, every opened PR is in the list and
      every merge marked one approved PR merged, every page is a document,
      and each month has at most one financial report. */
  predicate DataConsistent(d: SnapshotData) {
    CompanyConsistent(d.agents, d.tasks, d.pullRequests, d.okrs, d.documentation,
      d.financialRecords, d.productProgress, d.metrics)
  }

  /** The same invariant over the fields themselves (messages and timeline play no part). */
  predicate CompanyConsistent(
    agents: seq<Agent>, tasks: seq<Task>, prs: seq<PullRequest>, okrs: seq<OKR>,
    docs: seq<Documentation>, records: seq<FinancialRecord>, progress: real, m: Metrics)
  {
    && RosterOk(agents, m)
    && TasksOk(tasks, m)
    && PRsOk(prs, m)
    && m.docsPages == |docs|
    && ProgressOk(okrs, progress, m)
    && DistinctMonths(records)
  }

  /** The team is the roster, and the global counter is the sum of the agents' counters. */
  predicate RosterOk(agents: seq<Agent>, m: Metrics) {
    AgentIds(agents) == RosterIds && m.tasksCompleted == TotalCompleted(agents)
  }

  predicate TasksOk(tasks: seq<Task>, m: Metrics) {
    && m.tasksCompleted <= CountTaskStatus(tasks, Done)
    && m.bugs == CountTaskKind(tasks, BugTask)
    && DistinctTaskIds(tasks)
  }

  predicate PRsOk(prs: seq<PullRequest>, m: Metrics) {
    m.prsOpened == |prs| && m.prsMerged == CountPRStatus(prs, Merged) && DistinctPRIds(prs)
  }

  predicate ProgressOk(okrs: seq<OKR>, progress: real, m: Metrics) {
    && InPercent(progress)
    && InPercent(m.testCoverage)
    && (forall i :: 0 <= i < |okrs| ==> InPercent(okrs[i].progress))
  }

  /** At most one financial record per month key. */
  predicate DistinctMonths(records: seq<FinancialRecord>) {
    forall i, j :: 0 <= i < j < |records| ==> records[i].month != records[j].month
  }

  /** Every task and PR id was handed out before the counter reached `n`. */
  predicate IdsBelow(d: SnapshotData, n: nat) {
    IdsFresh(d.tasks, d.pullRequests, n)
  }

  predicate IdsFresh(tasks: seq<Task>, prs: seq<PullRequest>, n: nat) {
    && (forall i :: 0 <= i < |tasks| ==> tasks[i].id < n)
    && (forall i :: 0 <= i < |prs| ==> prs[i].id < n)
  }

  /** Adding a task that is not done and whose id is new keeps the task
      counters, with one more bug when it is a bug. */
  lemma AddTaskKeeps(tasks: seq<Task>, m: Metrics, t: Task)
    requires TasksOk(tasks, m) && t.status != Done
    requires forall i :: 0 <= i < |tasks| ==> tasks[i].id != t.id
    ensures t.kind != BugTask ==> TasksOk(tasks + [t], m)
    ensures t.kind == BugTask ==> TasksOk(tasks + [t], m.(bugs := m.bugs + 1))
  {
    CountKindAppend(tasks, t, BugTask);
    CountStatusAppend(tasks, t, Done);
  }

  /** Adding an open PR with a new id keeps the PR counters, with one more opened. */
  lemma AddPRKeeps(prs: seq<PullRequest>, m: Metrics, p: PullRequest)
    requires PRsOk(prs, m) && p.status == Open
    requires forall i :: 0 <= i < |prs| ==> prs[i].id != p.id
    ensures PRsOk(prs + [p], m.(prsOpened := m.prsOpened + 1))
  {
    CountPRAppend(prs, p, Merged);
  }

  /** With distinct ids, a status change by id touches exactly the one PR carrying it. */
  lemma SetPRStatusAt(prs: seq<PullRequest>, k: nat, st: PRStatus)
    requires DistinctPRIds(prs) && k < |prs|
    ensures SetPRStatus(prs, prs[k].id, st) == prs[k := prs[k].(status := st)]
  {
  }

  /** With distinct ids, a status change by id touches exactly the one task carrying it. */
  lemma SetTaskStatusAt(tasks: seq<Task>, k: nat, st: TaskStatus)
    requires DistinctTaskIds(tasks) && k < |tasks|
    ensures SetTaskStatus(tasks, tasks[k].id, st) == tasks[k := tasks[k].(status := st)]
  {
  }

  /** The invariant implies the dashboard's merged count never exceeds the opened count. */
  lemma ConsistentMergedAtMostOpened(d: SnapshotData)
    requires DataConsistent(d)
    ensures d.metrics.prsMerged <= d.metrics.prsOpened
  {
  }

  /** The empty company of a fresh project, with the given OKRs. */
  function StartData(okrs: seq<OKR>): (d: SnapshotData)
    ensures d.okrs == okrs && d.agents == InitialAgents() && d.tasks == [] && d.pullRequests == []
  {
    SnapshotData(InitialAgents(), [], [], [], okrs, [], [], [], 0.0, ZeroMetrics)
  }

  /** A fresh project's data is consistent when its OKRs' progress is a percentage. */
  lemma StartDataConsistent(okrs: seq<OKR>)
    requires forall i :: 0 <= i < |okrs| ==> InPercent(okrs[i].progress)
    ensures DataConsistent(StartData(okrs))
  {
    InitialAgentsAreRoster();
  }
}
