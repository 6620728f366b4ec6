/** The pure parts of the session handlers of App.tsx: the texts they post,
    the metric growth, the monthly report, the tick interval, the snapshot
    bookkeeping, the import rule, and the company invariant `Inv` together
    with one lemma per handler showing that the handler's change keeps it. */
module Engine {
  import opened Base
  import opened Calendar
  import opened Entities

  /** The draws one activity may consume: the assignee of a new task, the
      index into a content list, and the two draws of a PR review. */
  datatype ActivityDraws = ActivityDraws(assignee: Unit, pick: Unit, approve: Unit, merge: Unit)

  /** The draws of one `updateMetricsAndProgress`: the trigger, one per
      growing quantity, and one per OKR (a missing OKR draw counts as 0). */
  datatype MetricsDraw = MetricsDraw(
    trigger: Unit, progress: Unit, feature: Unit, users: Unit, revenue: Unit,
    coverage: Unit, okrs: seq<Unit>)

  /** The part of the state the export file carries and the import writes back. */
  datatype Live = Live(
    projectConfig: Option<ProjectConfig>, agents: seq<Agent>, tasks: seq<Task>,
    messages: seq<Message>, pullRequests: seq<PullRequest>, okrs: seq<OKR>,
    documentation: seq<Documentation>, financialRecords: seq<FinancialRecord>,
    timeline: seq<TimelineEvent>, metrics: Metrics, productProgress: real,
    currentDate: CalDate)

  // ---- the texts the handlers post ----

  const BugDescription: string := "Needs immediate attention"
  const PrDescription: string := "Ready for review"
  const SprintPlanningText: string := "📅 Sprint Planning Meeting - Let's review our progress and set new goals!"

  function CreatedTaskText(title: string): string { "Created new task: " + title }
  function BugTitle(bug: string): string { "Bug: " + bug }
  function FoundBugText(bug: string): string { "🐛 Found bug: " + bug }
  function OpenedPRText(title: string): string { "📝 Opened PR: " + title }
  function PublishedText(title: string): string { "📄 Published: " + title }
  function CompletedText(title: string): string { "✅ Completed: " + title }
  function ReviewText(approved: bool, title: string): string {
    (if approved then "✅ Approved" else "💬 Commented on") + " PR: " + title
  }
  function FoundedTitle(name: string): string { name + " Founded" }
  function FoundedText(c: ProjectConfig): string {
    "Started " + c.domain + " project with " + IntToString(c.duration) + " month timeline"
  }
  function SkippedTitle(days: nat): string { "Fast-forwarded " + NatToString(days) + " days" }
  function SkippedText(days: nat): string { "Simulated " + NatToString(days) + " days of work" }

  /** `projectConfig?.projectName || 'something amazing'`. */
  function ProjectNameOr(c: Option<ProjectConfig>): (r: string)
    ensures r != ""
    ensures c.Some? && c.value.projectName != "" ==> r == c.value.projectName
  {
    if c.Some? && c.value.projectName != "" then c.value.projectName else "something amazing"
  }

  function StartText(c: Option<ProjectConfig>): string {
    "🚀 Alright team, let's build " + ProjectNameOr(c) + "! Sprint starts now."
  }

  // ---- pure parts of the handlers ----

  /** `Math.min(100, p + delta)`. */
  function Clamp100(p: real, delta: real): (r: real)
    requires delta >= 0.0
    ensures r <= 100.0
    ensures r == 100.0 || r == p + delta
    ensures p <= 100.0 ==> p <= r
    ensures p + delta <= 100.0 ==> r == p + delta
  {
    Min(100.0, p + delta)
  }

  /** The metric growth of `updateMetricsAndProgress` (App.tsx:904-910). */
  function GrowMetrics(m: Metrics, d: MetricsDraw): (r: Metrics)
    ensures r.tasksCompleted == m.tasksCompleted && r.bugs == m.bugs && r.prsOpened == m.prsOpened
    ensures r.prsMerged == m.prsMerged && r.docsPages == m.docsPages
    ensures r.features == m.features + (if d.feature > 0.85 then 1 else 0)
    ensures m.users <= r.users < m.users + 25
    ensures m.revenue <= r.revenue < m.revenue + 250
    ensures InPercent(m.testCoverage) ==> InPercent(r.testCoverage) && m.testCoverage <= r.testCoverage
  {
    m.(features := m.features + (if d.feature > 0.85 then 1 else 0),
       users := m.users + Pick(d.users, 25),
       revenue := m.revenue + Pick(d.revenue, 250),
       testCoverage := Clamp100(m.testCoverage, d.coverage as real * 2.0))
  }

  /** The draw for the OKR at index `i`. */
  function DrawAt(draws: seq<Unit>, i: nat): Unit {
    if i < |draws| then draws[i] else 0.0
  }

  /** Every OKR advances by its own draw, capped at 100 (App.tsx:912-915). */
  function GrowOKRs(okrs: seq<OKR>, draws: seq<Unit>): (r: seq<OKR>)
    ensures |r| == |okrs|
    ensures forall i :: 0 <= i < |okrs| ==>
      r[i] == okrs[i].(progress := r[i].progress) &&
      (InPercent(okrs[i].progress) ==> InPercent(r[i].progress) && okrs[i].progress <= r[i].progress)
  {
    seq(|okrs|, i requires 0 <= i < |okrs| => okrs[i].(progress := Clamp100(okrs[i].progress, DrawAt(draws, i) as real * 5.0)))
  }

  /** The new product progress of a growth round (App.tsx:903). */
  function GrowProgress(p: real, d: MetricsDraw): (r: real)
    ensures InPercent(p) ==> InPercent(r) && p <= r
  {
    Clamp100(p, d.progress as real * 3.0)
  }

  /** The record `generateMonthlyFinancialReport` appends (App.tsx:597-612);
      `u` is the expense draw. */
  function MonthlyReport(month: string, revenue: nat, u: Unit): (r: FinancialRecord)
    ensures r.month == month && r.revenue == revenue
    ensures r.mrr == revenue && r.arr == 12 * revenue
    ensures 85000 <= r.expenses < 100000
    ensures r.profit == revenue - r.expenses || r.profit == revenue - r.expenses - 1
    ensures r.profit >= 0 <==> r.runway == 24
    ensures r.profit < 0 ==> 6 <= r.runway <= 17
    ensures r.burnRate >= 0
  {
    var expenses := 85000.0 + u as real * 15000.0;
    var profit := revenue as real - expenses;
    var runway := if profit < 0.0 then Max(6.0, 18.0 - Abs(profit) / 10000.0) else 24.0;
    FinancialRecord(month, revenue, expenses.Floor, profit.Floor, runway.Floor,
      (revenue as real * 12.0).Floor, (revenue as real).Floor, Abs(profit).Floor)
  }

  predicate HasMonth(records: seq<FinancialRecord>, key: string) {
    exists i :: 0 <= i < |records| && records[i].month == key
  }

  /** The report is due on the first of a month that has no record yet (App.tsx:554-560). */
  predicate ReportDue(records: seq<FinancialRecord>, d: CalDate) {
    d.day == 1 && !HasMonth(records, MonthKey(d))
  }

  /** Once the report of a month is filed it is not due again that month, and
      filing a due report keeps one record per month. */
  lemma ReportFiledOnce(records: seq<FinancialRecord>, d: CalDate, e: CalDate, revenue: nat, u: Unit)
    requires ReportDue(records, d) && DistinctMonths(records)
    requires e.year == d.year && e.month == d.month
    ensures !ReportDue(records + [MonthlyReport(MonthKey(d), revenue, u)], e)
    ensures DistinctMonths(records + [MonthlyReport(MonthKey(d), revenue, u)])
  {
    var r := records + [MonthlyReport(MonthKey(d), revenue, u)];
    MonthKeyOfSameMonth(d, e);
    assert r[|records|].month == MonthKey(e);
  }

  /** `docType` as the source spells it. */
  function DocTypeName(t: DocType): string {
    match t
    case ApiDocs => "api"
    case UserGuide => "user-guide"
    case TechnicalDocs => "technical"
    case OnboardingDocs => "onboarding"
  }

  /** `activity.title || `${activity.docType} Documentation``. */
  function DocTitle(title: string, t: DocType): (r: string)
    ensures r != ""
    ensures title != "" ==> r == title
  {
    if title != "" then title else DocTypeName(t) + " Documentation"
  }

  /** The tasks that `completeRandomTask` may pick for an agent. */
  function IncompleteFor(tasks: seq<Task>, agentId: string): (r: seq<Task>)
  {
    Filter(tasks, (t: Task) => t.status != Done && t.assignedTo == agentId)
  }

  lemma IncompleteForMembers(tasks: seq<Task>, agentId: string, k: nat)
    requires k < |IncompleteFor(tasks, agentId)|
    ensures var t := IncompleteFor(tasks, agentId)[k];
      t in tasks && t.status != Done && t.assignedTo == agentId
  {
    FilterMembers(tasks, (t: Task) => t.status != Done && t.assignedTo == agentId);
  }

  /** An agent has something to complete exactly when one of its tasks is not done. */
  lemma IncompleteForEmpty(tasks: seq<Task>, agentId: string)
    ensures |IncompleteFor(tasks, agentId)| == 0 <==>
      forall i :: 0 <= i < |tasks| ==> tasks[i].status == Done || tasks[i].assignedTo != agentId
  {
    FilterMembers(tasks, (t: Task) => t.status != Done && t.assignedTo == agentId);
    if forall i :: 0 <= i < |tasks| ==> tasks[i].status == Done || tasks[i].assignedTo != agentId {
      FilterNone(tasks, (t: Task) => t.status != Done && t.assignedTo == agentId);
    }
  }

  /** The open PRs `reviewPullRequest` chooses from. */
  function OpenPRs(prs: seq<PullRequest>): (r: seq<PullRequest>)
  {
    Filter(prs, (p: PullRequest) => p.status == Open)
  }

  lemma OpenPRsMembers(prs: seq<PullRequest>, k: nat)
    requires k < |OpenPRs(prs)|
    ensures OpenPRs(prs)[k] in prs && OpenPRs(prs)[k].status == Open
  {
    FilterMembers(prs, (p: PullRequest) => p.status == Open);
  }

  /** The base period of the activity timer in milliseconds (App.tsx:510-512). */
  function TickInterval(f: Frequency, speed: real): (ms: real)
    requires speed > 0.0
    ensures ms > 0.0
  {
    var mult := match f case HighFrequency => 0.5 case MediumFrequency => 1.0 case LowFrequency => 2.0;
    3000.0 * mult / speed
  }

  /** Higher frequency ticks faster; doubling the speed halves the period. */
  lemma TickIntervalOrder(speed: real)
    requires speed > 0.0
    ensures TickInterval(HighFrequency, speed) < TickInterval(MediumFrequency, speed) < TickInterval(LowFrequency, speed)
    ensures TickInterval(MediumFrequency, 2.0 * speed) * 2.0 == TickInterval(MediumFrequency, speed)
    ensures TickInterval(MediumFrequency, 1.0) == 3000.0
  {
  }

  /** The sprint meeting day test (App.tsx:564-565). */
  predicate SprintDay(d: CalDate) {
    DayOfYear(d) % 14 == 0
  }

  // ---- snapshots ----

  /** The snapshot `handleProjectSetup` records (App.tsx:378-404). */
  function InitialSnapshotOf(okrs: seq<OKR>): (s: Snapshot)
    ensures s.id == InitialSnapshot && s.simulationDay == 0 && !s.isBranch && s.parentId.None?
    ensures s.data.okrs == okrs && s.data.agents == InitialAgents() && s.data.tasks == []
    ensures s.data.metrics == ZeroMetrics && s.data.productProgress == 0.0
  {
    Snapshot(InitialSnapshot, "Project Start", 0, StartData(okrs), false, None)
  }

  /** The copy `onCreateBranch` appends (App.tsx:1227-1236). */
  function Branch(s: Snapshot, id: SnapshotId, name: string): (b: Snapshot)
    ensures b.data == s.data && b.simulationDay == s.simulationDay
    ensures b.id == id && b.name == name && b.isBranch && b.parentId == Some(s.id)
  {
    s.(id := id, name := name, isBranch := true, parentId := Some(s.id))
  }

  /** Every snapshot records a consistent company whose ids were handed out
      before `n`; snapshot ids are distinct and every stamp is below `n`. */
  predicate SnapshotsConsistent(snaps: seq<Snapshot>, n: nat) {
    && (forall i :: 0 <= i < |snaps| ==> DataConsistent(snaps[i].data) && IdsBelow(snaps[i].data, n))
    && (forall i :: 0 <= i < |snaps| && snaps[i].id.Stamp? ==> snaps[i].id.n < n)
    && (forall i, j :: 0 <= i < j < |snaps| ==> snaps[i].id != snaps[j].id)
  }

  // ---- import ----

  /** The imported state (App.tsx:1262-1275) with every present field
      applied; the source's truthiness test on `productProgress` is
      `ImportAsWritten`. */
  function ApplyImport(l: Live, p: ImportPayload): (r: Live)
    ensures p.metrics.Some? ==> r.metrics == p.metrics.value
    ensures p.metrics.None? ==> r.metrics == l.metrics
    ensures p.tasks.Some? ==> r.tasks == p.tasks.value
    ensures p.tasks.None? ==> r.tasks == l.tasks
    ensures p.productProgress.Some? ==> r.productProgress == p.productProgress.value
    ensures p.productProgress.None? ==> r.productProgress == l.productProgress
  {
    Live(
      if p.projectConfig.Some? then p.projectConfig else l.projectConfig,
      p.agents.GetOr(l.agents), p.tasks.GetOr(l.tasks), p.messages.GetOr(l.messages),
      p.pullRequests.GetOr(l.pullRequests), p.okrs.GetOr(l.okrs),
      p.documentation.GetOr(l.documentation), p.financialRecords.GetOr(l.financialRecords),
      p.timeline.GetOr(l.timeline), p.metrics.GetOr(l.metrics),
      p.productProgress.GetOr(l.productProgress), p.currentDate.GetOr(l.currentDate))
  }

  /** `onImportData` as written: `if (data.productProgress)` also skips a
      present progress of 0. */
  function ImportAsWritten(l: Live, p: ImportPayload): (r: Live)
    ensures p.productProgress.Some? && p.productProgress.value != 0.0 ==> r.productProgress == p.productProgress.value
    ensures p.productProgress == Some(0.0) ==> r.productProgress == l.productProgress
  {
    ApplyImport(l, p).(productProgress :=
      if p.productProgress.Some? && p.productProgress.value != 0.0 then p.productProgress.value else l.productProgress)
  }

  /** The export of a state, read back as an import file. */
  function AsPayload(m: Live): (p: ImportPayload)
  {
    ImportPayload(m.projectConfig, Some(m.agents), Some(m.tasks), Some(m.messages),
      Some(m.pullRequests), Some(m.okrs), Some(m.documentation), Some(m.financialRecords),
      Some(m.timeline), Some(m.metrics), Some(m.productProgress), Some(m.currentDate))
  }

  /** Importing a full export restores that state, whatever the state was
      (the project setting only when the export has one). */
  lemma ImportOfExportRestores(l: Live, m: Live)
    requires m.projectConfig.Some?
    ensures ApplyImport(l, AsPayload(m)) == m
  {
  }

  /** An import that carries nothing changes nothing. */
  lemma EmptyImportKeeps(l: Live)
    ensures ApplyImport(l, ImportPayload(None, None, None, None, None, None, None, None, None, None, None, None)) == l
  {
  }

  /** The truthiness test keeps the old progress when the file says 0: an
      export taken at progress 0 does not round-trip. */
  lemma ImportSkipsZeroProgress()
    ensures var l := Live(None, [], [], [], [], [], [], [], [], ZeroMetrics, 50.0, StartDate);
      var m := l.(projectConfig := Some(ProjectConfig("p", "saas", 6, "")), productProgress := 0.0);
      ImportAsWritten(l, AsPayload(m)).productProgress == 50.0 && ApplyImport(l, AsPayload(m)) == m
  {
  }

  // ---- merge as written ----

  /** `mergePullRequest` as written (App.tsx:873-878): the PR with the id is
      marked merged and the counter rises, whatever the PR's status and
      even when no PR has the id. */
  function MergeAsWritten(prs: seq<PullRequest>, m: Metrics, id: nat): (r: (seq<PullRequest>, Metrics))
    ensures |r.0| == |prs| && r.1 == m.(prsMerged := m.prsMerged + 1)
  {
    (SetPRStatus(prs, id, Merged), m.(prsMerged := m.prsMerged + 1))
  }

  /** A merge timer that fires after a reset counts a merge with no PR behind
      it, so more PRs are merged than were ever opened. */
  lemma MergeAfterResetOvercounts()
    ensures var r := MergeAsWritten([], ZeroMetrics, 0);
      r.1.prsMerged > r.1.prsOpened && !PRsOk(r.0, r.1)
  {
  }

  // ---- the company record, its invariant, and the handlers that keep it ----

  /** The part of the session that its counters are tied to: the ten pieces
      of state a snapshot captures minus messages and timeline, plus the
      snapshot history and the counter that hands out fresh ids. */
  datatype Company = Company(
    agents: seq<Agent>, tasks: seq<Task>, pullRequests: seq<PullRequest>, okrs: seq<OKR>,
    documentation: seq<Documentation>, financialRecords: seq<FinancialRecord>,
    productProgress: real, metrics: Metrics, snapshots: seq<Snapshot>, nextId: nat)

  /** A company on first render: the roster, no work, no history. */
  const FirstCompany: Company := Company(InitialAgents(), [], [], [], [], [], 0.0, ZeroMetrics, [], 0)

  /** The counters agree with the collections, task and PR ids are below the
      fresh counter, and the snapshot history is made of consistent companies. */
  predicate Inv(c: Company) {
    && CompanyConsistent(c.agents, c.tasks, c.pullRequests, c.okrs, c.documentation,
         c.financialRecords, c.productProgress, c.metrics)
    && IdsFresh(c.tasks, c.pullRequests, c.nextId)
    && SnapshotsConsistent(c.snapshots, c.nextId)
  }

  /** The handlers' changes to the company, one function each. */

  /** `k` ids handed out to messages or timeline events. */
  function Later(c: Company, k: nat): Company {
    c.(nextId := c.nextId + k)
  }

  /** `createTask`: the task and its announcement take two ids; no counter moves. */
  function AddTask(c: Company, t: Task): Company {
    c.(tasks := c.tasks + [t], nextId := c.nextId + 2)
  }

  /** `reportBug`: the bug and its announcement take two ids, and the bug
      counter rises by one. */
  function FileBug(c: Company, t: Task): Company {
    c.(tasks := c.tasks + [t], metrics := c.metrics.(bugs := c.metrics.bugs + 1), nextId := c.nextId + 2)
  }

  /** `createPullRequest`. */
  function AddPR(c: Company, p: PullRequest): Company {
    c.(pullRequests := c.pullRequests + [p],
       metrics := c.metrics.(prsOpened := c.metrics.prsOpened + 1),
       nextId := c.nextId + 2)
  }

  /** `createDocumentation`. */
  function AddDoc(c: Company, doc: Documentation): Company {
    c.(documentation := c.documentation + [doc],
       metrics := c.metrics.(docsPages := c.metrics.docsPages + 1),
       nextId := c.nextId + 2)
  }

  /** `reviewPullRequest`: the new status and the review comment's id. */
  function Review(c: Company, id: nat, st: PRStatus): Company {
    c.(pullRequests := SetPRStatus(c.pullRequests, id, st), nextId := c.nextId + 1)
  }

  /** `mergePullRequest`. */
  function Merge(c: Company, id: nat): Company {
    c.(pullRequests := SetPRStatus(c.pullRequests, id, Merged),
       metrics := c.metrics.(prsMerged := c.metrics.prsMerged + 1))
  }

  /** `completeRandomTask`: the task is done, both counters rise, and the
      announcement takes an id. */
  function Complete(c: Company, id: nat, agentId: string): Company {
    c.(tasks := SetTaskStatus(c.tasks, id, Done),
       metrics := c.metrics.(tasksCompleted := c.metrics.tasksCompleted + 1),
       agents := BumpCompleted(c.agents, agentId),
       nextId := c.nextId + 1)
  }

  /** `updateTaskStatus`. */
  function MoveTask(c: Company, id: nat, st: TaskStatus): Company {
    c.(tasks := SetTaskStatus(c.tasks, id, st))
  }

  /** `updateMetricsAndProgress` when it fires. */
  function Grow(c: Company, d: MetricsDraw): Company {
    c.(okrs := GrowOKRs(c.okrs, d.okrs), productProgress := GrowProgress(c.productProgress, d),
       metrics := GrowMetrics(c.metrics, d))
  }

  /** `generateMonthlyFinancialReport`. */
  function File(c: Company, r: FinancialRecord): Company {
    c.(financialRecords := c.financialRecords + [r])
  }

  /** One agent's status, or everyone's. */
  function WithStatus(c: Company, id: string, st: AgentStatus): Company {
    c.(agents := SetAgentStatus(c.agents, id, st))
  }

  function WithAllStatus(c: Company, st: AgentStatus): Company {
    c.(agents := SetAllStatus(c.agents, st))
  }

  /** `handleProjectSetup`: the domain's OKRs, the initial snapshot as the
      whole history, and an id for the "Founded" milestone. */
  function Setup(c: Company, goals: seq<OKR>): Company {
    c.(okrs := goals, snapshots := [InitialSnapshotOf(goals)], nextId := c.nextId + 1)
  }

  /** `resetSimulation`: the initial roster with no work; OKRs, history and
      the id counter are kept. */
  function Cleared(c: Company): Company {
    c.(agents := InitialAgents(), tasks := [], pullRequests := [], documentation := [],
       financialRecords := [], productProgress := 0.0, metrics := ZeroMetrics)
  }

  /** `onRestoreSnapshot`: the recorded data; history and counter are kept. */
  function Restored(c: Company, s: Snapshot): Company {
    var d := s.data;
    c.(agents := d.agents, tasks := d.tasks, pullRequests := d.pullRequests, okrs := d.okrs,
       documentation := d.documentation, financialRecords := d.financialRecords,
       productProgress := d.productProgress, metrics := d.metrics)
  }

  /** `onCreateBranch`: a copy of the snapshot under a fresh stamp. */
  function Branched(c: Company, s: Snapshot, name: string): Company {
    c.(snapshots := c.snapshots + [Branch(s, Stamp(c.nextId), name)], nextId := c.nextId + 1)
  }

  // ---- each handler keeps the invariant ----

  /** The first company is consistent. */
  lemma FirstCompanyInv()
    ensures Inv(FirstCompany)
  {
    InitialAgentsAreRoster();
  }

  /** A history consistent below `n` is consistent below any later counter. */
  lemma {:induction false} SnapshotsLater(snaps: seq<Snapshot>, n: nat, n2: nat)
    requires SnapshotsConsistent(snaps, n) && n <= n2
    ensures SnapshotsConsistent(snaps, n2)
  {
    forall i | 0 <= i < |snaps| ensures IdsBelow(snaps[i].data, n2) {
      assert IdsBelow(snaps[i].data, n);
    }
  }

  /** A branch of a recorded snapshot stamped with the counter extends the
      history, which stays consistent under the next counter. */
  lemma SnapshotsBranch(snaps: seq<Snapshot>, n: nat, s: Snapshot, name: string)
    requires SnapshotsConsistent(snaps, n) && s in snaps
    ensures SnapshotsConsistent(snaps + [Branch(s, Stamp(n), name)], n + 1)
  {
    SnapshotsLater(snaps, n, n + 1);
    var r := snaps + [Branch(s, Stamp(n), name)];
    assert forall i :: 0 <= i < |snaps| ==> r[i] == snaps[i];
  }

  /** Handing out ids never breaks the invariant. */
  lemma LaterInv(c: Company, k: nat)
    requires Inv(c)
    ensures Inv(Later(c, k))
  {
    assert IdsFresh(c.tasks, c.pullRequests, c.nextId + k);
    SnapshotsLater(c.snapshots, c.nextId, c.nextId + k);
  }

  /** A backlog task that is not a bug, under the current id: no counter moves. */
  lemma AddTaskInv(c: Company, t: Task)
    requires Inv(c)
    requires t.id == c.nextId && t.status == Backlog && t.kind != BugTask
    ensures Inv(AddTask(c, t))
  {
    AddTaskKeeps(c.tasks, c.metrics, t);
    LaterInv(c, 2);
  }

  /** A backlog bug under the current id, with one more bug counted. */
  lemma FileBugInv(c: Company, t: Task)
    requires Inv(c)
    requires t.id == c.nextId && t.status == Backlog && t.kind == BugTask
    ensures Inv(FileBug(c, t))
  {
    AddTaskKeeps(c.tasks, c.metrics, t);
    LaterInv(c, 2);
  }

  /** An open PR under the current id, one more opened. */
  lemma AddPRInv(c: Company, p: PullRequest)
    requires Inv(c)
    requires p.id == c.nextId && p.status == Open
    ensures Inv(AddPR(c, p))
  {
    AddPRKeeps(c.pullRequests, c.metrics, p);
    LaterInv(c, 2);
  }

  /** One more document, one more page. */
  lemma AddDocInv(c: Company, doc: Documentation)
    requires Inv(c)
    ensures Inv(AddDoc(c, doc))
  {
    LaterInv(c, 2);
  }

  /** An open PR stays open or becomes approved. */
  lemma ReviewInv(c: Company, pr: PullRequest, approved: bool)
    requires Inv(c)
    requires pr in c.pullRequests && pr.status == Open
    ensures Inv(Review(c, pr.id, if approved then Approved else Open))
  {
    var prs := c.pullRequests;
    var k :| 0 <= k < |prs| && prs[k] == pr;
    var st := if approved then Approved else Open;
    SetPRStatusAt(prs, k, st);
    if approved {
      assert forall i :: 0 <= i < |prs| && prs[i].id == prs[k].id ==> i == k;
      SetApprovedCount(prs, prs[k].id);
    } else {
      assert prs[k := prs[k].(status := Open)] == prs;
    }
    SetPRStatusKeepsIds(prs, prs[k].id, st);
    LaterInv(c, 1);
  }

  /** An approved PR becomes merged and the merged counter rises by one,
      so it stays at most the opened count. */
  lemma MergeInv(c: Company, p: PullRequest)
    requires Inv(c)
    requires p in c.pullRequests && p.status == Approved
    ensures Inv(Merge(c, p.id))
  {
    var prs := c.pullRequests;
    var k :| 0 <= k < |prs| && prs[k] == p;
    SetPRStatusAt(prs, k, Merged);
    SetMergedCount(prs, k);
    SetPRStatusKeepsIds(prs, prs[k].id, Merged);
  }

  /** The task side of a completion: exactly one more done task, task `k`
      now done, every position keeping its id and its kind. */
  lemma CompleteTasks(tasks: seq<Task>, m: Metrics, k: nat, n: nat)
    requires TasksOk(tasks, m) && k < |tasks| && tasks[k].status != Done
    requires forall i :: 0 <= i < |tasks| ==> tasks[i].id < n
    ensures var r := SetTaskStatus(tasks, tasks[k].id, Done);
      && TasksOk(r, m.(tasksCompleted := m.tasksCompleted + 1))
      && CountTaskStatus(r, Done) == CountTaskStatus(tasks, Done) + 1
      && r[k].status == Done
      && (forall i :: 0 <= i < |r| ==> r[i].id == tasks[i].id && r[i].kind == tasks[i].kind)
      && (forall i :: 0 <= i < |r| ==> r[i].id < n)
  {
    var r := SetTaskStatus(tasks, tasks[k].id, Done);
    SetDoneCount(tasks, tasks[k].id);
    PendingWithIdPositive(tasks, k);
    PendingWithIdAtMostOne(tasks, tasks[k].id);
    SetTaskStatusKeeps(tasks, tasks[k].id, Done);
    assert forall i :: 0 <= i < |r| ==> r[i].id == tasks[i].id;
  }

  /** For a roster agent, one pending task becomes done, and the global
      counter and the agent's own counter each rise by one. */
  lemma CompleteInv(c: Company, t: Task, agentId: string)
    requires Inv(c)
    requires t in c.tasks && t.status != Done && IsRosterId(agentId)
    ensures Inv(Complete(c, t.id, agentId))
  {
    var k :| 0 <= k < |c.tasks| && c.tasks[k] == t;
    CompleteTasks(c.tasks, c.metrics, k, c.nextId + 1);
    RosterIdsDistinct();
    BumpCompletedTotal(c.agents, agentId);
    SnapshotsLater(c.snapshots, c.nextId, c.nextId + 1);
  }

  /** Moving a task that is not done (or no task) touches no counter. */
  lemma MoveTaskInv(c: Company, id: nat, st: TaskStatus)
    requires Inv(c)
    requires forall i :: 0 <= i < |c.tasks| && c.tasks[i].id == id ==> c.tasks[i].status != Done
    ensures Inv(MoveTask(c, id, st))
  {
    var tasks := c.tasks;
    if k :| 0 <= k < |tasks| && tasks[k].id == id {
      var r := SetTaskStatus(tasks, id, st);
      SetTaskStatusAt(tasks, k, st);
      SetStatusDoneMonotone(tasks, id, st);
      SetTaskStatusKeeps(tasks, id, st);
      assert forall i :: 0 <= i < |r| ==> r[i].id == tasks[i].id;
    } else {
      SetAbsentTask(tasks, id, st);
    }
  }

  /** Moving a task on the board that is not done: ids are distinct, so it
      is the only task with its id. */
  lemma AdvanceInv(c: Company, t: Task, st: TaskStatus)
    requires Inv(c)
    requires t in c.tasks && t.status != Done
    ensures Inv(MoveTask(c, t.id, st))
  {
    var k :| 0 <= k < |c.tasks| && c.tasks[k] == t;
    assert forall i :: 0 <= i < |c.tasks| && c.tasks[i].id == t.id ==> i == k;
    MoveTaskInv(c, t.id, st);
  }

  /** Growth keeps every percentage in range. */
  lemma GrowInv(c: Company, d: MetricsDraw)
    requires Inv(c)
    ensures Inv(Grow(c, d))
  {
    var r := GrowOKRs(c.okrs, d.okrs);
    assert forall i :: 0 <= i < |r| ==> InPercent(r[i].progress) by {
      forall i | 0 <= i < |r| ensures InPercent(r[i].progress) {
        assert InPercent(c.okrs[i].progress);
      }
    }
  }

  /** A report for a month that has none yet. */
  lemma FileInv(c: Company, r: FinancialRecord)
    requires Inv(c)
    requires !HasMonth(c.financialRecords, r.month)
    ensures Inv(File(c, r))
  {
    var rs := c.financialRecords + [r];
    assert forall i, j :: 0 <= i < j < |rs| ==> rs[i].month != rs[j].month by {
      forall i, j | 0 <= i < j < |rs| ensures rs[i].month != rs[j].month {
        if j == |rs| - 1 {
          assert rs[i] == c.financialRecords[i];
        }
      }
    }
  }

  /** Status changes of one agent or of all agents. */
  lemma StatusInv(c: Company, id: string, st: AgentStatus)
    requires Inv(c)
    ensures Inv(WithStatus(c, id, st)) && Inv(WithAllStatus(c, st))
  {
    StatusChangeKeepsIdsAndCounters(c.agents, id, st);
  }

  /** Fresh OKRs and the initial snapshot as the whole history. */
  lemma SetupInv(c: Company, goals: seq<OKR>)
    requires Inv(c)
    requires forall i :: 0 <= i < |goals| ==> goals[i].progress == 0.0
    ensures Inv(Setup(c, goals))
  {
    StartDataConsistent(goals);
    LaterInv(c, 1);
  }

  /** The reset company, the initial roster with no work, is consistent. */
  lemma ClearedInv(c: Company)
    requires Inv(c)
    ensures Inv(Cleared(c))
  {
    InitialAgentsAreRoster();
  }

  /** Restoring a recorded snapshot yields a consistent company. */
  lemma RestoredInv(c: Company, s: Snapshot)
    requires Inv(c) && s in c.snapshots
    ensures Inv(Restored(c, s))
  {
  }

  /** A branch of a recorded snapshot under the current id keeps the history consistent. */
  lemma BranchedInv(c: Company, s: Snapshot, name: string)
    requires Inv(c) && s in c.snapshots
    ensures Inv(Branched(c, s, name))
  {
    assert IdsFresh(c.tasks, c.pullRequests, c.nextId + 1);
    SnapshotsBranch(c.snapshots, c.nextId, s, name);
  }
}
