/** The export and import panel (ExportImport.tsx): the tasks CSV text,
    the metrics summary, the full JSON export and the import hand-off. The
    downloads, toasts and JSON text themselves are not modelled: a JSON
    object is modelled by the record it denotes. */
module ExportImport {
  import opened Base
  import opened Calendar
  import opened Text
  import opened Entities
  import opened Engine

  // ---- the tasks CSV (ExportImport.tsx:50-65) ----

  /** The string values the source stores in a task's union-typed fields. */
  function StatusText(s: TaskStatus): string {
    match s
    case Backlog => "backlog"
    case InProgress => "in-progress"
    case Review => "review"
    case Done => "done"
  }

  function PriorityText(p: Priority): string {
    match p
    case Low => "low"
    case Medium => "medium"
    case High => "high"
  }

  function TypeText(k: TaskType): string {
    match k
    case FeatureTask => "feature"
    case BugTask => "bug"
    case DesignTask => "design"
    case MarketingTask => "marketing"
    case PlanningTask => "planning"
    case DocumentationTask => "documentation"
    case FinancialTask => "financial"
  }

  /** Distinct statuses give distinct cells, so the status column reads back as the status. */
  lemma StatusTextInjective(a: TaskStatus, b: TaskStatus)
    requires StatusText(a) == StatusText(b)
    ensures a == b
  {
  }

  const Headers: seq<string> := ["ID", "Title", "Status", "Assigned To", "Priority", "Type", "Created By"]

  function HeaderLine(): string {
    Join(Headers, ",")
  }

  /** `"${cell}"`: the cell between double quotes, nothing escaped. */
  function Quote(cell: string): (r: string)
    ensures |r| == |cell| + 2 && r[0] == '"' && r[|r| - 1] == '"'
    ensures r[1..|r| - 1] == cell
  {
    "\"" + cell + "\""
  }

  /** The seven cells of a task's row, in column order. */
  function TaskCells(t: Task): (r: seq<string>)
    ensures |r| == |Headers|
  {
    [NatToString(t.id), t.title, StatusText(t.status), t.assignedTo,
     PriorityText(t.priority), TypeText(t.kind), t.createdBy]
  }

  function Row(cells: seq<string>): string {
    Join(seq(|cells|, i requires 0 <= i < |cells| => Quote(cells[i])), ",")
  }

  function TaskRows(tasks: seq<Task>): (r: seq<string>)
    ensures |r| == |tasks|
  {
    seq(|tasks|, i requires 0 <= i < |tasks| => Row(TaskCells(tasks[i])))
  }

  /** The CSV text: the header line and one line per task, joined by newlines. */
  function TasksCsv(tasks: seq<Task>): string {
    Join([HeaderLine()] + TaskRows(tasks), "\n")
  }

  /** The free-text fields of a task hold no `c`. */
  predicate FieldsAvoid(t: Task, c: char) {
    c !in t.title && c !in t.assignedTo && c !in t.createdBy
  }

  lemma CellsAvoid(t: Task, c: char)
    requires FieldsAvoid(t, c) && c != '-' && !('0' <= c <= '9') && !('a' <= c <= 'z')
    ensures forall k :: 0 <= k < |TaskCells(t)| ==> c !in TaskCells(t)[k]
  {
    var s := NatToString(t.id);
    assert forall i :: 0 <= i < |s| ==> s[i] != c;
  }

  /** The header splits back into exactly the seven column names. */
  lemma {:induction false} HeaderColumns()
    ensures Split(HeaderLine(), ',') == Headers
  {
    SplitJoin(Headers, ',');
  }

  /** A row holds exactly the seven quoted cells id, title, status,
      assignee, priority, type and creator, each copied verbatim, when no
      free-text field holds a comma. */
  lemma {:induction false} RowCells(t: Task)
    requires FieldsAvoid(t, ',')
    ensures var pieces := Split(Row(TaskCells(t)), ',');
      && pieces == [Quote(NatToString(t.id)), Quote(t.title), Quote(StatusText(t.status)),
                    Quote(t.assignedTo), Quote(PriorityText(t.priority)), Quote(TypeText(t.kind)),
                    Quote(t.createdBy)]
      && forall k :: 0 <= k < |pieces| ==> pieces[k][1..|pieces[k]| - 1] == TaskCells(t)[k]
  {
    var cells := TaskCells(t);
    var quoted := seq(|cells|, i requires 0 <= i < |cells| => Quote(cells[i]));
    CellsAvoid(t, ',');
    forall i | 0 <= i < |quoted| ensures ',' !in quoted[i] {
      assert quoted[i] == "\"" + cells[i] + "\"";
    }
    SplitJoin(quoted, ',');
  }

  lemma RowAvoids(t: Task, c: char)
    requires FieldsAvoid(t, c) && c != ',' && c != '"' && c != '-' && !('0' <= c <= '9') && !('a' <= c <= 'z')
    ensures c !in Row(TaskCells(t))
  {
    var cells := TaskCells(t);
    var quoted := seq(|cells|, i requires 0 <= i < |cells| => Quote(cells[i]));
    CellsAvoid(t, c);
    forall i | 0 <= i < |quoted| ensures c !in quoted[i] {
      assert quoted[i] == "\"" + cells[i] + "\"";
    }
    JoinAvoids(quoted, ",", c);
  }

  lemma HeaderOneLine()
    ensures '\n' !in HeaderLine()
  {
    JoinAvoids(Headers, ",", '\n');
  }

  /** The CSV reads back, line by line, as the header and then one row per
      task in list order, when no free-text field holds a line break. */
  lemma {:induction false} CsvLines(tasks: seq<Task>)
    requires forall i :: 0 <= i < |tasks| ==> FieldsAvoid(tasks[i], '\n')
    ensures var lines := Split(TasksCsv(tasks), '\n');
      && |lines| == |tasks| + 1
      && lines[0] == HeaderLine()
      && forall i :: 0 <= i < |tasks| ==> lines[i + 1] == Row(TaskCells(tasks[i]))
  {
    var rows := TaskRows(tasks);
    var parts := [HeaderLine()] + rows;
    HeaderOneLine();
    forall i | 0 <= i < |rows| ensures '\n' !in rows[i] {
      RowAvoids(tasks[i], '\n');
    }
    assert forall i :: 0 <= i < |parts| ==> '\n' !in parts[i] by {
      forall i | 0 <= i < |parts| ensures '\n' !in parts[i] {
        if i > 0 {
          assert parts[i] == rows[i - 1];
        }
      }
    }
    SplitJoin(parts, '\n');
    assert Split(TasksCsv(tasks), '\n') == parts;
  }

  // ---- the metrics summary (ExportImport.tsx:110-123) ----

  /** The summary object; `exportDate` is the wall-clock time, passed in.
      A missing JSON field is `None`. */
  datatype Summary = Summary(
    exportDate: string, projectName: Option<string>, industry: Option<string>,
    currentProgress: real, metrics: Metrics, teamSize: nat, totalTasks: nat,
    completedTasks: nat, openPRs: nat, totalDocPages: nat, activeOKRs: nat)

  /** Reading `okr.status`: OKR records carry no such field, so the read is `undefined`. */
  function OkrStatusField(o: OKR): (r: Option<string>)
    ensures r.None?
  {
    None
  }

  /** `exportMetricsSummary` as written. The reads `projectConfig?.name`
      and `projectConfig?.industry` are `undefined` (None): the project
      setting has `projectName` and `domain` instead. */
  function SummaryAsWritten(l: Live, now: string): (r: Summary)
    ensures r.totalTasks == |l.tasks| && r.teamSize == |l.agents| && r.totalDocPages == |l.documentation|
    ensures r.completedTasks == CountTaskStatus(l.tasks, Done)
    ensures r.openPRs == CountPRStatus(l.pullRequests, Open)
  {
    Summary(now, None, None,
      l.productProgress, l.metrics, |l.agents|, |l.tasks|,
      |Filter(l.tasks, (t: Task) => t.status == Done)|,
      |Filter(l.pullRequests, (p: PullRequest) => p.status == Open)|,
      |l.documentation|,
      |Filter(l.okrs, (o: OKR) => OkrStatusField(o) == Some("in-progress"))|)
  }

  /** The summary as written reports no project name, no industry and no
      active OKR, whatever the state. */
  lemma {:induction false} SummaryAsWrittenBlind(l: Live, now: string)
    ensures SummaryAsWritten(l, now).projectName.None?
    ensures SummaryAsWritten(l, now).industry.None?
    ensures SummaryAsWritten(l, now).activeOKRs == 0
  {
    FilterNone(l.okrs, (o: OKR) => OkrStatusField(o) == Some("in-progress"));
  }

  /** The OKRs not yet complete, by the OKR panel's completion test
      (`progress >= 100`, OKRPanel.tsx:34). */
  function ActiveOKRs(okrs: seq<OKR>): (r: seq<OKR>)
    ensures |r| <= |okrs|
  {
    Filter(okrs, (o: OKR) => o.progress < 100.0)
  }

  /** The summary with the fields the records do have: the project name,
      its domain as the industry, and the OKRs still short of 100. */
  function SummaryOf(l: Live, now: string): (r: Summary)
    ensures l.projectConfig.Some? ==> r.projectName == Some(l.projectConfig.value.projectName)
    ensures l.projectConfig.Some? ==> r.industry == Some(l.projectConfig.value.domain)
    ensures l.projectConfig.None? ==> r.projectName.None? && r.industry.None?
    ensures r.totalTasks == |l.tasks| && r.teamSize == |l.agents| && r.totalDocPages == |l.documentation|
    ensures r.completedTasks == CountTaskStatus(l.tasks, Done)
    ensures r.openPRs == CountPRStatus(l.pullRequests, Open)
  {
    var s := SummaryAsWritten(l, now);
    s.(projectName := if l.projectConfig.Some? then Some(l.projectConfig.value.projectName) else None,
       industry := if l.projectConfig.Some? then Some(l.projectConfig.value.domain) else None,
       activeOKRs := |ActiveOKRs(l.okrs)|)
  }

  /** The corrected count is the number of OKRs the OKR panel does not mark complete. */
  lemma {:induction false} ActiveOKRsCount(okrs: seq<OKR>)
    ensures |ActiveOKRs(okrs)| + |Filter(okrs, (o: OKR) => o.progress >= 100.0)| == |okrs|
    decreases |okrs|
  {
    if okrs != [] {
      var init := okrs[..|okrs| - 1];
      var last := okrs[|okrs| - 1];
      ActiveOKRsCount(init);
      assert okrs == init + [last];
      FilterAppend(init, last, (o: OKR) => o.progress < 100.0);
      FilterAppend(init, last, (o: OKR) => o.progress >= 100.0);
    }
  }

  /** A fresh plan's OKRs are all active in the corrected summary, and none in the summary as written. */
  lemma FreshGoalsActive(l: Live, now: string)
    requires forall i :: 0 <= i < |l.okrs| ==> l.okrs[i].progress == 0.0
    ensures SummaryOf(l, now).activeOKRs == |l.okrs|
    ensures SummaryAsWritten(l, now).activeOKRs == 0
  {
    FilterAll(l.okrs, (o: OKR) => o.progress < 100.0);
    SummaryAsWrittenBlind(l, now);
  }

  lemma {:induction false} OpenMergedDisjoint(prs: seq<PullRequest>)
    ensures CountPRStatus(prs, Open) + CountPRStatus(prs, Merged) <= |prs|
    decreases |prs|
  {
    if prs != [] {
      var init := prs[..|prs| - 1];
      var last := prs[|prs| - 1];
      OpenMergedDisjoint(init);
      assert prs == init + [last];
      CountPRAppend(init, last, Open);
      CountPRAppend(init, last, Merged);
    }
  }

  /** On a consistent state the summary agrees with the dashboard counters:
      the page count is the document count, every counted completion is a
      done task, and the open PRs are among the ones opened and not merged. */
  lemma SummaryAgreesWithCounters(l: Live, now: string)
    requires CompanyConsistent(l.agents, l.tasks, l.pullRequests, l.okrs, l.documentation,
      l.financialRecords, l.productProgress, l.metrics)
    ensures var s := SummaryOf(l, now);
      && s.totalDocPages == s.metrics.docsPages
      && s.metrics.tasksCompleted <= s.completedTasks <= s.totalTasks
      && s.openPRs + s.metrics.prsMerged <= s.metrics.prsOpened
  {
    OpenMergedDisjoint(l.pullRequests);
  }

  // ---- the full export and the import (ExportImport.tsx:31-36, 156-171) ----

  /** The exported object: `version`, `exportDate` and every field the
      session hands the panel (App.tsx:1248-1261). */
  datatype FullExport = FullExport(
    version: string, exportDate: string,
    projectConfig: Option<ProjectConfig>, agents: seq<Agent>, tasks: seq<Task>,
    messages: seq<Message>, pullRequests: seq<PullRequest>, okrs: seq<OKR>,
    documentation: seq<Documentation>, financialRecords: seq<FinancialRecord>,
    timeline: seq<TimelineEvent>, metrics: Metrics, currentDate: CalDate, productProgress: real)

  function ExportOf(l: Live, now: string): (e: FullExport)
    ensures e.version == "1.0" && e.exportDate == now
  {
    FullExport("1.0", now, l.projectConfig, l.agents, l.tasks, l.messages, l.pullRequests,
      l.okrs, l.documentation, l.financialRecords, l.timeline, l.metrics, l.currentDate,
      l.productProgress)
  }

  /** The state an export file describes, read back field by field. */
  function Described(e: FullExport): Live {
    Live(e.projectConfig, e.agents, e.tasks, e.messages, e.pullRequests, e.okrs,
      e.documentation, e.financialRecords, e.timeline, e.metrics, e.productProgress, e.currentDate)
  }

  /** The export carries the whole state: nothing is lost or altered. */
  lemma ExportComplete(l: Live, now: string)
    ensures Described(ExportOf(l, now)) == l
  {
  }

  /** An export file parsed back: every field present, the project setting
      only when the state had one; `version` and `exportDate` are ignored. */
  function ParsedExport(e: FullExport): (p: ImportPayload)
    ensures p.agents == Some(e.agents) && p.tasks == Some(e.tasks) && p.metrics == Some(e.metrics)
    ensures p.productProgress == Some(e.productProgress) && p.currentDate == Some(e.currentDate)
  {
    ImportPayload(e.projectConfig, Some(e.agents), Some(e.tasks), Some(e.messages),
      Some(e.pullRequests), Some(e.okrs), Some(e.documentation), Some(e.financialRecords),
      Some(e.timeline), Some(e.metrics), Some(e.productProgress), Some(e.currentDate))
  }

  /** `handleImport`: a file that parses is handed to the import unchanged;
      one that does not leaves the state as it was. */
  function ImportFile(l: Live, parsed: Option<ImportPayload>): (r: Live)
    ensures parsed.None? ==> r == l
    ensures parsed.Some? ==> r == ApplyImport(l, parsed.value)
  {
    match parsed
    case None => l
    case Some(p) => ApplyImport(l, p)
  }

  /** Importing an export of a state with a project setting restores that
      state, whatever the state before the import. */
  lemma ExportImportRoundTrip(before: Live, l: Live, now: string)
    requires l.projectConfig.Some?
    ensures ImportFile(before, Some(ParsedExport(ExportOf(l, now)))) == l
  {
    assert ParsedExport(ExportOf(l, now)) == AsPayload(l);
    ImportOfExportRestores(before, l);
  }
}
