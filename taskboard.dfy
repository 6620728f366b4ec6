/** The task board (TaskBoard.tsx): four status columns and the
    click-to-advance rule. */
module TaskBoard {
  import opened Base
  import opened Entities

  /** The columns, left to right (TaskBoard.tsx:12-17). */
  const Columns: seq<TaskStatus> := [Backlog, InProgress, Review, Done]

  function ColumnLabel(s: TaskStatus): string {
    match s
    case Backlog => "Backlog"
    case InProgress => "In Progress"
    case Review => "Review"
    case Done => "Done"
  }

  /** `statuses.indexOf(status)`: every status has its column. */
  function StatusIndex(s: TaskStatus): (i: nat)
    ensures i < |Columns| && Columns[i] == s
  {
    match s
    case Backlog => 0
    case InProgress => 1
    case Review => 2
    case Done => 3
  }

  /** The click rule (TaskBoard.tsx:102-105): the status one column to the
      right, none for a done task. */
  function NextStatus(s: TaskStatus): (r: Option<TaskStatus>)
    ensures r.None? <==> s == Done
    ensures r.Some? ==> StatusIndex(r.value) == StatusIndex(s) + 1
  {
    var i := StatusIndex(s);
    if i < |Columns| - 1 then Some(Columns[i + 1]) else None
  }

  /** Clicking walks backlog, in progress, review, done, and stops there. */
  lemma ClickOrder()
    ensures NextStatus(Backlog) == Some(InProgress)
    ensures NextStatus(InProgress) == Some(Review)
    ensures NextStatus(Review) == Some(Done)
    ensures NextStatus(Done) == None
  {
  }

  /** The tasks one column shows (TaskBoard.tsx:83). */
  function Column(tasks: seq<Task>, s: TaskStatus): (r: seq<Task>)
  {
    Filter(tasks, (t: Task) => t.status == s)
  }

  /** A task is in a column exactly when it has that column's status, so it
      appears in exactly one column. */
  lemma InExactlyOneColumn(tasks: seq<Task>, i: nat, s: TaskStatus)
    requires i < |tasks|
    ensures tasks[i] in Column(tasks, tasks[i].status)
    ensures tasks[i] in Column(tasks, s) <==> tasks[i].status == s
  {
    FilterMembers(tasks, (t: Task) => t.status == tasks[i].status);
    FilterMembers(tasks, (t: Task) => t.status == s);
    if tasks[i] in Column(tasks, s) {
      var j :| 0 <= j < |Column(tasks, s)| && Column(tasks, s)[j] == tasks[i];
    }
  }

  function ColumnTotal(tasks: seq<Task>): nat {
    |Column(tasks, Backlog)| + |Column(tasks, InProgress)| + |Column(tasks, Review)| + |Column(tasks, Done)|
  }

  /** The column counts add up to the number of tasks. */
  lemma {:induction false} ColumnCountsSum(tasks: seq<Task>)
    ensures ColumnTotal(tasks) == |tasks|
    decreases |tasks|
  {
    if tasks != [] {
      var n := |tasks| - 1;
      var init := tasks[..n];
      assert tasks == init + [tasks[n]];
      ColumnCountsSum(init);
      FilterAppend(init, tasks[n], (t: Task) => t.status == Backlog);
      FilterAppend(init, tasks[n], (t: Task) => t.status == InProgress);
      FilterAppend(init, tasks[n], (t: Task) => t.status == Review);
      FilterAppend(init, tasks[n], (t: Task) => t.status == Done);
    }
  }
}
