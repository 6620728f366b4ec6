# Multi-agent virtual company, modelled in Dafny

The simulator runs a start-up staffed by seven AI agents. The roster is
CEO, developer, designer, marketer, QA, documentation lead and CFO. While
the clock runs, a randomly drawn agent performs an activity from its role's
table: it posts a message, opens a task, reports a bug, opens a pull
request (PR), reviews one, publishes a document or files a financial note.
The dashboard counters follow the collections they count. A calendar
advances one day per tick. It files a monthly financial report on the first
of each month and holds a sprint meeting every fourteenth day of the year.
History snapshots can be restored or branched, and the state can be saved
to a server, exported and re-imported. Around this engine sit the domain
catalogs and the server's knowledge lookup and storage keys. The read-only
panels derive their views from the state.

The project models:

- **The session engine** (module `App`, class `App.Session`, over the
  `Engine` step functions). Every `Math.random()` is an explicit draw
  parameter (`Unit`, a real in [0,1); an index is `Pick(u, n)`, that is
  `floor(u*n)`). Every `Date.now()` id is the fresh counter `nextId`. Every
  `setTimeout` continuation is a method of its own. Each method states its
  new company as a step function of the old one. A lemma next to each step
  function proves it keeps `Engine.Inv`. `Inv` says that:
  - the global completed-task counter equals the sum of the agents' counters;
  - the bug counter equals the number of bug tasks;
  - the opened and merged PR counters match the PR list;
  - the page counter equals the number of documents;
  - every percentage lies in [0, 100];
  - there is at most one financial report per month;
  - ids are fresh;
  - every snapshot records such a consistent company.
- **The catalogs** (modules `DomainKnowledge`, `Activities`): the domain
  events, metric labels, role activity tables and OKR plans, written as
  index functions.
- **The server** (module `Server`): the domain-knowledge lookup with its
  SaaS fallback, the `simulation:<uid>:<id>` and `settings:<uid>` key
  scheme, and the handlers over an abstract key-value map with their
  authentication guard.
- **The views**: `TaskBoard`, `TimeTravel` (a class holding the panel's
  own selection state), `ExportImport`, `DocumentationPanel`,
  `TimelinePanel` (an in-place grouping loop and an in-place insertion
  sort), `ProductProgress`, `OKRPanel` and `MarketSimulation`.

Supporting modules:

- `Base`: Option, draws, filter.
- `Text`: JavaScript white space, trim, the `\s+` replacement, lower-casing, join, split and substring.
- `Calendar`: Gregorian dates, day numbers, `YYYY-MM` keys, decimal rendering.
- `Entities`: the records, the roster and the count functions.

Where the code and its evident intent part ways, the model keeps the code
as written next to a corrected version (see "## Findings").

One divergence shows in the invariant rather than as a finding.
`updateTaskStatus` (App.tsx:897-899) moves a task, from the TaskBoard
too, without touching a counter. So the invariant promises only
`tasksCompleted <= number of done tasks`, not equality.

## Model

| member | source | states |
|---|---|---|
| App.Session.constructor | src/App.tsx:187-219 | the first-render state: no project, default settings, setup dialog shown, no messages or events, stopped at speed 1 on 2025-01-01, 5 % market share of 50 000 000, the roster with no work, and a consistent company |
| App.Session.AddMessage | src/App.tsx:745-760 | exactly one message is appended, from the agent, stamped with the current date and a fresh id; nothing else in the company but the id counter changes |
| App.Session.CreateTask | src/App.tsx:762-780 | on a non-empty team one backlog task is appended under a fresh id, created by the agent and assigned to a drawn member of the team, no counter moves (a bug-typed template included), and one task message is appended; on an empty team reading the `undefined` assignee's id throws and nothing changes |
| App.NewTaskOnRoster | src/App.tsx:767 | on a consistent company the drawn assignee of a new task is a roster agent |
| App.Session.CreateDocumentation | src/App.tsx:782-803 | one document is appended, the page counter rises by one, and a "Published" message carrying the title (or `<type> Documentation` when the title is empty) is appended |
| App.Session.ReportBug | src/App.tsx:805-829 | one backlog, high-priority bug task assigned to the developer is appended, the bug counter rises by one, and one bug message with the drawn description is appended |
| App.Session.CreatePullRequest | src/App.tsx:831-853 | one open PR is appended under a fresh id, with reviewers QA and CEO, the opened counter rises by one, and one PR message with the drawn title is appended |
| App.Session.ReviewPullRequest | src/App.tsx:855-871 | with no open PR nothing but the company step happens and no merge is scheduled; otherwise the drawn open PR is approved (draw above 0.3) or left open, one PR message says which, and a merge is scheduled only for an approved PR when the second draw is above 0.5, and that PR is then approved in the new state |
| App.Session.MergePullRequest | src/App.tsx:873-878 | for a PR that is still approved, it alone becomes merged and the merged counter rises by one (the corrected `mergePullRequest`) |
| App.Session.CompleteRandomTask | src/App.tsx:880-895 | with no unfinished task of the agent nothing changes; otherwise the drawn unfinished task becomes done, the company steps by `Complete`, and one completion message naming it is appended |
| App.CompleteStepInv | src/App.tsx:880-895 | completing a roster agent's task keeps the invariant (global counter = sum of agent counters, one more done task) |
| App.Session.UpdateTaskStatus | src/App.tsx:897-899 | the tasks with the id take the new status; no counter changes |
| App.Session.ClickTask | src/components/TaskBoard.tsx:100-106 | a click moves the task one column to the right through `updateTaskStatus`; a done task stays where it is |
| App.Session.UpdateMetricsAndProgress | src/App.tsx:901-917 | the metrics, progress and OKRs grow only when the trigger draw is above 0.7, and otherwise the company is unchanged |
| App.GrowStepInv | src/App.tsx:901-917 | growth keeps progress, test coverage and every OKR within [0, 100] and the other counters intact |
| App.Session.AddTimelineEvent | src/App.tsx:919-926 | exactly one timeline event is appended, dated with the current day under a fresh id |
| App.Session.Execute | src/App.tsx:650-680 | the company steps by `ExecuteStep` for the activity's kind; a talking activity appends exactly its content as a message of the matching kind; old messages are kept and at most one is added; only a review may schedule a merge, and a scheduled PR is approved |
| App.ExecuteStepInv | src/App.tsx:650-680 | any activity of a roster agent other than a bug task template keeps the invariant |
| App.RandomEventFor | src/App.tsx:624-630 | an event fires exactly when random events are enabled, a project with a known domain is set and the trigger draw is at most 0.1, and it is one of that domain's events |
| App.Session.BeginActivity | src/App.tsx:621-648 | on any team, when an event fires the CEO posts it as a decision and nothing starts; otherwise, on an empty team `getAgentActivities` throws and nothing changes, and on a non-empty team the drawn agent begins thinking with its drawn activity, which is defined exactly for a roster agent (and then comes from its table) and `undefined` for an agent off the roster; no message is posted |
| App.BeginStepInv | src/App.tsx:621-648 | starting an activity keeps the invariant |
| App.Session.FinishActivity | src/App.tsx:640-647 | the agent is active again; a defined activity runs and the metrics may grow, while an `undefined` activity (thrown at `activity.type`) or a task on an empty team (thrown in `createTask`) stops the timer there, so no message is posted and growth is skipped; only a review may schedule a merge |
| App.FinishStepInv | src/App.tsx:640-647 | finishing a started activity, defined or `undefined`, keeps the invariant |
| App.Session.AdvanceTime | src/App.tsx:525-531 | the date becomes the next calendar day, one day number later |
| App.Session.SkipRound | src/App.tsx:535-538 | one loop iteration on any team: an activity begins (or, on an empty team without an event, nothing does) and the metrics may grow; what starts is defined exactly for a roster agent |
| App.Session.RunRounds | src/App.tsx:535-538 | the loop runs the rounds in order on any team, `company == SkipRounds(old company, rounds)`, and collects at most one started activity per round, each defined exactly for a roster agent |
| App.SkipRoundsSnoc | src/App.tsx:535-538 | running one more iteration extends the run by exactly that round |
| App.SkipRoundsInv | src/App.tsx:535-538 | any number of rounds keeps the invariant |
| App.Session.SkipTime | src/App.tsx:533-552 | on any team, `days / 2` rounds run, then the date jumps by exactly `days` calendar days and one "Fast-forwarded" milestone is logged under the date the skip started from |
| App.Session.CheckMonthlyReport | src/App.tsx:554-561 | a report is filed exactly when it is the first of a month with no record under its `YYYY-MM` key |
| App.ReportStepInv | src/App.tsx:554-561 | the report effect keeps at most one record per month, and no report is due again that day |
| App.Session.ConductSprintMeeting | src/App.tsx:570-578 | everyone is in a meeting, the CEO announces sprint planning, and the run pauses exactly when pause-on-milestone is set |
| App.Session.CheckSprint | src/App.tsx:563-568 | a meeting is held exactly on a day of the year divisible by 14 while running; otherwise nothing changes |
| App.Session.FinishSprintMeeting | src/App.tsx:580-594 | on a non-empty team the drawn agent posts the drawn comment and every agent is active again; on an empty team `addMessage` throws on the `undefined` agent and nothing changes |
| App.Session.Start | src/App.tsx:928-931 | the run starts and the CEO posts the kick-off naming the project (or "something amazing") |
| App.Session.Stop | src/App.tsx:933-935 | the run stops |
| App.Session.ProjectSetup | src/App.tsx:338-419 | the project is set and the dialog closed; the OKRs are the domain's plan; the history is exactly the initial day-0 snapshot; the five seeded rivals and two news items appear; one "Founded" milestone is logged |
| App.InitialCompetitors | src/App.tsx:345-353 | the market is seeded with five rivals |
| App.InitialMarketEvents | src/App.tsx:356-376 | the two news items are one positive and one negative |
| App.Session.SetSpeed | src/App.tsx:1087 | the speed buttons set the simulation speed to the chosen value |
| App.Session.UpdateSettings | src/App.tsx:1021 | the settings dialog replaces the settings with the submitted ones |
| App.Session.Reset | src/App.tsx:937-962 | stopped, the setup dialog back, no project, no messages or events, the date 2025-01-01, the default speed, and the company reset to the initial roster with no work and zero metrics while the OKRs and snapshots are kept |
| App.Session.RestoreSnapshot | src/App.tsx:1213-1226 | the ten data fields become exactly the snapshot's; the history and the date are kept |
| App.Session.CreateBranch | src/App.tsx:1227-1237 | one snapshot is appended: a copy of the source under a fresh id, with the label, marked as a branch whose parent is the source; the live data is unchanged |
| App.Session.LoadSimulation | src/App.tsx:315-336 | each missing list falls back to its initial value (the roster for agents, empty otherwise); the project gets a 6-month duration and no description; the date, progress and metrics come from the file |
| App.Session.ImportData | src/App.tsx:1262-1275 | every field the file carries overwrites the live state, and every absent field is kept; this uses the corrected truthiness test, so a progress of 0 is written, where the code as written (App.tsx:1273) keeps the old value |
| App.Session.SavePayload | src/App.tsx:270-292 | nothing is posted without a signed-in user and a project; otherwise the body carries the project, the date, the progress, metrics, agents, tasks, PRs, OKRs, documents, financial records and timeline unchanged, and exactly the last 50 messages (all of them when fewer) |
| Engine.ProjectNameOr | src/App.tsx:930 | `projectName \|\| 'something amazing'`: never empty, and the project's own name when it has one |
| Engine.Clamp100 | src/App.tsx:903 | `Math.min(100, p + delta)` never exceeds 100, never falls below `p` when `p <= 100`, and equals `p + delta` when that fits |
| Engine.GrowMetrics | src/App.tsx:904-910 | users and revenue rise by under 25 and 250, features by one on a draw above 0.85, test coverage stays a percentage and never falls, and every other counter is unchanged |
| Engine.GrowOKRs | src/App.tsx:912-915 | every OKR keeps all fields but progress, which stays a percentage and never falls |
| Engine.GrowProgress | src/App.tsx:903 | product progress stays a percentage and never falls |
| Engine.MonthlyReport | src/App.tsx:597-612 | the record of the month has `mrr = revenue`, `arr = 12 * revenue`, expenses in [85 000, 100 000), profit as revenue minus expenses (rounded), runway 24 exactly when profit is not negative and 6..17 otherwise, and a non-negative burn rate |
| Engine.ReportFiledOnce | src/App.tsx:554-560 | once a month's report is filed it is not due again in that month, and the records keep one per month |
| Engine.DocTitle | src/App.tsx:792 | the title, or `<type> Documentation` when it is empty; never empty |
| Engine.IncompleteForEmpty | src/App.tsx:881-882 | an agent has nothing to complete exactly when each of its tasks is done |
| Engine.IncompleteForMembers | src/App.tsx:881-882 | every candidate is a task of the agent that is not done |
| Engine.OpenPRsMembers | src/App.tsx:856 | every review candidate is an open PR from the list |
| Engine.TickInterval | src/App.tsx:510-512 | the tick period is positive |
| Engine.TickIntervalOrder | src/App.tsx:510-512 | high frequency ticks faster than medium, medium faster than low, doubling the speed halves the period, and medium at speed 1 is 3000 ms |
| Engine.InitialSnapshotOf | src/App.tsx:378-404 | the initial snapshot is day 0, not a branch, without a parent, holding the roster, the given OKRs, no tasks, zero metrics and zero progress |
| Engine.Branch | src/App.tsx:1227-1236 | a branch copies the source's data and day, takes the new id and label, is a branch, and points back at the source |
| Engine.ApplyImport | src/App.tsx:1262-1275 | each present field is written, each absent field kept (corrected: a present progress of 0 is written too) |
| Engine.ImportOfExportRestores | src/App.tsx:1262-1275 | importing every field of a state restores that state, whatever it was before |
| Engine.EmptyImportKeeps | src/App.tsx:1262-1275 | a file that carries nothing changes nothing |
| Engine.ImportAsWritten | src/App.tsx:1273 | as written, a present progress of 0 is skipped by `if (data.productProgress)` |
| Engine.ImportSkipsZeroProgress | src/App.tsx:1273 | an export taken at progress 0 imported over progress 50 leaves 50 as written, and round-trips under the corrected import |
| Engine.MergeAsWritten | src/App.tsx:873-878 | as written, the merged counter rises by one whether or not any approved PR has the id |
| Engine.MergeAfterResetOvercounts | src/App.tsx:873-878 | a merge timer that fires after a reset leaves more merged PRs than opened ones, breaking the counter agreement |
| Engine.FirstCompanyInv | src/App.tsx:112-219 | the first-render company is consistent |
| Engine.LaterInv | src/App.tsx:745-760 | handing out ids never breaks the invariant |
| Engine.AddTaskInv | src/App.tsx:762-780 | a new backlog task that is not a bug, under a fresh id, keeps the invariant with no counter moved |
| Engine.FileBugInv | src/App.tsx:805-829 | a new backlog bug under a fresh id, with the bug counter one higher, keeps the invariant |
| Engine.AddPRInv | src/App.tsx:831-853 | a new open PR under a fresh id with one more opened keeps the invariant |
| Engine.AddDocInv | src/App.tsx:782-803 | one more document with one more page keeps the invariant |
| Engine.ReviewInv | src/App.tsx:855-871 | an open PR that stays open or becomes approved keeps the invariant |
| Engine.MergeInv | src/App.tsx:873-878 | merging an approved PR keeps `prsMerged` equal to the number of merged PRs, so it stays at most `prsOpened` |
| Engine.CompleteTasks | src/App.tsx:880-889 | marking an unfinished task done adds exactly one done task, makes that task done, keeps every position's id and kind, and keeps the task counters consistent with the completed count one higher |
| Engine.CompleteInv | src/App.tsx:880-895 | one unfinished task becomes done and the global and agent counters each rise by one, keeping the invariant |
| Engine.MoveTaskInv | src/App.tsx:897-899 | moving a task that is not done touches no counter and keeps the invariant |
| Engine.AdvanceInv | src/components/TaskBoard.tsx:100-106 | moving a task from the board that is not done keeps the invariant |
| Engine.GrowInv | src/App.tsx:901-917 | growth keeps the invariant |
| Engine.FileInv | src/App.tsx:597-619 | filing a report of a month with none yet keeps the invariant |
| Engine.StatusInv | src/App.tsx:570-594 | status changes of one or all agents keep the invariant |
| Engine.SetupInv | src/App.tsx:338-419 | fresh OKRs with the initial snapshot as history keep the invariant |
| Engine.ClearedInv | src/App.tsx:937-962 | the reset company is consistent |
| Engine.RestoredInv | src/App.tsx:1213-1226 | restoring a recorded snapshot gives a consistent company |
| Engine.BranchedInv | src/App.tsx:1227-1237 | branching a recorded snapshot keeps the history consistent |
| Engine.SnapshotsBranch | src/App.tsx:1227-1237 | the history with a new branch under the counter is consistent under the next counter |
| Engine.SnapshotsLater | src/App.tsx:1227-1237 | a history consistent under a counter stays consistent under any later one |
| Entities.InitialAgent | src/App.tsx:112-176 | roster entry `k` has the `k`-th roster id, is active and has completed nothing |
| Entities.InitialAgents | src/App.tsx:112-176 | the roster in order, one agent per roster id |
| Entities.InitialAgentsAreRoster | src/App.tsx:112-176 | the initial agents carry exactly the roster ids, are all active, and have a total of zero completions |
| Entities.RosterIdsDistinct | src/App.tsx:112-176 | the seven roster ids are distinct |
| Entities.RoleOf | src/App.tsx:682-743 | an id names a role exactly when it is a roster id, and that role's id is the id |
| Entities.BumpCompletedTotal | src/App.tsx:886-888 | with distinct ids, bumping an agent's counter raises the total by exactly one when the agent is on the team |
| Entities.SetDoneCount | src/App.tsx:884 | moving the tasks with an id to done adds exactly the ones that were not done |
| Entities.PendingWithIdAtMostOne | src/App.tsx:884 | with distinct ids at most one task is pending under an id |
| Entities.SetStatusDoneMonotone | src/App.tsx:897-899 | moving tasks that are not done never lowers the number of done tasks |
| Entities.SetMergedCount | src/App.tsx:873-878 | merging an approved PR (ids distinct) adds exactly one merged PR |
| Entities.SetApprovedCount | src/App.tsx:861-863 | approving an open PR leaves the number of merged PRs alone |
| Entities.SetOpenKeepsCounts | src/App.tsx:861-863 | a review that leaves the PR open changes no PR |
| Entities.SetPRStatusAt | src/App.tsx:861-863 | with distinct ids a status change touches exactly the one PR with the id |
| Entities.SetTaskStatusAt | src/App.tsx:897-899 | with distinct ids a status change touches exactly the one task with the id |
| Entities.AddTaskKeeps | src/App.tsx:762-829 | appending a fresh task that is not done keeps the task counters when it is not a bug, and keeps them with the bug count one higher when it is |
| Entities.AddPRKeeps | src/App.tsx:831-853 | appending a fresh open PR keeps the PR counters with one more opened |
| Entities.ConsistentMergedAtMostOpened | src/App.tsx:873-878 | consistent data never shows more merged PRs than opened ones |
| Entities.StartDataConsistent | src/App.tsx:378-404 | a fresh project's data is consistent |
| Activities.RoleActivity | src/App.tsx:683-740 | each role's table entry is one the role may do: only QA reviews and reports bugs, only the developer opens PRs, only the documentation lead publishes (under a title), only the CFO posts financial notes |
| Activities.GetAgentActivities | src/App.tsx:682-743 | six activities for a roster id, none for any other id |
| Activities.ActivityPlacement | src/App.tsx:682-743 | the activity an agent draws from its table is a review or bug report only for QA, a PR only for the developer, a document only for the documentation lead, a financial note only for the CFO |
| Activities.TaskActivitiesAreNotBugs | src/App.tsx:682-743 | no task template is a bug task |
| Activities.Objective | src/App.tsx:421-506 | each objective starts at progress 0 with three key results and id "1" or "2" |
| Activities.GetOKRsForDomain | src/App.tsx:421-506 | a known domain gets its own plan, any other domain the default plan; always two fresh objectives of three key results |
| DomainKnowledge.DomainsCovered | src/utils/domainKnowledge.ts:69-160 | the event tables are keyed by exactly the ten domains the setup form offers |
| DomainKnowledge.DomainEvents | src/utils/domainKnowledge.ts:69-160 | every domain's event list has the same, non-zero length, so the drawn index is in range |
| DomainKnowledge.GetRandomEvent | src/utils/domainKnowledge.ts:201-207 | an event exactly when the domain has a table and the trigger draw is at most 0.1, and then one of that domain's events |
| DomainKnowledge.MetricsLabels | src/utils/domainKnowledge.ts:211-262 | every label table defines users, revenue and features |
| DomainKnowledge.GetDomainMetrics | src/utils/domainKnowledge.ts:210-265 | the labels always define users, revenue and features, and an unknown domain gets SaaS's labels with revenue as "MRR" |
| DomainKnowledge.GetDomainMetricsFallback | src/utils/domainKnowledge.ts:264 | any domain not in the table gets exactly the SaaS labels |
| Server.DomainOf | src/supabase/functions/server/index.tsx:194-415 | the knowledge table has exactly the SaaS, e-commerce, fintech, healthcare and edtech domains |
| Server.RoleTable | src/supabase/functions/server/index.tsx:194-415 | each domain's table holds the CEO, the developer and the marketer, each with five messages and three task ideas |
| Server.LookupFallback | src/supabase/functions/server/index.tsx:417 | the requested domain's table is used when it has the role, SaaS's table for the same role when the domain is unknown, and a role is known exactly for the CEO, developer and marketer |
| Server.GenerateDomainSpecificAction | src/supabase/functions/server/index.tsx:188-432 | an action exactly when the role is known and the type is "message" or "task"; a message is one of the role's messages, a task one of its task ideas |
| Server.UnknownDomainIsSaas | src/supabase/functions/server/index.tsx:417 | a domain without a table behaves as SaaS |
| Server.OtherRolesGetNull | src/supabase/functions/server/index.tsx:419-431 | null exactly for a role with no knowledge or an action type other than message and task |
| Server.SimulationKey | src/supabase/functions/server/index.tsx:63 | the save key starts with the owner's listing prefix and ends with the simulation id |
| Server.SettingsKey | src/supabase/functions/server/index.tsx:134 | the settings key is `settings:` followed by the user id |
| Server.KeySpacesDisjoint | src/supabase/functions/server/index.tsx:63 | a settings key is never a simulation key |
| Server.SimulationKeyInjective | src/supabase/functions/server/index.tsx:63 | for colon-free user ids, the key determines the user and the simulation id |
| Server.PrefixSeparatesUsers | src/supabase/functions/server/index.tsx:89 | another colon-free user's keys never fall under this user's listing prefix |
| Server.ColonInUserIdLeaks | src/supabase/functions/server/index.tsx:63 | without that condition, user "a" saving id "b:c" writes a key user "a:b" lists |
| Server.SaveSimulation | src/supabase/functions/server/index.tsx:53-78 | without a user: 401 and no write; otherwise the blob stamped with the user id and the time is written under the user's key and nothing else changes |
| Server.ListSimulations | src/supabase/functions/server/index.tsx:80-99 | without a user: 401; otherwise exactly the blobs under the user's prefix |
| Server.DeleteSimulation | src/supabase/functions/server/index.tsx:101-121 | without a user: 401 and no change; otherwise exactly the user's key is removed |
| Server.SaveSettings | src/supabase/functions/server/index.tsx:124-148 | without a user: 401 and no write; otherwise the stamped settings are written under the user's settings key |
| Server.LoadSettings | src/supabase/functions/server/index.tsx:151-171 | without a user: 401; otherwise the stored settings or null |
| Server.SavedIsListed | src/supabase/functions/server/index.tsx:63-89 | a saved simulation is in its owner's listing |
| Server.SaveThenDelete | src/supabase/functions/server/index.tsx:63-111 | delete removes exactly the key save wrote |
| Server.WritesAreStamped | src/supabase/functions/server/index.tsx:65-69 | every blob a user writes carries that user's id, and no other key changes |
| TaskBoard.StatusIndex | src/components/TaskBoard.tsx:102-103 | every status has its column |
| TaskBoard.NextStatus | src/components/TaskBoard.tsx:102-105 | no next status exactly for a done task; otherwise the status one column to the right |
| TaskBoard.ClickOrder | src/components/TaskBoard.tsx:102-105 | clicks walk backlog, in progress, review, done, and stop there |
| TaskBoard.InExactlyOneColumn | src/components/TaskBoard.tsx:83 | a task is in a column exactly when it has that column's status |
| TaskBoard.ColumnCountsSum | src/components/TaskBoard.tsx:83 | the column counts add up to the number of tasks |
| TimeTravel.IndexOf | src/components/TimeTravel.tsx:191 | `indexOf`: the first position holding the snapshot, or -1 exactly when it is absent |
| TimeTravel.IndexOfDistinct | src/components/TimeTravel.tsx:191 | in a history with distinct ids each snapshot is found at its own position |
| TimeTravel.HistoryDistinct | src/App.tsx:1227-1237 | the session's history always has distinct ids |
| TimeTravel.CurrentSnapshot | src/components/TimeTravel.tsx:88 | the selection when there is one, otherwise the snapshot at the current index when that is in range |
| TimeTravel.RestoreDisabledOnCurrent | src/components/TimeTravel.tsx:191 | restore is disabled while simulating and for the snapshot the session is at |
| TimeTravel.RestoreEnabledOnOther | src/components/TimeTravel.tsx:191 | selecting another snapshot enables restore when not simulating |
| TimeTravel.TimeTravelView.constructor | src/components/TimeTravel.tsx:47-50 | no selection, no branch name, compare off, an empty pair |
| TimeTravel.TimeTravelView.SliderChange | src/components/TimeTravel.tsx:52-57 | an index inside the history selects that snapshot; any other keeps the selection |
| TimeTravel.TimeTravelView.SetBranchName | src/components/TimeTravel.tsx:216 | the name is the input |
| TimeTravel.TimeTravelView.Restore | src/components/TimeTravel.tsx:59-63 | the selection is handed on exactly when there is one |
| TimeTravel.TimeTravelView.CreateBranch | src/components/TimeTravel.tsx:65-70 | the selection and the untrimmed name are handed on exactly when there is a selection and a name that is not blank, and then the name is cleared; otherwise nothing changes |
| TimeTravel.TimeTravelView.ToggleCompare | src/components/TimeTravel.tsx:72-80 | [null, null] becomes [s, null], [a, null] becomes [a, s], [a, b] becomes [s, null]; the pair never has a hole in front |
| TimeTravel.TimeTravelView.Compare | src/components/TimeTravel.tsx:82-86 | the pair is handed on exactly when both slots are filled |
| TimeTravel.TimeTravelView.ToggleCompareMode | src/components/TimeTravel.tsx:109-112 | compare mode flips and the pair empties |
| TimeTravel.TimeTravelView.ClickSnapshot | src/components/TimeTravel.tsx:249-255 | in compare mode the snapshot joins the pair; otherwise it is selected |
| ExportImport.StatusTextInjective | src/components/ExportImport.tsx:55 | distinct statuses are written as distinct cells |
| ExportImport.Quote | src/components/ExportImport.tsx:64 | a cell is written between double quotes, verbatim and unescaped |
| ExportImport.TaskCells | src/components/ExportImport.tsx:52-60 | a task gives one cell per header column |
| ExportImport.HeaderColumns | src/components/ExportImport.tsx:51-63 | the header line splits back into exactly the seven column names |
| ExportImport.RowCells | src/components/ExportImport.tsx:52-64 | a row is exactly the seven quoted cells id, title, status, assignee, priority, type and creator, each verbatim, when no free-text field holds a comma |
| ExportImport.CsvLines | src/components/ExportImport.tsx:62-65 | the CSV is the header line and then one row per task, in order, when no field holds a line break |
| ExportImport.SummaryAsWritten | src/components/ExportImport.tsx:110-123 | the summary counts all tasks, the done tasks, the open PRs, the team and the documents |
| ExportImport.SummaryAsWrittenBlind | src/components/ExportImport.tsx:112-122 | as written, the project name and industry are always undefined and the active-OKR count is always 0 |
| ExportImport.SummaryOf | src/components/ExportImport.tsx:110-123 | the corrected summary reports the project name and domain when a project is set, with the same counts |
| ExportImport.ActiveOKRsCount | src/components/ExportImport.tsx:122 | the corrected active OKRs and the complete ones together are all OKRs |
| ExportImport.FreshGoalsActive | src/components/ExportImport.tsx:122 | with a fresh plan every OKR is active in the corrected summary and none in the summary as written |
| ExportImport.SummaryAgreesWithCounters | src/components/ExportImport.tsx:117-121 | on a consistent state the page count is the document count, the counted completions are done tasks, and open plus merged PRs are at most the opened ones |
| ExportImport.ExportOf | src/components/ExportImport.tsx:31-36 | the export carries version "1.0" and the export time |
| ExportImport.ExportComplete | src/components/ExportImport.tsx:31-36 | the export carries the whole state, nothing lost or altered |
| ExportImport.ImportFile | src/components/ExportImport.tsx:156-171 | a file that parses is handed to the import unchanged; one that does not leaves the state as it was |
| ExportImport.ExportImportRoundTrip | src/components/ExportImport.tsx:31-171 | under the corrected import, importing an export of a state with a project restores that state, whatever the state before; as written, a progress of 0 is not restored (see "## Findings"); nested dates are restored as dates, which the JSON file does not do (see "## Left out") |
| DocumentationPanel.FileStem | src/components/DocumentationPanel.tsx:23 | the slug has no white space and is no longer than the title |
| DocumentationPanel.FileName | src/components/DocumentationPanel.tsx:23 | the download name is the slug followed by `.md` and holds no white space |
| DocumentationPanel.FileNameOfWord | src/components/DocumentationPanel.tsx:23 | a title without white space is only lower-cased |
| DocumentationPanel.FileNameOfTwoWords | src/components/DocumentationPanel.tsx:23 | two words with any white-space run between them are joined by one dash |
| DocumentationPanel.FileStemIdempotent | src/components/DocumentationPanel.tsx:23 | slugging a slug changes nothing |
| DocumentationPanel.InOwnTabOnly | src/components/DocumentationPanel.tsx:72-77 | a document is in the tab of its own type and in no other |
| DocumentationPanel.TabCountsSum | src/components/DocumentationPanel.tsx:72-77 | the four tab counts add up to the "All" count |
| DocumentationPanel.Preview | src/components/DocumentationPanel.tsx:130 | the preview is the first 200 characters (all of a shorter text) followed by "..." |
| DocumentationPanel.FindAgent | src/components/DocumentationPanel.tsx:14-16 | the first agent with the id, none exactly when no agent has it |
| DocumentationPanel.Section | src/components/DocumentationPanel.tsx:31-32 | each section begins `# <title>` |
| DocumentationPanel.BundleSections | src/components/DocumentationPanel.tsx:30-33 | the bundle holds each document's section at its position in list order, the next one a newline later |
| TimelinePanel.GroupByMonth | src/components/TimelinePanel.tsx:55-67 | the dictionary built event by event is the reference grouping Grouped: one key per month present, each group exactly its month's events in order, every event grouped, sizes adding up to the number of events, no more months than events and at least one for a non-empty list |
| TimelinePanel.GroupedShape | src/components/TimelinePanel.tsx:55-67 | the keys are the months that occur, once each, and each group lists exactly its month's events |
| TimelinePanel.GroupedCount | src/components/TimelinePanel.tsx:55-67 | the group sizes add up to the number of events |
| TimelinePanel.InOwnMonthOnly | src/components/TimelinePanel.tsx:59 | an event is in its own month's group and in another group exactly when it shares that month |
| TimelinePanel.SortDown | src/components/TimelinePanel.tsx:70-74 | the stable sort is a permutation |
| TimelinePanel.SortDownSorted | src/components/TimelinePanel.tsx:70-74 | the sort orders by decreasing key |
| TimelinePanel.SortedMonths | src/components/TimelinePanel.tsx:70-74 | the sorted months are a permutation of the group keys |
| TimelinePanel.MonthsNewestFirst | src/components/TimelinePanel.tsx:70-74 | ordering by each group's first event orders the months newest first by the calendar, each month once |
| TimelinePanel.FirstOfGroupInMonth | src/components/TimelinePanel.tsx:71-72 | a group's first event falls in that group's month |
| TimelinePanel.SiftLeft | src/components/TimelinePanel.tsx:101-102 | one insertion step extends the newest-first prefix by one element and permutes the array |
| TimelinePanel.SortNewestFirst | src/components/TimelinePanel.tsx:101-102 | the in-place sort leaves the array newest first and is a permutation of it |
| TimelinePanel.SummaryCoversTypes | src/components/TimelinePanel.tsx:147 | the five listed types are every type there is |
| TimelinePanel.TypeCountsSum | src/components/TimelinePanel.tsx:147-148 | the five summary counts add up to the number of events |
| ProductProgress.Threshold | src/components/ProductProgress.tsx:16-23 | every threshold lies between 10 and 100 |
| ProductProgress.Milestones | src/components/ProductProgress.tsx:16-23 | six milestones |
| ProductProgress.ThresholdsIncrease | src/components/ProductProgress.tsx:16-23 | the thresholds strictly increase, ending at 100 |
| ProductProgress.CompletedPrefix | src/components/ProductProgress.tsx:16-23 | the completed milestones are exactly the first `Reached(progress)`, so they form a prefix |
| ProductProgress.ReachedBelow | src/components/ProductProgress.tsx:16-23 | every counted milestone's threshold is reached |
| ProductProgress.ReachedAbove | src/components/ProductProgress.tsx:16-23 | every uncounted milestone's threshold is above the progress |
| ProductProgress.CompletedCountIsReached | src/components/ProductProgress.tsx:16-23 | the number of completed milestones is the number of thresholds reached |
| ProductProgress.BannerIffLastMilestone | src/components/ProductProgress.tsx:22-104 | the launch banner shows exactly when the last milestone, and so every milestone, is completed |
| ProductProgress.GrowthKeepsMilestones | src/App.tsx:903 | a growth round of the session never takes a milestone back |
| ProductProgress.Counts | src/components/ProductProgress.tsx:12-14 | the done, in-progress and total task counts |
| ProductProgress.CountsWithinTotal | src/components/ProductProgress.tsx:12-14 | done plus in progress never exceeds the total |
| OKRPanel.TickedIff | src/components/OKRPanel.tsx:72 | key result `i` of `n` is ticked exactly when `progress * n > (i + 1) * 100` |
| OKRPanel.TickedPrefix | src/components/OKRPanel.tsx:72 | the ticked key results form a prefix |
| OKRPanel.LastTickedIff | src/components/OKRPanel.tsx:72 | the last key result is ticked exactly above 100 % |
| OKRPanel.CompleteButLastUnticked | src/components/OKRPanel.tsx:34-72 | as written, a complete OKR at exactly 100 shows its last key result unticked |
| OKRPanel.SessionNeverTicksLast | src/App.tsx:912-915 | the session caps OKRs at 100, so as written no last key result is ever ticked |
| OKRPanel.MetIff | src/components/OKRPanel.tsx:72 | under the corrected rule, key result `i` is met exactly when `progress * n >= (i + 1) * 100` |
| OKRPanel.MetMatchesCompletion | src/components/OKRPanel.tsx:34-72 | under the corrected rule the last key result is met exactly when the OKR is complete, the met ones form a prefix, and a complete OKR has every key result met |
| MarketSimulation.Rank | src/components/MarketSimulation.tsx:65 | the rank lies between 1 and the number of rivals plus one |
| MarketSimulation.RankExtremes | src/components/MarketSimulation.tsx:65 | first exactly when no rival has a larger share, last exactly when every rival does |
| MarketSimulation.RankMonotone | src/components/MarketSimulation.tsx:65 | a larger share never ranks worse |
| MarketSimulation.SetupRanksLast | src/App.tsx:345-353 | a new project at 5 % ranks sixth, behind all five seeded rivals |
| MarketSimulation.ShareData | src/components/MarketSimulation.tsx:45-52 | the pie has one slice more than there are rivals |
| MarketSimulation.ShareDataShape | src/components/MarketSimulation.tsx:45-52 | your company comes first with your share, then each rival in order with its own share, and rivals past the palette get the fallback grey |
| MarketSimulation.StrengthBands | src/components/MarketSimulation.tsx:199 | Strong above 70, Medium above 40 up to 70, Weak up to 40, and a stronger rival never gets a weaker label |
| MarketSimulation.ShownEvents | src/components/MarketSimulation.tsx:224 | at most the first five events, in order |
| Calendar.NextDay | src/App.tsx:527-528 | the next day is one day number later, and it is the first of a month exactly when the day was the last of its month |
| Calendar.AddDaysCounts | src/App.tsx:541-542 | adding `n` days moves the day number by exactly `n` |
| Calendar.DayOfYearRange | src/App.tsx:564 | the day of the year lies between 1 and the year's length |
| Calendar.MonthKeyInjective | src/App.tsx:555 | equal `YYYY-MM` keys mean the same calendar month |
| Calendar.NatToStringRoundTrip | src/App.tsx:555 | the decimal rendering reads back as the number |
| Calendar.Pad2RoundTrip | src/App.tsx:555 | the two-digit month reads back as the month |
| Text.TrimEmptyIffBlank | src/components/TimeTravel.tsx:66 | `trim()` is empty exactly when the text is white space only |
| Text.DashRunsOfRun | src/components/DocumentationPanel.tsx:23 | `replace(/\s+/g, '-')` turns one white-space run into one dash |
| Text.SplitJoin | src/components/ExportImport.tsx:62-65 | splitting a join gives the parts back when no part holds the separator |
| Text.JoinPartPosition | src/components/DocumentationPanel.tsx:30-33 | each part of a join appears at its position, the next part one separator later |
| Base.LastN | src/App.tsx:285 | `slice(-n)` keeps the last `n` elements (all when fewer) |
| Base.FilterMembers | src/components/TaskBoard.tsx:83 | `filter` keeps exactly the elements that pass the test |

## Left out

- Network, authentication and storage I/O are not modelled: `loadSettings`, the save fetch, `getSmartAgentAction`, and the Supabase and key-value calls. The server handlers act on an abstract map, and the authenticated user is a parameter.
- Timers and concurrency are not modelled: the `setInterval` tick, auto-save, and the races between timer continuations and reset. Each `setTimeout` continuation is a method the caller runs in sequence.
- The wall clock, locale formatting and wall-clock ids are not modelled: `new Date()` stamps are parameters, `toLocaleDateString` is the `dateText` parameter of the bundle, and month groups use (year, month) keys.
- Side effects with no state are not modelled: toasts, Blob and URL downloads, the clipboard, `FileReader`, JSON text, `copyShareableLink` and the download file name of the full export.
- `exportFinancialsCSV` is not modelled: it reads `date`, `type` and `cash`, which financial records do not have.
- MarketSimulation's `marketGrowthData` is not modelled: it is plain float scaling with nothing to state.
- The wording of the text tables is copied, but no property beyond their shape and ownership is stated about it. The source files are read as UTF-8, so their emoji (the agents' avatars, the message prefixes) appear decoded, as the program shows them.
- ExportImport.RowCells: CSV escaping is not modelled; fields with commas, quotes or line breaks are excluded by the precondition, because the source does not escape them and such rows do not read back.
- DocumentationPanel.FileStem: `toLowerCase` is modelled on ASCII letters only; other letters are left as they are.
- Calendar.DayOfYear and App.Session.CheckSprint: the day of the year is computed for a time zone without daylight saving time. In a zone with summer time the source's millisecond difference (App.tsx:564) is one hour short of whole days on summer-time dates, so it counts one day less and sprint meetings slip by a day.
- JavaScript doubles are modelled as Dafny reals: `Engine.Clamp100`, `Engine.GrowOKRs`, `Engine.GrowProgress`, the floors of `Engine.MonthlyReport` and the OKR panel's threshold `(index + 1) * (100 / n)`, restated as `progress * n > (i + 1) * 100`. The two differ only where a double rounds exactly at a threshold.
- The white-space set is JavaScript's `\s` as Dafny characters; surrogate pairs are not modelled.
- DocumentationPanel.Preview and Text.Prefix: lengths count Dafny characters, while JavaScript's `substring(0, 200)` counts UTF-16 code units, so a text holding characters outside the Basic Multilingual Plane (the emoji of the text tables) is cut at a different place.
- TimelinePanel.SortNewestFirst: the in-place insertion sort is proved ordered and a permutation, but not stable; the stable order is stated only for the pure `SortDown`.
- App.Session.LoadSimulation: the model does not claim the loaded state is consistent, because the file is not checked in the source either. Dates are modelled as calendar values throughout, but the file is JSON text: every nested date (message `timestamp`, PR `createdAt`, document `lastUpdated`, timeline `date`, snapshot dates) comes back as an ISO string, and only the current date is revived with `new Date(...)` (App.tsx:322); the model keeps them as dates.
- App.Session.ImportData: the model does not claim the imported state is consistent, for the same reason. It also uses the corrected `Engine.ApplyImport`: a file carrying a progress of 0 sets the progress to 0, where the code as written (App.tsx:1273) keeps the old value; that behaviour is `Engine.ImportAsWritten`. Dates are modelled as calendar values throughout, but the file is JSON text: every nested date (message `timestamp`, PR `createdAt`, document `lastUpdated`, timeline `date`, snapshot dates) comes back as an ISO string, and only the current date is revived with `new Date(...)` (App.tsx:1274); the model keeps them as dates.
- ExportImport.ExportImportRoundTrip: the round trip is proved for the corrected import only; as written, an export taken at a progress of 0 does not restore it (`Engine.ImportSkipsZeroProgress`). The restored state is also the exported one only up to JSON: the nested dates come back as ISO strings and only `currentDate` is revived (App.tsx:1274), so the source's later `toLocaleTimeString` and `toLocaleDateString` calls on them would throw; the model restores them as dates.
- App.Session.SkipTime: the draws of all rounds are one sequence parameter.
- TimeTravel.IndexOf: `indexOf` compares objects by reference; the model compares snapshot values, which agrees on the session's history, whose snapshot ids are distinct.
- App.Session.MergePullRequest: it requires the PR to be still approved, which the source does not check (see "## Findings").
- The session methods do not carry the invariant in their contracts. Each method's new company is a step function of the old one, and the `...Inv` lemmas prove the step keeps the invariant.
- A `TypeError` the source throws on a team that a load or an import installed (an empty team, or an agent off the roster, App.tsx:325 and 1264) is modelled as the handler stopping at that point, with the changes made before it kept; the error report itself is not modelled.
- The stale-closure behaviour of React state updates inside one handler is not modelled; each handler sees the state left by the previous one.
- The component rendering code without stateable logic is not modelled: ChatPanel, AgentCard, CompanyMetrics, PullRequestPanel, TimeControls, ProjectSetupModal, SettingsModal, AdvancedAnalytics and FinancialReports.

## Findings

| source | as written | input that shows it | evidently intended | confidence | as-written member | corrected member |
|---|---|---|---|---|---|---|
| src/App.tsx:1273 | `if (data.productProgress)` skips a present progress of 0 | an export taken at progress 0 imported over progress 50 leaves 50 | every field the file carries is written back | not executed | Engine.ImportSkipsZeroProgress | Engine.ImportOfExportRestores |
| src/App.tsx:873-878 | `mergePullRequest` marks the id merged and raises the counter whatever the PR's status, even when no PR has the id | a merge timer that fires after a reset, on an empty PR list | only a PR that is still approved is merged, so `prsMerged <= prsOpened` | not executed | Engine.MergeAfterResetOvercounts | Engine.MergeInv |
| src/components/ExportImport.tsx:112-122 | the summary reads `projectConfig.name`, `projectConfig.industry` and `okr.status`, which the records do not have | any state (a fresh plan of two OKRs at 0 gives `activeOKRs` 0) | the project name, its domain, and the OKRs not yet complete | not executed | ExportImport.SummaryAsWrittenBlind | ExportImport.FreshGoalsActive |
| src/components/OKRPanel.tsx:72 | key result `i` is ticked when `progress > (i + 1) * (100 / n)`, strictly | an OKR at 100 % with three key results shows the third unticked | a complete OKR shows every key result ticked (`>=`) | not executed | OKRPanel.CompleteButLastUnticked | OKRPanel.MetMatchesCompletion |
