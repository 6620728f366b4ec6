/** The product-development card (ProductProgress.tsx): the task counts
    and the six milestones with their progress thresholds. */
module ProductProgress {
  import opened Base
  import opened Entities
  import opened Engine

  const MilestoneCount: nat := 6

  /** The thresholds, in percent of product progress (ProductProgress.tsx:16-23). */
  function Threshold(k: nat): (t: real)
    requires k < MilestoneCount
    ensures 10.0 <= t <= 100.0
  {
    if k == 0 then 10.0
    else if k == 1 then 25.0
    else if k == 2 then 40.0
    else if k == 3 then 60.0
    else if k == 4 then 75.0
    else 100.0
  }

  function MilestoneName(k: nat): string
    requires k < MilestoneCount
  {
    if k == 0 then "MVP Planning"
    else if k == 1 then "Core Features"
    else if k == 2 then "Design System"
    else if k == 3 then "Beta Testing"
    else if k == 4 then "Marketing Launch"
    else "Public Release"
  }

  datatype MilestoneItem = MilestoneItem(name: string, threshold: real, completed: bool)

  /** The milestone list for a progress value: each completed when the
      progress has reached its threshold. */
  function Milestones(progress: real): (r: seq<MilestoneItem>)
    ensures |r| == MilestoneCount
  {
    seq(MilestoneCount, k requires 0 <= k < MilestoneCount =>
      MilestoneItem(MilestoneName(k), Threshold(k), progress >= Threshold(k)))
  }

  /** The thresholds strictly increase, the last is 100. */
  lemma ThresholdsIncrease(i: nat, j: nat)
    requires i < j < MilestoneCount
    ensures Threshold(i) < Threshold(j)
    ensures Threshold(MilestoneCount - 1) == 100.0
  {
  }

  /** How many thresholds a progress value has reached, read off the list of thresholds. */
  function Reached(progress: real): (n: nat)
    ensures n <= MilestoneCount
  {
    if progress >= 100.0 then 6
    else if progress >= 75.0 then 5
    else if progress >= 60.0 then 4
    else if progress >= 40.0 then 3
    else if progress >= 25.0 then 2
    else if progress >= 10.0 then 1
    else 0
  }

  /** The completed milestones are exactly the first `Reached(progress)`:
      they always form a prefix of the list. */
  lemma CompletedPrefix(progress: real)
    ensures forall k :: 0 <= k < MilestoneCount ==>
      (Milestones(progress)[k].completed <==> k < Reached(progress))
  {
    forall k | 0 <= k < MilestoneCount
      ensures Milestones(progress)[k].completed <==> k < Reached(progress)
    {
      if k < Reached(progress) {
        ReachedBelow(progress, k);
      } else {
        ReachedAbove(progress, k);
      }
    }
  }

  lemma ReachedBelow(progress: real, k: nat)
    requires k < Reached(progress)
    ensures progress >= Threshold(k)
  {
  }

  lemma ReachedAbove(progress: real, k: nat)
    requires Reached(progress) <= k < MilestoneCount
    ensures progress < Threshold(k)
  {
  }

  /** A filter over a list whose passing elements are exactly its first `c` keeps `c`. */
  lemma {:induction false} FilterPrefixCount<T>(s: seq<T>, p: T -> bool, c: nat)
    requires c <= |s|
    requires forall k :: 0 <= k < |s| ==> (p(s[k]) <==> k < c)
    ensures |Filter(s, p)| == c
    decreases |s|
  {
    if s != [] {
      var init := s[..|s| - 1];
      if c == |s| {
        FilterAll(s, p);
      } else {
        assert forall k :: 0 <= k < |init| ==> init[k] == s[k];
        FilterPrefixCount(init, p, c);
      }
    }
  }

  /** The number of completed milestones. */
  function CompletedCount(progress: real): nat {
    |Filter(Milestones(progress), (m: MilestoneItem) => m.completed)|
  }

  lemma CompletedCountIsReached(progress: real)
    ensures CompletedCount(progress) == Reached(progress)
  {
    CompletedPrefix(progress);
    FilterPrefixCount(Milestones(progress), (m: MilestoneItem) => m.completed, Reached(progress));
  }

  /** `progress >= 100 &&` the launch banner (ProductProgress.tsx:104). */
  predicate LaunchBanner(progress: real) {
    progress >= 100.0
  }

  /** The banner shows exactly when the last milestone is completed, which
      is exactly when all of them are. */
  lemma BannerIffLastMilestone(progress: real)
    ensures LaunchBanner(progress) <==> Milestones(progress)[MilestoneCount - 1].completed
    ensures LaunchBanner(progress) <==> CompletedCount(progress) == MilestoneCount
  {
    CompletedCountIsReached(progress);
  }

  /** A growth round of the session never takes a milestone back. */
  lemma GrowthKeepsMilestones(c: Company, d: MetricsDraw, k: nat)
    requires InPercent(c.productProgress) && k < MilestoneCount
    requires Milestones(c.productProgress)[k].completed
    ensures Milestones(Grow(c, d).productProgress)[k].completed
  {
  }

  // ---- the task counts (ProductProgress.tsx:12-14) ----

  datatype TaskCounts = TaskCounts(completed: nat, inProgress: nat, total: nat)

  function Counts(tasks: seq<Task>): (r: TaskCounts)
    ensures r.completed == CountTaskStatus(tasks, Done) && r.inProgress == CountTaskStatus(tasks, InProgress)
    ensures r.total == |tasks|
  {
    TaskCounts(|Filter(tasks, (t: Task) => t.status == Done)|,
      |Filter(tasks, (t: Task) => t.status == InProgress)|, |tasks|)
  }

  /** A task is never counted both done and in progress, so the two cards
      together never exceed the total. */
  lemma {:induction false} CountsWithinTotal(tasks: seq<Task>)
    ensures Counts(tasks).completed + Counts(tasks).inProgress <= Counts(tasks).total
    decreases |tasks|
  {
    if tasks != [] {
      var init := tasks[..|tasks| - 1];
      var last := tasks[|tasks| - 1];
      CountsWithinTotal(init);
      assert tasks == init + [last];
      CountStatusAppend(init, last, Done);
      CountStatusAppend(init, last, InProgress);
    }
  }
}
