/** The time-travel panel (TimeTravel.tsx): the slider selection, the
    branch dialog, the compare pair and the restore button's enablement.
    The snapshots and the current index are the session's; the panel only
    keeps its own selection state. */
module TimeTravel {
  import opened Base
  import opened Text
  import opened Entities
  import opened Engine

  /** `snapshots.indexOf(x)`: the first position holding `x`, or -1. */
  function IndexOf(snaps: seq<Snapshot>, x: Snapshot): (i: int)
    ensures -1 <= i < |snaps|
    ensures i >= 0 ==> snaps[i] == x && forall j :: 0 <= j < i ==> snaps[j] != x
    ensures i == -1 <==> x !in snaps
    decreases |snaps|
  {
    if snaps == [] then -1
    else if snaps[0] == x then 0
    else
      var k := IndexOf(snaps[1..], x);
      if k == -1 then -1 else k + 1
  }

  predicate DistinctIds(snaps: seq<Snapshot>) {
    forall i, j :: 0 <= i < j < |snaps| ==> snaps[i].id != snaps[j].id
  }

  /** In a history with distinct ids, every snapshot is found at its own position. */
  lemma IndexOfDistinct(snaps: seq<Snapshot>, i: nat)
    requires DistinctIds(snaps) && i < |snaps|
    ensures IndexOf(snaps, snaps[i]) == i
  {
    assert snaps[i] in snaps;
    var k := IndexOf(snaps, snaps[i]);
    assert snaps[k].id == snaps[i].id;
  }

  /** The session's history always has distinct ids. */
  lemma HistoryDistinct(c: Company)
    requires Inv(c)
    ensures DistinctIds(c.snapshots)
  {
  }

  /** `selectedSnapshot || snapshots[currentSnapshotIndex]` (TimeTravel.tsx:88);
      None stands for `undefined` when the index is out of range. */
  function CurrentSnapshot(selected: Option<Snapshot>, snaps: seq<Snapshot>, currentIndex: int): (r: Option<Snapshot>)
    ensures selected.Some? ==> r == selected
    ensures selected.None? ==> (r.Some? <==> 0 <= currentIndex < |snaps|)
    ensures r.Some? ==> r.value in snaps || r == selected
  {
    if selected.Some? then selected
    else if 0 <= currentIndex < |snaps| then Some(snaps[currentIndex])
    else None
  }

  /** The restore button's `disabled` test, negated (TimeTravel.tsx:191);
      `indexOf(undefined)` is -1. */
  predicate RestoreEnabled(isSimulating: bool, currentIndex: int, snaps: seq<Snapshot>, current: Option<Snapshot>) {
    !isSimulating && currentIndex != (if current.Some? then IndexOf(snaps, current.value) else -1)
  }

  /** Restore is off while simulating, and off for the snapshot the session
      is already at. */
  lemma RestoreDisabledOnCurrent(isSimulating: bool, currentIndex: int, snaps: seq<Snapshot>,
                                 selected: Option<Snapshot>)
    requires DistinctIds(snaps)
    ensures isSimulating ==> !RestoreEnabled(isSimulating, currentIndex, snaps, CurrentSnapshot(selected, snaps, currentIndex))
    ensures selected.None? && 0 <= currentIndex < |snaps| ==>
      !RestoreEnabled(isSimulating, currentIndex, snaps, CurrentSnapshot(selected, snaps, currentIndex))
  {
    if selected.None? && 0 <= currentIndex < |snaps| {
      IndexOfDistinct(snaps, currentIndex);
    }
  }

  /** Choosing another snapshot than the current one enables restore when not simulating. */
  lemma RestoreEnabledOnOther(currentIndex: int, snaps: seq<Snapshot>, i: nat)
    requires DistinctIds(snaps) && i < |snaps| && i != currentIndex
    ensures RestoreEnabled(false, currentIndex, snaps, CurrentSnapshot(Some(snaps[i]), snaps, currentIndex))
  {
    IndexOfDistinct(snaps, i);
  }

  /** The panel's own state: `selectedSnapshot`, `branchName`, `compareMode`
      and the pair `compareSnapshots`. */
  class TimeTravelView {
    var selected: Option<Snapshot>
    var branchName: string
    var compareMode: bool
    var first: Option<Snapshot>
    var second: Option<Snapshot>

    /** The pair is filled from the left: never `[null, s]`. */
    predicate Valid()
      reads this
    {
      second.Some? ==> first.Some?
    }

    constructor()
      ensures selected.None? && branchName == "" && !compareMode
      ensures first.None? && second.None? && Valid()
    {
      selected := None;
      branchName := "";
      compareMode := false;
      first := None;
      second := None;
    }

    /** `handleSliderChange` (TimeTravel.tsx:52-57): an index inside the
        history selects that snapshot, any other leaves the selection. */
    method SliderChange(snaps: seq<Snapshot>, index: int)
      modifies this`selected
      ensures 0 <= index < |snaps| ==> selected == Some(snaps[index])
      ensures !(0 <= index < |snaps|) ==> selected == old(selected)
    {
      if 0 <= index < |snaps| {
        selected := Some(snaps[index]);
      }
    }

    /** The branch dialog's input. */
    method SetBranchName(name: string)
      modifies this`branchName
      ensures branchName == name
    {
      branchName := name;
    }

    /** `handleRestore` (TimeTravel.tsx:59-63): the snapshot handed to
        `onRestoreSnapshot`, if any. */
    method Restore() returns (r: Option<Snapshot>)
      ensures r.Some? <==> selected.Some?
      ensures r.Some? ==> r.value == selected.value
    {
      r := selected;
    }

    /** `handleCreateBranch` (TimeTravel.tsx:65-70): with a selection and a
        name that is not blank, the pair handed to `onCreateBranch` (the
        name untrimmed) and the name cleared; otherwise nothing. */
    method CreateBranch() returns (r: Option<(Snapshot, string)>)
      modifies this`branchName
      ensures r.Some? <==> selected.Some? && !IsBlank(old(branchName))
      ensures r.Some? ==> r.value == (selected.value, old(branchName)) && branchName == ""
      ensures r.None? ==> branchName == old(branchName)
    {
      TrimEmptyIffBlank(branchName);
      if selected.Some? && Trim(branchName) != "" {
        r := Some((selected.value, branchName));
        branchName := "";
      } else {
        r := None;
      }
    }

    /** `toggleCompareSnapshot` (TimeTravel.tsx:72-80): [null, null] becomes
        [s, null], [a, null] becomes [a, s], and a full pair starts over as [s, null]. */
    method ToggleCompare(s: Snapshot)
      requires Valid()
      modifies this`first, this`second
      ensures old(first).None? ==> first == Some(s) && second.None?
      ensures old(first).Some? && old(second).None? ==> first == old(first) && second == Some(s)
      ensures old(first).Some? && old(second).Some? ==> first == Some(s) && second.None?
      ensures Valid() && (first == Some(s) || second == Some(s))
    {
      if first.None? {
        first, second := Some(s), None;
      } else if second.None? {
        second := Some(s);
      } else {
        first, second := Some(s), None;
      }
    }

    /** `handleCompare` (TimeTravel.tsx:82-86): the pair handed to
        `onCompareSnapshots`, only when both slots are filled. */
    method Compare() returns (r: Option<(Snapshot, Snapshot)>)
      ensures r.Some? <==> first.Some? && second.Some?
      ensures r.Some? ==> r.value == (first.value, second.value)
    {
      if first.Some? && second.Some? {
        r := Some((first.value, second.value));
      } else {
        r := None;
      }
    }

    /** The Compare button (TimeTravel.tsx:109-112): the mode flips and the pair empties. */
    method ToggleCompareMode()
      modifies this`compareMode, this`first, this`second
      ensures compareMode == !old(compareMode) && first.None? && second.None? && Valid()
    {
      compareMode := !compareMode;
      first, second := None, None;
    }

    /** A click on a snapshot card (TimeTravel.tsx:250-256): it joins the
        pair in compare mode and is selected otherwise. */
    method ClickSnapshot(s: Snapshot)
      requires Valid()
      modifies this`selected, this`first, this`second
      ensures compareMode ==> selected == old(selected) && Valid() && (first == Some(s) || second == Some(s))
      ensures !compareMode ==> selected == Some(s) && first == old(first) && second == old(second)
    {
      if compareMode {
        ToggleCompare(s);
      } else {
        selected := Some(s);
      }
    }
  }
}
