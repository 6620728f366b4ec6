/** The company timeline (TimelinePanel.tsx): events grouped by calendar
    month, months newest first, events newest first inside each month, and
    the per-type summary. A month is the (year, month) pair the source's
    `{ month: 'long', year: 'numeric' }` rendering names. */
module TimelinePanel {
  import opened Base
  import opened Calendar
  import opened Entities

  datatype Month = Month(year: int, month: int)

  function MonthOf(e: TimelineEvent): Month {
    Month(e.date.year, e.date.month)
  }

  /** The events of one month, in list order. */
  function InMonth(events: seq<TimelineEvent>, m: Month): (r: seq<TimelineEvent>)
    ensures |r| <= |events|
  {
    Filter(events, (e: TimelineEvent) => MonthOf(e) == m)
  }

  predicate Distinct<T(==)>(s: seq<T>) {
    forall i, j :: 0 <= i < j < |s| ==> s[i] != s[j]
  }

  // ---- grouping (TimelinePanel.tsx:55-67) ----

  /** The dictionary `groupByMonth` builds: its keys in insertion order and
      the list under each key. */
  datatype Grouping = Grouping(keys: seq<Month>, groups: map<Month, seq<TimelineEvent>>)

  /** The dictionary after the `forEach` has visited `events`: a month seen
      for the first time gets a new key and an empty list, then the event
      is pushed onto its month's list. */
  function Grouped(events: seq<TimelineEvent>): (g: Grouping)
    decreases |events|
  {
    if events == [] then Grouping([], map[])
    else
      var g := Grouped(events[..|events| - 1]);
      var e := events[|events| - 1];
      var m := MonthOf(e);
      if m in g.groups then Grouping(g.keys, g.groups[m := g.groups[m] + [e]])
      else Grouping(g.keys + [m], g.groups[m := [e]])
  }

  /** `groupByMonth`, with the dictionary filled in place event by event. */
  method GroupByMonth(events: seq<TimelineEvent>) returns (keys: seq<Month>, groups: map<Month, seq<TimelineEvent>>)
    ensures keys == Grouped(events).keys && groups == Grouped(events).groups
    ensures |keys| <= |events| && (events != [] ==> keys != [])
    ensures Distinct(keys) && forall m :: m in groups <==> m in keys
    ensures forall m :: m in groups ==> groups[m] == InMonth(events, m) && groups[m] != []
    ensures forall i :: 0 <= i < |events| ==> MonthOf(events[i]) in groups
    ensures GroupedTotal(keys, groups) == |events|
  {
    keys, groups := [], map[];
    var i := 0;
    while i < |events|
      invariant 0 <= i <= |events|
      invariant Grouping(keys, groups) == Grouped(events[..i])
      invariant |keys| <= i && (i > 0 ==> keys != [])
    {
      var e := events[i];
      var m := MonthOf(e);
      // a month seen for the first time gets a new, empty list first
      if m in groups {
        groups := groups[m := groups[m] + [e]];
      } else {
        groups := groups[m := [] + [e]];
        keys := keys + [m];
      }
      assert events[..i + 1][..i] == events[..i] && events[..i + 1][i] == e;
      assert [] + [e] == [e];
      i := i + 1;
    }
    assert events[..i] == events;
    GroupedShape(events);
    GroupedCount(events);
  }

  predicate KeysInGroups(keys: seq<Month>, groups: map<Month, seq<TimelineEvent>>) {
    forall j :: 0 <= j < |keys| ==> keys[j] in groups
  }

  /** The number of events filed under the listed keys. */
  function GroupedTotal(keys: seq<Month>, groups: map<Month, seq<TimelineEvent>>): nat
    requires KeysInGroups(keys, groups)
    decreases |keys|
  {
    if keys == [] then 0
    else GroupedTotal(keys[..|keys| - 1], groups) + |groups[keys[|keys| - 1]]|
  }

  /** Every key lists exactly its month's events, the keys are the months
      that occur, once each. */
  lemma {:induction false} GroupedShape(events: seq<TimelineEvent>)
    ensures var g := Grouped(events);
      && Distinct(g.keys)
      && (forall m :: m in g.groups <==> m in g.keys)
      && (forall m :: m in g.groups ==> g.groups[m] == InMonth(events, m) && g.groups[m] != [])
      && (forall i :: 0 <= i < |events| ==> MonthOf(events[i]) in g.groups)
    decreases |events|
  {
    if events != [] {
      var init := events[..|events| - 1];
      var e := events[|events| - 1];
      assert events == init + [e];
      GroupedShape(init);
      var g0 := Grouped(init);
      var g := Grouped(events);
      forall m | m in g.groups
        ensures g.groups[m] == InMonth(events, m)
      {
        FilterAppend(init, e, (x: TimelineEvent) => MonthOf(x) == m);
        if m !in g0.groups {
          FilterNone(init, (x: TimelineEvent) => MonthOf(x) == m);
        }
      }
      forall i | 0 <= i < |events|
        ensures MonthOf(events[i]) in g.groups
      {
        if i < |init| {
          assert events[i] == init[i];
        }
      }
    }
  }

  lemma {:induction false} TotalUpdate(keys: seq<Month>, groups: map<Month, seq<TimelineEvent>>, m: Month, v: seq<TimelineEvent>)
    requires KeysInGroups(keys, groups) && Distinct(keys) && m in keys
    ensures KeysInGroups(keys, groups[m := v])
    ensures GroupedTotal(keys, groups[m := v]) == GroupedTotal(keys, groups) - |groups[m]| + |v|
    decreases |keys|
  {
    var init := keys[..|keys| - 1];
    var last := keys[|keys| - 1];
    assert KeysInGroups(init, groups);
    if last == m {
      assert m !in init;
      TotalFresh(init, groups, m, v);
    } else {
      assert m in init;
      TotalUpdate(init, groups, m, v);
    }
  }

  lemma {:induction false} TotalFresh(keys: seq<Month>, groups: map<Month, seq<TimelineEvent>>, m: Month, v: seq<TimelineEvent>)
    requires KeysInGroups(keys, groups) && m !in keys
    ensures KeysInGroups(keys, groups[m := v])
    ensures GroupedTotal(keys, groups[m := v]) == GroupedTotal(keys, groups)
    decreases |keys|
  {
    if keys != [] {
      var init := keys[..|keys| - 1];
      assert KeysInGroups(init, groups);
      TotalFresh(init, groups, m, v);
    }
  }

  /** The groups hold each event once: their sizes add up to the number of events. */
  lemma {:induction false} GroupedCount(events: seq<TimelineEvent>)
    ensures KeysInGroups(Grouped(events).keys, Grouped(events).groups)
    ensures GroupedTotal(Grouped(events).keys, Grouped(events).groups) == |events|
    decreases |events|
  {
    if events != [] {
      var init := events[..|events| - 1];
      var e := events[|events| - 1];
      var m := MonthOf(e);
      GroupedCount(init);
      GroupedShape(init);
      var g := Grouped(init);
      if m in g.groups {
        TotalUpdate(g.keys, g.groups, m, g.groups[m] + [e]);
      } else {
        TotalFresh(g.keys, g.groups, m, [e]);
      }
    }
  }

  /** Each event sits in the group of its own month and in no other, so two
      events share a group exactly when they fall in the same month. */
  lemma InOwnMonthOnly(events: seq<TimelineEvent>, i: nat, m: Month)
    requires i < |events| && m in Grouped(events).groups
    ensures MonthOf(events[i]) in Grouped(events).groups && events[i] in Grouped(events).groups[MonthOf(events[i])]
    ensures events[i] in Grouped(events).groups[m] <==> MonthOf(events[i]) == m
  {
    GroupedShape(events);
    FilterMembers(events, (e: TimelineEvent) => MonthOf(e) == MonthOf(events[i]));
    FilterMembers(events, (e: TimelineEvent) => MonthOf(e) == m);
    if events[i] in InMonth(events, m) {
      var j :| 0 <= j < |InMonth(events, m)| && InMonth(events, m)[j] == events[i];
    }
  }

  // ---- sorting (TimelinePanel.tsx:70-74, 101-102) ----

  /** Inserts `x` into a list sorted by decreasing `f`, ahead of the first
      element it is not below. */
  function Insert<T>(x: T, s: seq<T>, f: T -> int): (r: seq<T>)
    ensures multiset(r) == multiset(s) + multiset{x}
    decreases |s|
  {
    if s == [] || f(x) >= f(s[0]) then [x] + s
    else
      assert s == [s[0]] + s[1..];
      [s[0]] + Insert(x, s[1..], f)
  }

  predicate SortedDown<T>(s: seq<T>, f: T -> int) {
    forall i, j :: 0 <= i < j < |s| ==> f(s[i]) >= f(s[j])
  }

  /** A stable sort by decreasing `f`, as `Array.prototype.sort` with the
      comparator `f(b) - f(a)` returns it. */
  function SortDown<T>(s: seq<T>, f: T -> int): (r: seq<T>)
    ensures multiset(r) == multiset(s)
    decreases |s|
  {
    if s == [] then []
    else
      assert s == [s[0]] + s[1..];
      Insert(s[0], SortDown(s[1..], f), f)
  }

  lemma {:induction false} InsertSorted<T>(x: T, s: seq<T>, f: T -> int)
    requires SortedDown(s, f)
    ensures SortedDown(Insert(x, s, f), f)
    decreases |s|
  {
    if s != [] && f(x) < f(s[0]) {
      InsertSorted(x, s[1..], f);
      var r := Insert(x, s[1..], f);
      forall k | 0 <= k < |r| ensures f(s[0]) >= f(r[k]) {
        assert r[k] in multiset(r);
        if r[k] != x {
          assert r[k] in multiset(s[1..]);
          var j :| 0 <= j < |s[1..]| && s[1..][j] == r[k];
          assert s[1..][j] == s[j + 1];
        }
      }
    }
  }

  lemma {:induction false} SortDownSorted<T>(s: seq<T>, f: T -> int)
    ensures SortedDown(SortDown(s, f), f)
    decreases |s|
  {
    if s != [] {
      SortDownSorted(s[1..], f);
      InsertSorted(s[0], SortDown(s[1..], f), f);
    }
  }

  /** `getTime()` of an event's date, as an order-preserving integer. */
  function When(e: TimelineEvent): int {
    SortKey(e.date)
  }

  /** The order key of a month: the time of its group's first event. */
  function FirstTime(g: Grouping): Month -> int {
    (m: Month) => if m in g.groups && g.groups[m] != [] then When(g.groups[m][0]) else 0
  }

  /** `sortedMonths`: the months by decreasing time of their first event. */
  function SortedMonths(events: seq<TimelineEvent>): (r: seq<Month>)
    ensures multiset(r) == multiset(Grouped(events).keys)
  {
    SortDown(Grouped(events).keys, FirstTime(Grouped(events)))
  }

  /** `a` is a later calendar month than `b`. */
  predicate LaterMonth(a: Month, b: Month) {
    a.year > b.year || (a.year == b.year && a.month > b.month)
  }

  /** Ordering months by the time of their first events orders them by the
      calendar: the months come newest first, each once. */
  lemma MonthsNewestFirst(events: seq<TimelineEvent>)
    ensures var ms := SortedMonths(events);
      forall i, j :: 0 <= i < j < |ms| ==> ms[i] == ms[j] || LaterMonth(ms[i], ms[j])
    ensures forall m :: m in SortedMonths(events) <==> m in Grouped(events).groups
  {
    var g := Grouped(events);
    var ms := SortedMonths(events);
    var f := FirstTime(g);
    GroupedShape(events);
    SortDownSorted(g.keys, f);
    forall i, j | 0 <= i < j < |ms| && ms[i] != ms[j]
      ensures LaterMonth(ms[i], ms[j])
    {
      assert ms[i] in multiset(g.keys) && ms[j] in multiset(g.keys);
      var a := g.groups[ms[i]][0];
      var b := g.groups[ms[j]][0];
      FirstOfGroupInMonth(events, ms[i]);
      FirstOfGroupInMonth(events, ms[j]);
      SortKeyOrders(b.date, a.date);
    }
    forall m ensures m in ms <==> m in g.groups {
      assert m in ms <==> m in multiset(ms);
      assert m in g.keys <==> m in multiset(g.keys);
    }
  }

  lemma FirstOfGroupInMonth(events: seq<TimelineEvent>, m: Month)
    requires m in Grouped(events).groups
    ensures Grouped(events).groups[m] != [] && MonthOf(Grouped(events).groups[m][0]) == m
  {
    GroupedShape(events);
    FilterMembers(events, (e: TimelineEvent) => MonthOf(e) == m);
  }

  /** The first `hi` events of `s` are ordered newest first. */
  predicate NewestFirst(s: seq<TimelineEvent>, hi: int)
    requires 0 <= hi <= |s|
  {
    forall p, q :: 0 <= p < q < hi ==> When(s[p]) >= When(s[q])
  }

  /** Midway through moving `s[j]` left: `s[..i+1]` without position `j`
      is ordered, and `s[j]` is newer than everything after it. */
  predicate Sifting(s: seq<TimelineEvent>, j: int, i: int)
    requires 0 <= j <= i < |s|
  {
    && (forall p, q :: 0 <= p < q <= i && p != j && q != j ==> When(s[p]) >= When(s[q]))
    && (forall q :: j < q <= i ==> When(s[j]) > When(s[q]))
  }

  lemma SiftStart(s: seq<TimelineEvent>, i: int)
    requires 0 <= i < |s| && NewestFirst(s, i)
    ensures Sifting(s, i, i)
  {
  }

  lemma SiftStep(s: seq<TimelineEvent>, j: int, i: int)
    requires 0 < j <= i < |s| && Sifting(s, j, i) && When(s[j - 1]) < When(s[j])
    ensures Sifting(s[j - 1 := s[j]][j := s[j - 1]], j - 1, i)
  {
  }

  lemma SiftDone(s: seq<TimelineEvent>, j: int, i: int)
    requires 0 <= j <= i < |s| && Sifting(s, j, i)
    requires j == 0 || When(s[j - 1]) >= When(s[j])
    ensures NewestFirst(s, i + 1)
  {
  }

  method Swap(a: array<TimelineEvent>, p: nat, q: nat)
    requires p < a.Length && q < a.Length
    modifies a
    ensures a[..] == old(a[..])[p := old(a[q])][q := old(a[p])]
    ensures multiset(a[..]) == multiset(old(a[..]))
  {
    a[p], a[q] := a[q], a[p];
  }

  /** Moves `a[i]` left past every older event, so that `a[..i+1]` is
      ordered once `a[..i]` was. */
  method SiftLeft(a: array<TimelineEvent>, i: nat)
    requires i < a.Length && NewestFirst(a[..], i)
    modifies a
    ensures NewestFirst(a[..], i + 1)
    ensures multiset(a[..]) == multiset(old(a[..]))
  {
    var j := i;
    SiftStart(a[..], i);
    while j > 0 && When(a[j - 1]) < When(a[j])
      invariant 0 <= j <= i
      invariant multiset(a[..]) == multiset(old(a[..]))
      invariant Sifting(a[..], j, i)
    {
      SiftStep(a[..], j, i);
      Swap(a, j - 1, j);
      j := j - 1;
    }
    SiftDone(a[..], j, i);
  }

  /** The in-month `.sort` by decreasing time, done in place by insertion. */
  method SortNewestFirst(a: array<TimelineEvent>)
    modifies a
    ensures SortedDown(a[..], When)
    ensures multiset(a[..]) == multiset(old(a[..]))
  {
    var i := 0;
    while i < a.Length
      invariant 0 <= i <= a.Length
      invariant NewestFirst(a[..], i)
      invariant multiset(a[..]) == multiset(old(a[..]))
    {
      SiftLeft(a, i);
      i := i + 1;
    }
  }

  // ---- the summary (TimelinePanel.tsx:147-148) ----

  const SummaryTypes: seq<EventType> := [Milestone, FeatureEvent, Hire, Funding, Launch]

  function TypeCount(events: seq<TimelineEvent>, t: EventType): (n: nat)
    ensures n <= |events|
  {
    |Filter(events, (e: TimelineEvent) => e.kind == t)|
  }

  /** The five listed types are every type there is. */
  lemma SummaryCoversTypes(t: EventType)
    ensures t in SummaryTypes
  {
  }

  /** The five summary counts add up to the number of events. */
  lemma {:induction false} TypeCountsSum(events: seq<TimelineEvent>)
    ensures TypeCount(events, Milestone) + TypeCount(events, FeatureEvent) + TypeCount(events, Hire)
      + TypeCount(events, Funding) + TypeCount(events, Launch) == |events|
    decreases |events|
  {
    if events != [] {
      var n := |events| - 1;
      var init := events[..n];
      assert events == init + [events[n]];
      TypeCountsSum(init);
      FilterAppend(init, events[n], (e: TimelineEvent) => e.kind == Milestone);
      FilterAppend(init, events[n], (e: TimelineEvent) => e.kind == FeatureEvent);
      FilterAppend(init, events[n], (e: TimelineEvent) => e.kind == Hire);
      FilterAppend(init, events[n], (e: TimelineEvent) => e.kind == Funding);
      FilterAppend(init, events[n], (e: TimelineEvent) => e.kind == Launch);
    }
  }
}
