/** The communication tracker view: the open events narrowed by company,
    method and date range, split into overdue and upcoming lists sorted by
    date, and the set of events the user has ticked. */
module Tracker {
  import opened Common
  import opened Dates
  import opened Seqs
  import opened Events
  import opened Calendar

  /** The tracker's fixed reference time, 2024-12-29T15:49:35+05:30, that is
      10:19:35 UTC. */
  const TrackerNow: Date := DateTime(2024, 12, 29, 37_175_000)

  /** The date-range choice; every value other than the first three behaves
      as 'all'. */
  datatype DateRange = RangeToday | RangeWeek | RangeMonth | RangeAll

  /** The company and method choices are ids, or the string "all". */
  datatype TrackerFilter = TrackerFilter(company: string, commMethod: string, range: DateRange)

  const All: string := "all"

  predicate InRange(d: Date, range: DateRange, now: Date)
  {
    match range
    case RangeToday => SameDay(d, now)
    case RangeWeek => EpochMs(d) <= EpochMs(SetDateOffset(now, 7))
    case RangeMonth => EpochMs(d) <= EpochMs(NextMonth(now))
    case RangeAll => true
  }

  /** The test an event must pass to be shown at all. */
  predicate Shown(f: TrackerFilter, now: Date, e: Event)
  {
    && Truthy(e.companyId) && Truthy(e.methodId) && !e.completed
    && (f.company == All || e.companyId == Some(f.company))
    && (f.commMethod == All || e.methodId == Some(f.commMethod))
    && InRange(e.date, f.range, now)
  }

  function ShownAt(f: TrackerFilter, now: Date): Event -> bool
  {
    (e: Event) => Shown(f, now, e)
  }

  function Filtered(events: seq<Event>, f: TrackerFilter, now: Date): seq<Event>
  {
    Filter(events, ShownAt(f, now))
  }

  function DateKey(): Event -> int
  {
    (e: Event) => EpochMs(e.date)
  }

  /** `eventDate < now`; upcoming is its negation, `eventDate >= now`. */
  predicate Before(e: Event, now: Date)
  {
    EpochMs(e.date) < EpochMs(now)
  }

  function IsOverdueAt(now: Date): Event -> bool
  {
    (e: Event) => Before(e, now) && !e.completed
  }

  function IsUpcomingAt(now: Date): Event -> bool
  {
    (e: Event) => !Before(e, now) && !e.completed
  }

  function OverdueList(filtered: seq<Event>, now: Date): seq<Event>
  {
    SortBy(Filter(filtered, IsOverdueAt(now)), DateKey())
  }

  function UpcomingList(filtered: seq<Event>, now: Date): seq<Event>
  {
    SortBy(Filter(filtered, IsUpcomingAt(now)), DateKey())
  }

  /** What the view shows for the open events `events`. */
  function Overview(events: seq<Event>, f: TrackerFilter): (seq<Event>, seq<Event>)
  {
    var filtered := Filtered(events, f, TrackerNow);
    (OverdueList(filtered, TrackerNow), UpcomingList(filtered, TrackerNow))
  }

  /** The week and month bounds in time values: no lower bound, an upper
      bound seven days or one calendar month (with rollover) ahead. */
  lemma RangeBounds(d: Date, now: Date)
    ensures InRange(d, RangeWeek, now) <==> EpochMs(d) <= EpochMs(now) + 7 * DayMs
    ensures InRange(d, RangeMonth, now) <==> EpochMs(d) <= EpochMs(NextMonth(now))
    ensures EpochMs(d) <= EpochMs(now) ==> InRange(d, RangeWeek, now)
    ensures InRange(d, RangeToday, now) <==> SameDay(d, now)
  {
    SetDateOffsetAddsDays(now, 7);
  }

  /** A shown event is open, has a company and a method, matches the chosen
      company and method, and lies in the chosen range; every such event of
      the input is shown. */
  lemma FilteredExact(events: seq<Event>, f: TrackerFilter, now: Date)
    ensures forall e :: e in Filtered(events, f, now) <==> e in events && Shown(f, now, e)
    ensures forall e :: e in Filtered(events, f, now) ==>
              !e.completed && Truthy(e.companyId) && Truthy(e.methodId)
    ensures f.company == All && f.commMethod == All && f.range == RangeAll ==>
              forall e :: e in events && !e.completed && Truthy(e.companyId) && Truthy(e.methodId) ==>
                e in Filtered(events, f, now)
  {
  }

  /** Among open events, "before now" and "at or after now" split the list. */
  lemma SplitByTime(open: seq<Event>, now: Date)
    requires forall j :: 0 <= j < |open| ==> !open[j].completed
    ensures multiset(Filter(open, IsOverdueAt(now))) + multiset(Filter(open, IsUpcomingAt(now))) == multiset(open)
  {
    FilterPartitionWhere(open, IsOverdueAt(now), IsUpcomingAt(now), IsOpen());
  }

  function IsOpen(): Event -> bool
  {
    (e: Event) => !e.completed
  }

  /** Overdue and upcoming split the shown events by time: together they
      hold each shown event exactly as often as the shown list does, overdue
      ones lie strictly before `now`, upcoming ones at or after it, and both
      are in ascending date order. */
  lemma OverviewPartition(events: seq<Event>, f: TrackerFilter, now: Date)
    ensures var filtered := Filtered(events, f, now);
            multiset(OverdueList(filtered, now)) + multiset(UpcomingList(filtered, now)) == multiset(filtered)
    ensures var filtered := Filtered(events, f, now);
            && (forall e :: e in OverdueList(filtered, now) ==> EpochMs(e.date) < EpochMs(now))
            && (forall e :: e in UpcomingList(filtered, now) ==> EpochMs(e.date) >= EpochMs(now))
    ensures var filtered := Filtered(events, f, now);
            SortedBy(OverdueList(filtered, now), DateKey()) && SortedBy(UpcomingList(filtered, now), DateKey())
  {
    var filtered := Filtered(events, f, now);
    SplitByTime(filtered, now);
    ListTimes(filtered, now);
  }

  /** Overdue entries lie strictly before `now`, upcoming ones at or after it. */
  lemma ListTimes(filtered: seq<Event>, now: Date)
    ensures forall e :: e in OverdueList(filtered, now) ==> EpochMs(e.date) < EpochMs(now)
    ensures forall e :: e in UpcomingList(filtered, now) ==> EpochMs(e.date) >= EpochMs(now)
  {
    SortByMembers(Filter(filtered, IsOverdueAt(now)), DateKey());
    SortByMembers(Filter(filtered, IsUpcomingAt(now)), DateKey());
  }

  // ---- Selection

  /** `toggleEventSelection(id)`: flips the id and nothing else. */
  function Toggle(selected: set<Id>, id: Id): (r: set<Id>)
    ensures id in r <==> id !in selected
    ensures forall x :: x != id ==> (x in r <==> x in selected)
  {
    if id in selected then selected - {id} else selected + {id}
  }

  lemma ToggleTwice(selected: set<Id>, id: Id)
    ensures Toggle(Toggle(selected, id), id) == selected
  {
  }

  /** `handleMarkCompleted(id)`: the event is marked completed in the store
      and the id leaves the selection. */
  function MarkCompleted(events: seq<Event>, selected: set<Id>, id: Id, stamp: Date): (r: (seq<Event>, set<Id>))
    ensures r.1 == selected - {id}
    ensures id !in r.1
    ensures |r.0| == |events|
    ensures forall i :: IndexOfId(events, id) == Some(i) ==>
              && r.0[i].completed && r.0[i].completedAt == Some(stamp) && r.0[i].id == id
              && r.0[i].(completed := events[i].completed, completedAt := events[i].completedAt) == events[i]
    ensures forall j :: 0 <= j < |events| && IndexOfId(events, id) != Some(j) ==> r.0[j] == events[j]
  {
    MarkCompletedEffect(events, id, stamp);
    (MarkedCompleted(events, id, stamp), selected - {id})
  }

  /** Marking each id of `ids` in turn. */
  function MarkAll(events: seq<Event>, ids: seq<Id>, stamp: Date): seq<Event>
    decreases |ids|
  {
    if ids == [] then events else MarkAll(MarkedCompleted(events, ids[0], stamp), ids[1..], stamp)
  }

  /** The event `markEventCompleted` leaves at a position: either the event
      as it was, or the same event completed with the stamp. */
  predicate MarkedOrSame(before: Event, after: Event, stamp: Date)
  {
    after == before || after == before.(completed := true, completedAt := Some(stamp))
  }

  /** Marking several ids changes nothing but `completed` and `completedAt`,
      never reopens an event, completes and stamps the event each id refers
      to, and leaves every event no id refers to untouched. */
  lemma MarkAllCompletes(events: seq<Event>, ids: seq<Id>, stamp: Date)
    ensures |MarkAll(events, ids, stamp)| == |events|
    ensures forall j :: 0 <= j < |events| ==>
              MarkAll(events, ids, stamp)[j].(completed := events[j].completed, completedAt := events[j].completedAt) == events[j]
    ensures forall j :: 0 <= j < |events| && events[j].completed ==> MarkAll(events, ids, stamp)[j].completed
    ensures forall id, i :: id in ids && IndexOfId(events, id) == Some(i) ==>
              MarkAll(events, ids, stamp)[i].completed && MarkAll(events, ids, stamp)[i].completedAt == Some(stamp)
    ensures forall j :: 0 <= j < |events| && (forall id :: id in ids ==> IndexOfId(events, id) != Some(j)) ==>
              MarkAll(events, ids, stamp)[j] == events[j]
  {
    MarkAllSteps(events, ids, stamp);
    MarkAllMarks(events, ids, stamp);
    MarkAllFrame(events, ids, stamp);
  }

  /** Marking the first id keeps every position's id, so the later ids find
      the same positions. */
  lemma MarkFirstKeepsIndex(events: seq<Event>, first: Id, stamp: Date)
    ensures forall id :: IndexOfId(MarkedCompleted(events, first, stamp), id) == IndexOfId(events, id)
  {
    var once := MarkedCompleted(events, first, stamp);
    MarkCompletedEffect(events, first, stamp);
    forall id
      ensures IndexOfId(once, id) == IndexOfId(events, id)
    {
      FindIndexSameKeys(events, once, id);
    }
  }

  lemma {:induction false} MarkAllSteps(events: seq<Event>, ids: seq<Id>, stamp: Date)
    ensures |MarkAll(events, ids, stamp)| == |events|
    ensures forall j :: 0 <= j < |events| ==> MarkedOrSame(events[j], MarkAll(events, ids, stamp)[j], stamp)
    decreases |ids|
  {
    if ids != [] {
      var once := MarkedCompleted(events, ids[0], stamp);
      MarkCompletedEffect(events, ids[0], stamp);
      MarkAllSteps(once, ids[1..], stamp);
    }
  }

  lemma {:induction false} MarkAllMarks(events: seq<Event>, ids: seq<Id>, stamp: Date)
    ensures forall id, i :: id in ids && IndexOfId(events, id) == Some(i) ==>
              i < |MarkAll(events, ids, stamp)|
              && MarkAll(events, ids, stamp)[i] == events[i].(completed := true, completedAt := Some(stamp))
    decreases |ids|
  {
    if ids != [] {
      var once := MarkedCompleted(events, ids[0], stamp);
      MarkCompletedEffect(events, ids[0], stamp);
      MarkFirstKeepsIndex(events, ids[0], stamp);
      MarkAllMarks(once, ids[1..], stamp);
      MarkAllSteps(once, ids[1..], stamp);
      forall id, i | id in ids && IndexOfId(events, id) == Some(i)
        ensures i < |MarkAll(events, ids, stamp)|
        ensures MarkAll(events, ids, stamp)[i] == events[i].(completed := true, completedAt := Some(stamp))
      {
        if id != ids[0] {
          assert id in ids[1..];
        }
      }
    }
  }

  lemma {:induction false} MarkAllFrame(events: seq<Event>, ids: seq<Id>, stamp: Date)
    ensures forall j :: 0 <= j < |events| && (forall id :: id in ids ==> IndexOfId(events, id) != Some(j)) ==>
              j < |MarkAll(events, ids, stamp)| && MarkAll(events, ids, stamp)[j] == events[j]
    decreases |ids|
  {
    if ids != [] {
      var once := MarkedCompleted(events, ids[0], stamp);
      MarkCompletedEffect(events, ids[0], stamp);
      MarkFirstKeepsIndex(events, ids[0], stamp);
      MarkAllFrame(once, ids[1..], stamp);
      forall j | 0 <= j < |events| && (forall id :: id in ids ==> IndexOfId(events, id) != Some(j))
        ensures j < |MarkAll(events, ids, stamp)| && MarkAll(events, ids, stamp)[j] == events[j]
      {
        assert once[j] == events[j] by {
          assert ids[0] in ids;
        }
        assert forall id :: id in ids[1..] ==> IndexOfId(once, id) != Some(j) by {
          assert forall id :: id in ids[1..] ==> id in ids;
        }
        assert MarkAll(events, ids, stamp) == MarkAll(once, ids[1..], stamp);
      }
    } else {
      assert MarkAll(events, ids, stamp) == events;
    }
  }

  /** `handleBulkComplete()`: every selected id is marked completed, in the
      set's iteration order `order`, and the selection is emptied. */
  function BulkComplete(events: seq<Event>, selected: set<Id>, order: seq<Id>, stamp: Date): (r: (seq<Event>, set<Id>))
    requires (set x | x in order) == selected
    ensures r.1 == {}
    ensures |r.0| == |events|
    ensures forall id, i :: id in selected && IndexOfId(events, id) == Some(i) ==>
              r.0[i].completed && r.0[i].completedAt == Some(stamp)
    ensures forall j :: 0 <= j < |events| && (forall id :: id in selected ==> IndexOfId(events, id) != Some(j)) ==>
              r.0[j] == events[j]
    ensures forall j :: 0 <= j < |events| ==>
              r.0[j].(completed := events[j].completed, completedAt := events[j].completedAt) == events[j]
  {
    MarkAllCompletes(events, order, stamp);
    (MarkAll(events, order, stamp), {})
  }
}
