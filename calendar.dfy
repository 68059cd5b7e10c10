/** The calendar slice: the event list, its reducers, the one-step recurrence
    expander and the open/completed selectors. Clock readings
    (`new Date()`) and generated ids (`Date.now()`, `Math.random()`) are
    parameters. */
module Calendar {
  import opened Common
  import opened Dates
  import opened Seqs
  import opened Events

  // ---------------------------------------------------------------------
  // Recurrence expander

  /** The date one period after `d`, or None for a pattern the expander does
      not handle. */
  function NextOccurrenceDate(d: Date, pattern: Pattern): Option<Date>
  {
    match pattern
    case Daily => Some(SetDateOffset(d, 1))
    case Weekly => Some(SetDateOffset(d, 7))
    case Monthly => Some(NextMonth(d))
    case Yearly => Some(NextYear(d))
    case _ => None
  }

  /** A successor occurrence: the base event with a fresh id and a new date,
      marked recurring, grouped under `groupId`, pending, not completed, with
      its notes cleared. */
  function CreateRecurringEvent(base: Event, date: Date, groupId: Id, freshId: Id): Event
  {
    base.(id := freshId, date := date, isRecurring := true, recurringGroupId := Some(groupId),
          status := Some("pending"), completedAt := None, notes := "")
  }

  /** Whether `d` is after an optional inclusive end date. */
  predicate PastEnd(d: Date, endDate: Option<Date>)
  {
    endDate.Some? && EpochMs(d) > EpochMs(endDate.value)
  }

  function GenerateNextRecurringEvent(base: Event, freshId: Id): (r: Option<Event>)
    requires base.recurrence.Some?
    ensures var next := NextOccurrenceDate(base.date, base.recurrence.value.pattern);
            r.Some? <==> next.Some? && !PastEnd(next.value, base.recurrence.value.endDate)
    ensures r.Some? ==>
              && r.value.id == freshId
              && Some(r.value.date) == NextOccurrenceDate(base.date, base.recurrence.value.pattern)
              && r.value.isRecurring
              && r.value.recurringGroupId == Some(base.id)
              && r.value.status == Some("pending")
              && r.value.completedAt.None?
              && r.value.notes == ""
              && r.value.(id := base.id, date := base.date, isRecurring := base.isRecurring,
                          recurringGroupId := base.recurringGroupId, status := base.status,
                          completedAt := base.completedAt, notes := base.notes) == base
  {
    var rule := base.recurrence.value;
    match NextOccurrenceDate(base.date, rule.pattern)
    case None => None
    case Some(next) =>
      if PastEnd(next, rule.endDate) then None
      else Some(CreateRecurringEvent(base, next, base.id, freshId))
  }

  /** A daily or weekly successor is exactly one or seven days after its base. */
  lemma SuccessorTiming(base: Event, freshId: Id)
    requires base.recurrence.Some?
    requires GenerateNextRecurringEvent(base, freshId).Some?
    ensures var s := GenerateNextRecurringEvent(base, freshId).value;
            && (base.recurrence.value.pattern == Daily ==> EpochMs(s.date) == EpochMs(base.date) + DayMs)
            && (base.recurrence.value.pattern == Weekly ==> EpochMs(s.date) == EpochMs(base.date) + 7 * DayMs)
            && s.recurringGroupId == Some(base.id)
  {
    SetDateOffsetAddsDays(base.date, 1);
    SetDateOffsetAddsDays(base.date, 7);
  }

  /** A successor never lies after the rule's end date; one that falls on the
      end date itself is still produced. */
  lemma SuccessorWithinEndDate(base: Event, freshId: Id)
    requires base.recurrence.Some? && base.recurrence.value.endDate.Some?
    ensures var s := GenerateNextRecurringEvent(base, freshId);
            s.Some? ==> EpochMs(s.value.date) <= EpochMs(base.recurrence.value.endDate.value)
    ensures var next := NextOccurrenceDate(base.date, base.recurrence.value.pattern);
            next.Some? && next.value == base.recurrence.value.endDate.value ==>
              GenerateNextRecurringEvent(base, freshId).Some?
  {
  }

  /** A monthly event on 2024-01-31 with end date 2024-03-01 gets NO successor:
      the next month is computed as 2024-03-02, past the end date. */
  lemma MonthlyEndOfJanuaryHasNoSuccessor(base: Event, freshId: Id)
    requires base.date == DateTime(2024, 1, 31, 0)
    requires base.recurrence == Some(Recurrence(Monthly, Some(DateTime(2024, 3, 1, 0))))
    ensures GenerateNextRecurringEvent(base, freshId).None?
  {
    JanuaryThirtyFirstRollsOver(base.date);
    var marchFirst: Date := DateTime(2024, 3, 1, 0);
    NextDayNumber(marchFirst);
    assert NextDay(marchFirst) == DateTime(2024, 3, 2, 0);
  }

  // ---------------------------------------------------------------------
  // Reducer specifications

  function IndexOfId(es: seq<Event>, id: Id): Option<nat>
  {
    FindIndex(es, (e: Event) => e.id == id)
  }

  /** The record `addEvent` pushes: `{ id: fresh, ...payload, completed: false,
      createdAt }`. `ownId` says whether the payload carries its own `id` key
      (the event form always sends one). */
  function Stamped(payload: Event, ownId: bool, freshId: Id, createdAt: Date): Event
  {
    payload.(id := if ownId then payload.id else freshId, completed := false, createdAt := createdAt)
  }

  /** What `addEvent` appends after the event itself: the single successor
      occurrence, if the pattern is not 'none' and the expander produced one. */
  function Successors(event: Event, successorId: Id): seq<Event>
    requires event.recurrence.Some?
  {
    if event.recurrence.value.pattern == NoRecurrence then []
    else
      match GenerateNextRecurringEvent(event, successorId)
      case None => []
      case Some(next) => [next]
  }

  lemma SuccessorsShape(event: Event, successorId: Id)
    requires event.recurrence.Some?
    ensures |Successors(event, successorId)| <= 1
    ensures |Successors(event, successorId)| == 1 ==>
              event.recurrence.value.pattern in {Daily, Weekly, Monthly, Yearly}
              && Successors(event, successorId)[0].recurringGroupId == Some(event.id)
              && Successors(event, successorId)[0].completed == event.completed
    ensures (event.recurrence.value.pattern in {Daily, Weekly, Monthly, Yearly}
             && event.recurrence.value.endDate.None?) ==> |Successors(event, successorId)| == 1
  {
  }

  function GroupUpdated(es: seq<Event>, group: Id, patch: EventPatch, stamp: Date): seq<Event>
  {
    seq(|es|, j requires 0 <= j < |es| =>
      if es[j].recurringGroupId == Some(group)
      then Merge(es[j], patch).(date := es[j].date, updatedAt := Some(stamp))
      else es[j])
  }

  /** The event list after `updateEvent({ id, event: patch, updateRecurrences })`. */
  function UpdatedEvents(es: seq<Event>, id: Id, patch: EventPatch, updateRecurrences: bool, stamp: Date): seq<Event>
  {
    match IndexOfId(es, id)
    case None => es
    case Some(i) =>
      var target := Merge(es[i], patch).(updatedAt := Some(stamp));
      var es1 := es[i := target];
      if updateRecurrences && Truthy(target.recurringGroupId)
      then GroupUpdated(es1, target.recurringGroupId.value, patch, stamp)
      else es1
  }

  /** The complete effect of `updateEvent`: nothing for an unknown id;
      otherwise the target gets the patch, and with `updateRecurrences` every
      other member of the target's group gets the patch too but keeps its own
      date. Everything else is untouched and the length is unchanged. */
  lemma UpdateEventEffect(es: seq<Event>, id: Id, patch: EventPatch, updateRecurrences: bool, stamp: Date)
    ensures var r := UpdatedEvents(es, id, patch, updateRecurrences, stamp);
            && |r| == |es|
            && ((forall j :: 0 <= j < |es| ==> es[j].id != id) ==> r == es)
    ensures var r := UpdatedEvents(es, id, patch, updateRecurrences, stamp);
            forall i :: 0 <= i < |es| && IndexOfId(es, id) == Some(i) ==>
              var target := Merge(es[i], patch);
              var inGroup := (j: nat) =>
                updateRecurrences && Truthy(target.recurringGroupId)
                && j < |es| && es[j].recurringGroupId == target.recurringGroupId;
              && r[i] == target.(updatedAt := Some(stamp))
              && (forall j :: 0 <= j < |es| && j != i && inGroup(j) ==>
                    r[j] == Merge(es[j], patch).(date := es[j].date, updatedAt := Some(stamp)))
              && (forall j :: 0 <= j < |es| && j != i && !inGroup(j) ==> r[j] == es[j])
  {
    match IndexOfId(es, id)
    case None =>
    case Some(i) =>
      var target := Merge(es[i], patch);
      MergeIdempotent(es[i], patch);
      assert Merge(target.(updatedAt := Some(stamp)), patch).(date := target.date, updatedAt := Some(stamp))
          == target.(updatedAt := Some(stamp));
  }

  /** A group update never moves a sibling: every event other than the target
      keeps its date. */
  lemma GroupUpdateKeepsDates(es: seq<Event>, id: Id, patch: EventPatch, stamp: Date)
    ensures var r := UpdatedEvents(es, id, patch, true, stamp);
            forall j :: 0 <= j < |es| && IndexOfId(es, id) != Some(j) ==> r[j].date == es[j].date
  {
    UpdateEventEffect(es, id, patch, true, stamp);
  }

  /** The group update spreads the WHOLE patch, `id` included: when the patch
      carries an id, every member of the target's group ends up with that id. */
  lemma GroupUpdateSpreadsPatchId(es: seq<Event>, id: Id, patch: EventPatch, stamp: Date, j: nat)
    requires patch.id.Some?
    requires IndexOfId(es, id).Some?
    requires var t := Merge(es[IndexOfId(es, id).value], patch);
             Truthy(t.recurringGroupId) && j < |es| && es[j].recurringGroupId == t.recurringGroupId
    ensures UpdatedEvents(es, id, patch, true, stamp)[j].id == patch.id.value
  {
    UpdateEventEffect(es, id, patch, true, stamp);
  }

  function WithoutId(es: seq<Event>, id: Id): seq<Event>
  {
    Filter(es, (e: Event) => e.id != id)
  }

  function OutsideGroup(es: seq<Event>, group: Option<Id>): seq<Event>
  {
    Filter(es, (e: Event) => e.recurringGroupId != group)
  }

  /** The event list after `deleteEvent({ id, deleteRecurrences })`. */
  function DeletedEvents(es: seq<Event>, id: Id, deleteRecurrences: bool): seq<Event>
  {
    if !deleteRecurrences then WithoutId(es, id)
    else
      match IndexOfId(es, id)
      case None => es
      case Some(i) =>
        if Truthy(es[i].recurringGroupId) then OutsideGroup(es, es[i].recurringGroupId) else es
  }

  /** Deleting one event removes exactly the events carrying that id, keeps
      every other event as often as before, and keeps them in their order:
      deleting from a concatenation deletes from each part. */
  lemma DeleteOneEffect(es: seq<Event>, more: seq<Event>, id: Id)
    ensures var r := DeletedEvents(es, id, false);
            && (forall e :: e in r <==> e in es && e.id != id)
            && (forall e: Event :: e.id != id ==> multiset(r)[e] == multiset(es)[e])
    ensures DeletedEvents(es + more, id, false) == DeletedEvents(es, id, false) + DeletedEvents(more, id, false)
  {
    FilterCount(es, (e: Event) => e.id != id);
    FilterAppend(es, more, (e: Event) => e.id != id);
  }

  /** Deleting a group removes every event of the target's group and keeps
      every other event, the group's origin (which has no group id) among them.
      It does nothing when the target is missing or has no group id. */
  lemma DeleteGroupEffect(es: seq<Event>, id: Id)
    ensures var r := DeletedEvents(es, id, true);
            match IndexOfId(es, id)
            case None => r == es
            case Some(i) =>
              if Truthy(es[i].recurringGroupId) then
                && (forall e :: e in r ==> e.recurringGroupId != es[i].recurringGroupId)
                && (forall e: Event :: e.recurringGroupId != es[i].recurringGroupId ==>
                      multiset(r)[e] == multiset(es)[e])
                && (forall e :: e in es && e.recurringGroupId.None? ==> e in r)
              else r == es
  {
    match IndexOfId(es, id)
    case None =>
    case Some(i) =>
      if Truthy(es[i].recurringGroupId) {
        FilterCount(es, (e: Event) => e.recurringGroupId != es[i].recurringGroupId);
      }
  }

  /** Creating an event without recurrence and deleting it again restores the
      list, provided no other event already had that id. */
  lemma AddThenDeleteRestores(es: seq<Event>, event: Event, successorId: Id)
    requires event.recurrence.Some? && event.recurrence.value.pattern == NoRecurrence
    requires forall j :: 0 <= j < |es| ==> es[j].id != event.id
    ensures DeletedEvents(es + [event] + Successors(event, successorId), event.id, false) == es
  {
    assert Successors(event, successorId) == [];
    assert es + [event] + [] == es + [event];
    FilterAppend(es, [event], (e: Event) => e.id != event.id);
    FilterAll(es, (e: Event) => e.id != event.id);
    assert Filter([event], (e: Event) => e.id != event.id) == [];
  }

  function MarkedCompleted(es: seq<Event>, id: Id, stamp: Date): seq<Event>
  {
    match IndexOfId(es, id)
    case None => es
    case Some(i) => es[i := es[i].(completed := true, completedAt := Some(stamp))]
  }

  /** Marking completes the first event with the id and stamps it; an unknown
      id changes nothing; every other event is untouched. */
  lemma MarkCompletedEffect(es: seq<Event>, id: Id, stamp: Date)
    ensures var r := MarkedCompleted(es, id, stamp);
            && |r| == |es|
            && (forall j :: 0 <= j < |es| && IndexOfId(es, id) != Some(j) ==> r[j] == es[j])
            && (forall i :: IndexOfId(es, id) == Some(i) ==>
                  && r[i].completed && r[i].completedAt == Some(stamp) && r[i].id == id
                  && r[i].(completed := es[i].completed, completedAt := es[i].completedAt) == es[i])
            && ((forall j :: 0 <= j < |es| ==> es[j].id != id) ==> r == es)
  {
  }

  /** Marking an already completed event again overwrites its completion stamp:
      two calls equal the last one alone. */
  lemma {:induction false} MarkCompletedTwice(es: seq<Event>, id: Id, first: Date, second: Date)
    ensures MarkedCompleted(MarkedCompleted(es, id, first), id, second) == MarkedCompleted(es, id, second)
  {
    var once := MarkedCompleted(es, id, first);
    match IndexOfId(es, id)
    case None =>
    case Some(i) =>
      assert forall j :: 0 <= j < |once| ==> (once[j].id == id <==> es[j].id == id);
      FindIndexSameKeys(es, once, id);
  }

  /** Two lists with the same ids at every position find an id at the same index. */
  lemma {:induction false} FindIndexSameKeys(a: seq<Event>, b: seq<Event>, id: Id)
    requires |a| == |b|
    requires forall j :: 0 <= j < |a| ==> (a[j].id == id <==> b[j].id == id)
    ensures IndexOfId(a, id) == IndexOfId(b, id)
  {
    if a != [] {
      FindIndexSameKeys(a[1..], b[1..], id);
    }
  }

  /** `addReminder` on the first event with `eventId`. `draftId` is the id the
      reminder payload carries, if any; it overrides the generated one. */
  function WithReminderAdded(es: seq<Event>, eventId: Id, draftId: Option<Id>, kind: ReminderType,
                             minutesBefore: int, freshId: Id): seq<Event>
  {
    match IndexOfId(es, eventId)
    case None => es
    case Some(i) =>
      var reminder := Reminder(Pick(draftId, freshId), kind, minutesBefore);
      es[i := es[i].(reminders := Some(es[i].reminders.GetOr([]) + [reminder]))]
  }

  lemma AddReminderEffect(es: seq<Event>, eventId: Id, draftId: Option<Id>, kind: ReminderType,
                          minutesBefore: int, freshId: Id)
    ensures var r := WithReminderAdded(es, eventId, draftId, kind, minutesBefore, freshId);
            && |r| == |es|
            && (forall j :: 0 <= j < |es| && IndexOfId(es, eventId) != Some(j) ==> r[j] == es[j])
            && (forall i :: IndexOfId(es, eventId) == Some(i) ==>
                  && r[i].reminders.Some?
                  && r[i].reminders.value == es[i].reminders.GetOr([]) + [Reminder(Pick(draftId, freshId), kind, minutesBefore)]
                  && r[i].(reminders := es[i].reminders) == es[i])
  {
  }

  /** The reminders `removeReminder` keeps: those with another id. */
  function OtherReminder(reminderId: Id): Reminder -> bool
  {
    (r: Reminder) => r.id != reminderId
  }

  function WithReminderRemoved(es: seq<Event>, eventId: Id, reminderId: Id): seq<Event>
  {
    match IndexOfId(es, eventId)
    case None => es
    case Some(i) =>
      if es[i].reminders.None? then es
      else es[i := es[i].(reminders := Some(Filter(es[i].reminders.value, OtherReminder(reminderId))))]
  }

  /** `removeReminder` drops every reminder with that id from the first event
      with `eventId`, keeps its other reminders in their order and as often as
      they were, and is a no-op when the event or its reminder list is
      missing. */
  lemma RemoveReminderEffect(es: seq<Event>, eventId: Id, reminderId: Id)
    ensures var r := WithReminderRemoved(es, eventId, reminderId);
            && |r| == |es|
            && (forall j :: 0 <= j < |es| && IndexOfId(es, eventId) != Some(j) ==> r[j] == es[j])
            && (forall i :: IndexOfId(es, eventId) == Some(i) && es[i].reminders.Some? ==>
                  && r[i].reminders.Some?
                  && r[i].reminders.value == Filter(es[i].reminders.value, OtherReminder(reminderId))
                  && (forall x :: x in r[i].reminders.value <==> x in es[i].reminders.value && x.id != reminderId)
                  && (forall x: Reminder :: x.id != reminderId ==>
                        multiset(r[i].reminders.value)[x] == multiset(es[i].reminders.value)[x])
                  && r[i].(reminders := es[i].reminders) == es[i])
            && (forall i :: IndexOfId(es, eventId) == Some(i) && es[i].reminders.None? ==> r == es)
  {
    match IndexOfId(es, eventId)
    case None =>
    case Some(i) =>
      if es[i].reminders.Some? {
        FilterCount(es[i].reminders.value, OtherReminder(reminderId));
      }
  }

  // ---------------------------------------------------------------------
  // Selectors

  function SelectFilteredEvents(es: seq<Event>): seq<Event>
  {
    Filter(es, (e: Event) => !e.completed)
  }

  function SelectCompletedEvents(es: seq<Event>): seq<Event>
  {
    Filter(es, (e: Event) => e.completed)
  }

  /** The two selectors split the list: every event is in exactly one of
      them, as often as in the list, and each keeps the list's order. */
  lemma SelectorsPartition(es: seq<Event>, more: seq<Event>)
    ensures multiset(SelectFilteredEvents(es)) + multiset(SelectCompletedEvents(es)) == multiset(es)
    ensures forall e :: e in SelectFilteredEvents(es) ==> !e.completed
    ensures forall e :: e in SelectCompletedEvents(es) ==> e.completed
    ensures SelectFilteredEvents(es + more) == SelectFilteredEvents(es) + SelectFilteredEvents(more)
    ensures SelectCompletedEvents(es + more) == SelectCompletedEvents(es) + SelectCompletedEvents(more)
  {
    FilterPartition(es, (e: Event) => !e.completed, (e: Event) => e.completed);
    FilterAppend(es, more, (e: Event) => !e.completed);
    FilterAppend(es, more, (e: Event) => e.completed);
  }

  // ---------------------------------------------------------------------
  // The slice

  class CalendarStore {
    var events: seq<Event>
    var notification: Option<Notice>

    constructor(initial: seq<Event>)
      ensures events == initial && notification.None?
    {
      events := initial;
      notification := None;
    }

    /** `addEvent(payload)`. The source reads `event.recurrence.pattern`, which
        throws for a payload without `recurrence`; the store then keeps its
        previous state, reported here as `ok == false`. */
    method AddEvent(payload: Event, ownId: bool, freshId: Id, createdAt: Date, successorId: Id)
      returns (ok: bool)
      modifies this
      ensures ok == payload.recurrence.Some?
      ensures !ok ==> events == old(events) && notification == old(notification)
      ensures ok ==>
        var event := Stamped(payload, ownId, freshId, createdAt);
        && events == old(events) + [event] + Successors(event, successorId)
        && notification == Some(Notice(Success, "Event added successfully"))
    {
      var event := Stamped(payload, ownId, freshId, createdAt);
      if event.recurrence.None? {
        return false;
      }
      events := events + [event];
      if event.recurrence.value.pattern != NoRecurrence {
        var next := GenerateNextRecurringEvent(event, successorId);
        if next.Some? {
          events := events + [next.value];
        }
      }
      notification := Some(Notice(Success, "Event added successfully"));
      ok := true;
    }

    /** `updateEvent({ id, event: patch, updateRecurrences })`. */
    method UpdateEvent(id: Id, patch: EventPatch, updateRecurrences: bool, stamp: Date)
      modifies this
      ensures events == UpdatedEvents(old(events), id, patch, updateRecurrences, stamp)
      ensures IndexOfId(old(events), id).None? ==> notification == old(notification)
      ensures IndexOfId(old(events), id).Some? ==>
        notification == Some(Notice(Success,
          if updateRecurrences then "All recurring events updated successfully"
          else "Event updated successfully"))
    {
      var found := IndexOfId(events, id);
      if found.Some? {
        var i := found.value;
        events := events[i := Merge(events[i], patch).(updatedAt := Some(stamp))];
        if updateRecurrences && Truthy(events[i].recurringGroupId) {
          events := GroupUpdated(events, events[i].recurringGroupId.value, patch, stamp);
        }
        notification := Some(Notice(Success,
          if updateRecurrences then "All recurring events updated successfully"
          else "Event updated successfully"));
      }
    }

    /** `deleteEvent({ id, deleteRecurrences })`. */
    method DeleteEvent(id: Id, deleteRecurrences: bool)
      modifies this
      ensures events == DeletedEvents(old(events), id, deleteRecurrences)
      ensures !deleteRecurrences ==> notification == Some(Notice(Success, "Event deleted successfully"))
      ensures deleteRecurrences ==>
        notification == if IndexOfId(old(events), id).Some?
                           && Truthy(old(events)[IndexOfId(old(events), id).value].recurringGroupId)
                        then Some(Notice(Success, "All recurring events deleted successfully"))
                        else old(notification)
    {
      if deleteRecurrences {
        var found := IndexOfId(events, id);
        if found.Some? && Truthy(events[found.value].recurringGroupId) {
          events := OutsideGroup(events, events[found.value].recurringGroupId);
          notification := Some(Notice(Success, "All recurring events deleted successfully"));
        }
      } else {
        events := WithoutId(events, id);
        notification := Some(Notice(Success, "Event deleted successfully"));
      }
    }

    /** `markEventCompleted({ id })`; `stamp` is the clock reading. */
    method MarkEventCompleted(id: Id, stamp: Date)
      modifies this`events
      ensures events == MarkedCompleted(old(events), id, stamp)
    {
      var found := IndexOfId(events, id);
      if found.Some? {
        var i := found.value;
        events := events[i := events[i].(completed := true, completedAt := Some(stamp))];
      }
    }

    /** `addReminder({ eventId, reminder })`. */
    method AddReminder(eventId: Id, draftId: Option<Id>, kind: ReminderType, minutesBefore: int, freshId: Id)
      modifies this
      ensures events == WithReminderAdded(old(events), eventId, draftId, kind, minutesBefore, freshId)
      ensures notification == if IndexOfId(old(events), eventId).Some?
                              then Some(Notice(Success, "Reminder added successfully"))
                              else old(notification)
    {
      var found := IndexOfId(events, eventId);
      if found.Some? {
        var i := found.value;
        var list := if events[i].reminders.None? then [] else events[i].reminders.value;
        var reminder := Reminder(Pick(draftId, freshId), kind, minutesBefore);
        events := events[i := events[i].(reminders := Some(list + [reminder]))];
        notification := Some(Notice(Success, "Reminder added successfully"));
      }
    }

    /** `removeReminder({ eventId, reminderId })`. */
    method RemoveReminder(eventId: Id, reminderId: Id)
      modifies this
      ensures events == WithReminderRemoved(old(events), eventId, reminderId)
      ensures notification == if IndexOfId(old(events), eventId).Some?
                                 && old(events)[IndexOfId(old(events), eventId).value].reminders.Some?
                              then Some(Notice(Success, "Reminder removed successfully"))
                              else old(notification)
    {
      var found := IndexOfId(events, eventId);
      if found.Some? && events[found.value].reminders.Some? {
        var i := found.value;
        var kept := Filter(events[i].reminders.value, OtherReminder(reminderId));
        events := events[i := events[i].(reminders := Some(kept))];
        notification := Some(Notice(Success, "Reminder removed successfully"));
      }
    }
  }
}
