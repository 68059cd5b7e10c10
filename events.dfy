/** The calendar event record shared by the calendar slice, the notification
    service and the tracker and history views. */
module Events {
  import opened Common
  import opened Dates

  type Id = string

  /** `recurrence.pattern`. Only the four patterns the expander handles get a
      constructor of their own; `'none'` is `NoRecurrence`, and every other
      value (`'biweekly'`, `'weekday'`, `'custom'`, ...) is `OtherPattern`. */
  datatype Pattern = NoRecurrence | Daily | Weekly | Monthly | Yearly | OtherPattern(name: string)

  datatype Recurrence = Recurrence(pattern: Pattern, endDate: Option<Date>)

  /** `reminder.type`: 'none', 'email', 'notification' or 'both'. */
  datatype ReminderType = RemindNone | RemindEmail | RemindNotification | RemindBoth

  datatype Reminder = Reminder(id: Id, kind: ReminderType, minutesBefore: int)

  datatype Event = Event(
    id: Id,
    companyId: Option<Id>,
    methodId: Option<Id>,
    title: string,
    date: Date,
    completed: bool,
    completedAt: Option<Date>,
    notes: string,
    priority: string,
    createdAt: Date,
    updatedAt: Option<Date>,
    recurrence: Option<Recurrence>,
    isRecurring: bool,
    recurringGroupId: Option<Id>,
    status: Option<string>,
    reminders: Option<seq<Reminder>>)

  /** The keys an update payload carries: `Some(v)` for a key present with
      value `v`, `None` for a key the payload does not have. */
  datatype EventPatch = EventPatch(
    id: Option<Id>,
    companyId: Option<Id>,
    methodId: Option<Id>,
    title: Option<string>,
    date: Option<Date>,
    completed: Option<bool>,
    completedAt: Option<Date>,
    notes: Option<string>,
    priority: Option<string>,
    createdAt: Option<Date>,
    updatedAt: Option<Date>,
    recurrence: Option<Recurrence>,
    isRecurring: Option<bool>,
    recurringGroupId: Option<Id>,
    status: Option<string>,
    reminders: Option<seq<Reminder>>)

  /** `{ ...e, ...p }`: every key of the patch overrides, every other key of
      the event is kept. */
  function Merge(e: Event, p: EventPatch): Event
  {
    Event(
      Pick(p.id, e.id),
      PickOpt(p.companyId, e.companyId),
      PickOpt(p.methodId, e.methodId),
      Pick(p.title, e.title),
      Pick(p.date, e.date),
      Pick(p.completed, e.completed),
      PickOpt(p.completedAt, e.completedAt),
      Pick(p.notes, e.notes),
      Pick(p.priority, e.priority),
      Pick(p.createdAt, e.createdAt),
      PickOpt(p.updatedAt, e.updatedAt),
      PickOpt(p.recurrence, e.recurrence),
      Pick(p.isRecurring, e.isRecurring),
      PickOpt(p.recurringGroupId, e.recurringGroupId),
      PickOpt(p.status, e.status),
      PickOpt(p.reminders, e.reminders))
  }

  /** Spreading the same patch a second time changes nothing. */
  lemma MergeIdempotent(e: Event, p: EventPatch)
    ensures Merge(Merge(e, p), p) == Merge(e, p)
  {
  }
}
