/** The browser reminder service: a permission flag, a queue of scheduled
    reminders and the timers armed for them. The current time (`Date.now()`)
    and the browser's permission answers are parameters; the timer callbacks
    themselves are recorded, not run. */
module Notifications {
  import opened Common
  import opened Dates
  import opened Seqs
  import opened Events

  datatype QueueEntry = QueueEntry(id: string, eventId: Id, reminderId: Id, scheduledTime: int)

  /** A `setTimeout` armed by `scheduleNotification`: when it fires it shows
      `reminder` for `event`. Cancelling a queue entry does not disarm it. */
  datatype Timer = Timer(event: Event, reminder: Reminder, fireAt: int)

  /** `Notification.permission` and the answers of `requestPermission()`. */
  datatype Permission = Granted | Denied | Default

  /** What `showNotification` does: nothing without permission, otherwise a
      browser notification tagged `<eventId>-<reminderId>`, with the sound
      played for the 'notification' and 'both' reminder types. */
  datatype ShowEffect = Suppressed | Displayed(tag: string, sound: bool)

  /** The moment a reminder is due: the event's time minus the lead time. */
  function FireTime(event: Event, reminder: Reminder): int
  {
    EpochMs(event.date) - reminder.minutesBefore * MinuteMs
  }

  function EntryId(eventId: Id, reminderId: Id): string
  {
    eventId + "-" + reminderId
  }

  function EntryFor(event: Event, reminder: Reminder): QueueEntry
  {
    QueueEntry(EntryId(event.id, reminder.id), event.id, reminder.id, FireTime(event, reminder))
  }

  /** The reminders `scheduleNotification` accepts at time `now`: those whose
      fire time is still in the future. */
  function Armed(event: Event, rs: seq<Reminder>, now: int): seq<Reminder>
    decreases |rs|
  {
    if rs == [] then []
    else
      var last := rs[|rs| - 1];
      Armed(event, rs[..|rs| - 1], now) + if FireTime(event, last) > now then [last] else []
  }

  /** Whether a reminder is still ahead of `now`, as a filter predicate. */
  function Ahead(event: Event, now: int): Reminder -> bool
  {
    (r: Reminder) => FireTime(event, r) > now
  }

  /** `Armed` is the filter of the reminders by their fire time. */
  lemma {:induction false} ArmedIsFilter(event: Event, rs: seq<Reminder>, now: int)
    ensures Armed(event, rs, now) == Filter(rs, Ahead(event, now))
    decreases |rs|
  {
    if rs != [] {
      var init, last := rs[..|rs| - 1], rs[|rs| - 1];
      assert rs == init + [last];
      ArmedIsFilter(event, init, now);
      FilterSnoc(init, last, Ahead(event, now));
    }
  }

  /** The queue entries for `rs`, one per reminder, in order. */
  function EntriesOf(event: Event, rs: seq<Reminder>): (q: seq<QueueEntry>)
    ensures |q| == |rs|
    decreases |rs|
  {
    if rs == [] then []
    else EntriesOf(event, rs[..|rs| - 1]) + [EntryFor(event, rs[|rs| - 1])]
  }

  /** Each entry is the entry of one of the reminders, and every reminder's
      entry is there. */
  lemma {:induction false} EntriesOfMembers(event: Event, rs: seq<Reminder>)
    ensures forall x :: x in EntriesOf(event, rs) ==> exists r :: r in rs && x == EntryFor(event, r)
    ensures forall r :: r in rs ==> EntryFor(event, r) in EntriesOf(event, rs)
    decreases |rs|
  {
    if rs != [] {
      var init := rs[..|rs| - 1];
      EntriesOfMembers(event, init);
      assert rs == init + [rs[|rs| - 1]];
    }
  }

  /** The timers armed for `rs`, one per reminder, in order. */
  function TimersOf(event: Event, rs: seq<Reminder>): (t: seq<Timer>)
    ensures |t| == |rs|
    decreases |rs|
  {
    if rs == [] then []
    else TimersOf(event, rs[..|rs| - 1]) + [Timer(event, rs[|rs| - 1], FireTime(event, rs[|rs| - 1]))]
  }

  /** The entries `scheduleEventReminders(event)` adds at time `now`: one per
      reminder still in the future, in reminder order, all for this event and
      all due after `now`. */
  function ScheduledEntries(event: Event, now: int): (q: seq<QueueEntry>)
    ensures forall x :: x in q ==> x.eventId == event.id && x.scheduledTime > now
    ensures forall x :: x in q ==> x.id == EntryId(event.id, x.reminderId)
    ensures event.reminders.Some? ==>
              forall r :: r in event.reminders.value && FireTime(event, r) > now ==> EntryFor(event, r) in q
  {
    if event.reminders.None? then []
    else
      var armed := Armed(event, event.reminders.value, now);
      ArmedIsFilter(event, event.reminders.value, now);
      assert forall r :: r in armed ==> FireTime(event, r) > now;
      EntriesOfMembers(event, armed);
      EntriesOf(event, armed)
  }

  /** Scanning one more reminder arms it exactly when its fire time is
      ahead of `now`. */
  lemma ArmedStep(event: Event, rs: seq<Reminder>, i: nat, now: int)
    requires i < |rs|
    ensures var step := if FireTime(event, rs[i]) > now then [rs[i]] else [];
            Armed(event, rs[..i + 1], now) == Armed(event, rs[..i], now) + step
  {
    assert rs[..i + 1][..i] == rs[..i];
  }

  /** One loop step of `scheduleEventReminders`: the scanned prefix grows
      by one reminder, and whatever queue `q` and timer list `t` the scan
      started from grow by its entry and its timer exactly when it is still
      ahead. */
  lemma ScheduleStep(event: Event, rs: seq<Reminder>, i: nat, now: int, q: seq<QueueEntry>, t: seq<Timer>)
    requires i < |rs|
    ensures var ahead := FireTime(event, rs[i]) > now;
            && q + EntriesOf(event, Armed(event, rs[..i + 1], now))
               == q + EntriesOf(event, Armed(event, rs[..i], now)) + (if ahead then [EntryFor(event, rs[i])] else [])
            && t + TimersOf(event, Armed(event, rs[..i + 1], now))
               == t + TimersOf(event, Armed(event, rs[..i], now)) + (if ahead then [Timer(event, rs[i], FireTime(event, rs[i]))] else [])
  {
    var before := Armed(event, rs[..i], now);
    ArmedStep(event, rs, i, now);
    if FireTime(event, rs[i]) > now {
      EntriesSnoc(event, before, rs[i]);
      assert q + (EntriesOf(event, before) + [EntryFor(event, rs[i])]) == q + EntriesOf(event, before) + [EntryFor(event, rs[i])];
      assert t + (TimersOf(event, before) + [Timer(event, rs[i], FireTime(event, rs[i]))])
          == t + TimersOf(event, before) + [Timer(event, rs[i], FireTime(event, rs[i]))];
    } else {
      assert Armed(event, rs[..i + 1], now) == before + [] == before;
    }
  }

  lemma EntriesSnoc(event: Event, rs: seq<Reminder>, r: Reminder)
    ensures EntriesOf(event, rs + [r]) == EntriesOf(event, rs) + [EntryFor(event, r)]
    ensures TimersOf(event, rs + [r]) == TimersOf(event, rs) + [Timer(event, r, FireTime(event, r))]
  {
    assert (rs + [r])[..|rs|] == rs;
  }

  /** The queue after `cancelEventReminders(eventId)`. */
  function WithoutEvent(queue: seq<QueueEntry>, eventId: Id): seq<QueueEntry>
  {
    Filter(queue, (n: QueueEntry) => n.eventId != eventId)
  }

  /** The queue after `rescheduleEventReminders(event)` at time `now`. */
  function Rescheduled(queue: seq<QueueEntry>, event: Event, now: int): seq<QueueEntry>
  {
    WithoutEvent(queue, event.id) + ScheduledEntries(event, now)
  }

  /** Rescheduling twice at the same moment leaves the same queue as once:
      the second cancel removes exactly what the first schedule added. */
  lemma RescheduleIdempotent(queue: seq<QueueEntry>, event: Event, now: int)
    ensures Rescheduled(Rescheduled(queue, event, now), event, now) == Rescheduled(queue, event, now)
  {
    var p := (n: QueueEntry) => n.eventId != event.id;
    var kept := WithoutEvent(queue, event.id);
    var added := ScheduledEntries(event, now);
    FilterAppend(kept, added, p);
    FilterAll(kept, p);
    FilterNone(added, p);
    assert Filter(kept + added, p) == kept;
  }

  /** After rescheduling, the queue holds exactly the other events' entries,
      untouched, followed by the fresh entries of this event. */
  lemma RescheduleReplacesEntries(queue: seq<QueueEntry>, event: Event, now: int)
    ensures var r := Rescheduled(queue, event, now);
            && (forall x :: x in r && x.eventId != event.id <==> x in queue && x.eventId != event.id)
            && (forall x :: x in r && x.eventId == event.id <==> x in ScheduledEntries(event, now))
  {
  }

  /** The queue after `cancelNotification(eventId, reminderId)`: the first
      matching entry is spliced out. */
  function WithoutEntry(queue: seq<QueueEntry>, eventId: Id, reminderId: Id): (r: seq<QueueEntry>)
    ensures var i := FindIndex(queue, (n: QueueEntry) => n.eventId == eventId && n.reminderId == reminderId);
            && (i.None? ==> r == queue)
            && (i.Some? ==> |r| == |queue| - 1
                            && multiset(r) == multiset(queue) - multiset{queue[i.value]}
                            && r[..i.value] == queue[..i.value]
                            && r[i.value..] == queue[i.value + 1..])
  {
    match FindIndex(queue, (n: QueueEntry) => n.eventId == eventId && n.reminderId == reminderId)
    case None => queue
    case Some(i) =>
      SpliceOut(queue, i);
      queue[..i] + queue[i + 1..]
  }

  class NotificationService {
    var hasPermission: bool
    var notificationQueue: seq<QueueEntry>
    var timers: seq<Timer>

    /** The constructor's synchronous part; the permission check it starts is
        `CheckPermission`. */
    constructor()
      ensures !hasPermission && notificationQueue == [] && timers == []
    {
      hasPermission := false;
      notificationQueue := [];
      timers := [];
    }

    /** `checkPermission()`: nothing when the browser has no notification
        support; granted stays granted; denied is left alone; otherwise the
        user's answer decides. */
    method CheckPermission(supported: bool, current: Permission, answer: Permission)
      modifies this`hasPermission
      ensures hasPermission == if !supported then old(hasPermission)
                               else if current == Granted then true
                               else if current != Denied then answer == Granted
                               else old(hasPermission)
    {
      if !supported {
        return;
      }
      if current == Granted {
        hasPermission := true;
      } else if current != Denied {
        hasPermission := answer == Granted;
      }
    }

    /** `requestPermission()`: the flag follows the user's answer and is returned. */
    method RequestPermission(answer: Permission) returns (granted: bool)
      modifies this`hasPermission
      ensures granted == hasPermission && (granted <==> answer == Granted)
    {
      hasPermission := answer == Granted;
      granted := hasPermission;
    }

    /** `showNotification(event, reminder)`; changes nothing in the service. */
    method ShowNotification(event: Event, reminder: Reminder) returns (effect: ShowEffect)
      ensures effect.Suppressed? <==> !hasPermission
      ensures effect.Displayed? ==>
                effect.tag == EntryId(event.id, reminder.id)
                && (effect.sound <==> reminder.kind == RemindNotification || reminder.kind == RemindBoth)
    {
      if !hasPermission {
        return Suppressed;
      }
      var sound := reminder.kind == RemindNotification || reminder.kind == RemindBoth;
      effect := Displayed(EntryId(event.id, reminder.id), sound);
    }

    /** `scheduleNotification(event, reminder)` at time `now`: a reminder
        whose fire time is still ahead arms a timer and is queued; one whose
        time has passed is dropped. */
    method ScheduleNotification(event: Event, reminder: Reminder, now: int)
      modifies this`notificationQueue, this`timers
      ensures FireTime(event, reminder) > now ==>
                notificationQueue == old(notificationQueue) + [EntryFor(event, reminder)]
                && timers == old(timers) + [Timer(event, reminder, FireTime(event, reminder))]
      ensures FireTime(event, reminder) <= now ==>
                notificationQueue == old(notificationQueue) && timers == old(timers)
    {
      var reminderTime := EpochMs(event.date) - reminder.minutesBefore * MinuteMs;
      if reminderTime > now {
        timers := timers + [Timer(event, reminder, reminderTime)];
        notificationQueue := notificationQueue + [QueueEntry(EntryId(event.id, reminder.id), event.id, reminder.id, reminderTime)];
      }
    }

    /** `cancelNotification(eventId, reminderId)`. The timer armed for the
        entry is left running. */
    method CancelNotification(eventId: Id, reminderId: Id)
      modifies this`notificationQueue
      ensures notificationQueue == WithoutEntry(old(notificationQueue), eventId, reminderId)
    {
      var i := FindIndex(notificationQueue, (n: QueueEntry) => n.eventId == eventId && n.reminderId == reminderId);
      if i.Some? {
        notificationQueue := notificationQueue[..i.value] + notificationQueue[i.value + 1..];
      }
    }

    /** `scheduleEventReminders(event)`: every reminder of the event, in order,
        through `scheduleNotification`. */
    method ScheduleEventReminders(event: Event, now: int)
      modifies this`notificationQueue, this`timers
      ensures event.reminders.None? ==> notificationQueue == old(notificationQueue)
      ensures event.reminders.Some? ==>
                notificationQueue == old(notificationQueue) + EntriesOf(event, Armed(event, event.reminders.value, now))
      ensures event.reminders.Some? ==>
                timers == old(timers) + TimersOf(event, Armed(event, event.reminders.value, now))
      ensures event.reminders.None? ==> timers == old(timers)
    {
      if event.reminders.None? {
        return;
      }
      var rs := event.reminders.value;
      var i := 0;
      while i < |rs|
        invariant 0 <= i <= |rs|
        invariant notificationQueue == old(notificationQueue) + EntriesOf(event, Armed(event, rs[..i], now))
        invariant timers == old(timers) + TimersOf(event, Armed(event, rs[..i], now))
      {
        ScheduleStep(event, rs, i, now, old(notificationQueue), old(timers));
        ScheduleNotification(event, rs[i], now);
        i := i + 1;
      }
      assert rs[..i] == rs;
    }

    /** `cancelEventReminders(eventId)`: every queue entry of the event goes;
        the armed timers stay. */
    method CancelEventReminders(eventId: Id)
      modifies this`notificationQueue
      ensures notificationQueue == WithoutEvent(old(notificationQueue), eventId)
    {
      notificationQueue := Filter(notificationQueue, (n: QueueEntry) => n.eventId != eventId);
    }

    /** `rescheduleEventReminders(event)`: cancel, then schedule again. The
        old timers are not disarmed, so the new ones come on top of them. */
    method RescheduleEventReminders(event: Event, now: int)
      modifies this`notificationQueue, this`timers
      ensures notificationQueue == Rescheduled(old(notificationQueue), event, now)
      ensures event.reminders.Some? ==>
                timers == old(timers) + TimersOf(event, Armed(event, event.reminders.value, now))
      ensures event.reminders.None? ==> timers == old(timers)
    {
      CancelEventReminders(event.id);
      ScheduleEventReminders(event, now);
    }
  }
}
