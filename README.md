# Project-Calender client state, modelled in Dafny

Project-Calender is a React/Redux dashboard. It keeps client companies, the
communication methods used to reach them, and a calendar of communication
events with reminders. This project models the part of the client that holds
state and computes over it:

- the calendar slice: events, their reducers, one-step recurrence and the
  open/completed selectors;
- the browser reminder service: permission flag, notification queue and
  armed timers;
- the communications slice: the overdue and due-today classification;
- the tracker view: filters, overdue/upcoming split and selection set;
- the history view: filter chain and newest-first sort;
- the two communication-method slices, the company slice, the
  authentication slice and the user slice.

Slices and the notification service are classes. Their fields are the
slice state, and their methods are the reducers with `modifies` frames. Each
reducer is tied to a pure function over the old state, and lemmas about those
functions state what the reducers promise. Pure code stays pure: the
recurrence expander, the selectors and the view pipelines are functions and
lemmas. Loops appear where the source loops:

- `scheduleEventReminders` iterates over the reminders;
- the methods slice renumbers sequences in a `forEach`;
- the history view runs its filter chain in sequence.

Clock readings (`new Date()`, `Date.now()`), generated ids and the browser's
permission answers are parameters. `localStorage` is a map field of the
authentication slice.

Dates are civil UTC records (`Dates.Date`) with the same day, month and year
rollover as `setDate`, `setMonth` and `setFullYear`. `EpochMs` gives their time
value, so `<`, `<=` and `>` compare moments as JavaScript compares `Date`
objects. Lower-casing is ASCII-only, and `includes` is substring search
(`Text.Matches`).

## Model

| member | source | states |
|---|---|---|
| Dates.NextDayNumber | src/store/slices/calendarSlice.js:349-351 | the day after a date has day number one higher, across month and year ends |
| Dates.AddDaysTime | src/store/slices/calendarSlice.js:349-354 | adding n days moves the time value forward by exactly n·86 400 000 ms |
| Dates.SetDateOffsetIsAddDays | src/store/slices/calendarSlice.js:349-354 | `setDate(getDate() + k)` is the date reached by stepping k calendar days forward |
| Dates.SetDateOffsetAddsDays | src/store/slices/calendarSlice.js:349-354 | `setDate(getDate() + k)` is the date k days later, and its time value is k days later |
| Dates.MakeDateNormalises | src/store/slices/calendarSlice.js:355-360 | a day that exists in the target month is kept; an overflowing day rolls into the following month |
| Dates.NextMonthDay | src/store/slices/calendarSlice.js:355-357 | `setMonth(+1)` keeps the day of the month when the next month has it and otherwise rolls over into the month after |
| Dates.NextYearDay | src/store/slices/calendarSlice.js:358-360 | `setFullYear(+1)` keeps month and day, except that 29 February becomes 1 March in a common year |
| Dates.JanuaryThirtyFirstRollsOver | src/store/slices/calendarSlice.js:355-357 | one month after 31 January is 2 March in a leap year and 3 March otherwise, never the end of February |
| Events.MergeIdempotent | src/store/slices/calendarSlice.js:214-218 | spreading the same patch twice equals spreading it once |
| Calendar.GenerateNextRecurringEvent | src/store/slices/calendarSlice.js:341-370 | a successor exists iff the pattern is daily/weekly/monthly/yearly and the next date is not after the end date; it is the base with fresh id, the next date, `isRecurring`, group = base id, 'pending', no `completedAt`, empty notes, and every other field equal |
| Calendar.SuccessorTiming | src/store/slices/calendarSlice.js:348-354 | a daily successor is exactly one day after its base, a weekly one seven days, and both are grouped under the base's id |
| Calendar.SuccessorWithinEndDate | src/store/slices/calendarSlice.js:344-367 | no successor lies after the end date, and a next date equal to the end date still yields one |
| Calendar.MonthlyEndOfJanuaryHasNoSuccessor | src/store/slices/calendarSlice.js:355-367 | monthly from 2024-01-31 with end date 2024-03-01 produces no successor |
| Calendar.SuccessorsShape | src/store/slices/calendarSlice.js:195-201 | `addEvent` appends at most one successor, only for the four real patterns, grouped under the new event and with its completion flag; with no end date there is always one |
| Calendar.UpdateEventEffect | src/store/slices/calendarSlice.js:209-243 | unknown id: no change. Otherwise the target gets the patch and a new `updatedAt`. With `updateRecurrences` and a group id, every group member gets the patch but keeps its date. All other events are unchanged and the length is kept |
| Calendar.GroupUpdateKeepsDates | src/store/slices/calendarSlice.js:221-233 | no event other than the target changes date in a group update |
| Calendar.GroupUpdateSpreadsPatchId | src/store/slices/calendarSlice.js:223-230 | a patch that carries an id gives that id to every member of the target's group |
| Calendar.DeleteOneEffect | src/store/slices/calendarSlice.js:256-259 | removes exactly the events with the id, keeps every other event as often as before, and keeps their order |
| Calendar.DeleteGroupEffect | src/store/slices/calendarSlice.js:249-255 | removes every event of the target's group and keeps all others, the origin (no group id) among them; does nothing for an unknown target or one without a group id |
| Calendar.AddThenDeleteRestores | src/store/slices/calendarSlice.js:186-261 | adding a non-recurring event with a new id and deleting it again restores the list |
| Calendar.MarkCompletedEffect | src/store/slices/calendarSlice.js:264-271 | the first event with the id becomes completed with the given stamp and keeps every other field; all others are unchanged; an unknown id changes nothing |
| Calendar.MarkCompletedTwice | src/store/slices/calendarSlice.js:264-271 | a second call overwrites the completion stamp: two calls equal the last one |
| Calendar.AddReminderEffect | src/store/slices/calendarSlice.js:274-287 | exactly one reminder is appended to the first matching event, creating the list if absent; a payload id overrides the generated one; nothing else changes |
| Calendar.RemoveReminderEffect | src/store/slices/calendarSlice.js:290-297 | the matching event's list becomes the in-order filter of the reminders with another id: every reminder with the id leaves, the others stay as often as they were, and nothing else of the event changes; no-op when the event or its list is missing |
| Calendar.SelectorsPartition | src/store/slices/calendarSlice.js:407-413 | open and completed events partition the list (as multisets), each selector keeps the list's order |
| Calendar.CalendarStore.constructor | src/store/slices/calendarSlice.js:48-179 | the store starts with the given events and no notification |
| Calendar.CalendarStore.AddEvent | src/store/slices/calendarSlice.js:186-206 | appends the stamped event (`completed = false`, `createdAt`) and its successor if any, and sets the success notice; a payload without a recurrence throws and leaves the state unchanged |
| Calendar.CalendarStore.UpdateEvent | src/store/slices/calendarSlice.js:209-243 | the new list is `UpdatedEvents`; the notice depends on `updateRecurrences` and is set only for a known id |
| Calendar.CalendarStore.DeleteEvent | src/store/slices/calendarSlice.js:246-261 | the new list is `DeletedEvents`; the group notice is set only when the target has a group id |
| Calendar.CalendarStore.MarkEventCompleted | src/store/slices/calendarSlice.js:264-271 | the new list is `MarkedCompleted` |
| Calendar.CalendarStore.AddReminder | src/store/slices/calendarSlice.js:274-287 | the new list is `WithReminderAdded`; the notice is set only when the event exists |
| Calendar.CalendarStore.RemoveReminder | src/store/slices/calendarSlice.js:290-297 | the new list is `WithReminderRemoved`; the notice is set only when the event and its list exist |
| Notifications.ArmedIsFilter | src/services/NotificationService.js:40-58 | the reminders that get scheduled are exactly those whose fire time is after `now`, in order |
| Notifications.EntriesOf | src/services/NotificationService.js:51-56 | one queue entry per reminder |
| Notifications.EntriesOfMembers | src/services/NotificationService.js:51-56 | each entry is the entry for some reminder, and every reminder's entry is present |
| Notifications.ScheduleStep | src/services/NotificationService.js:40-57 | scanning one more reminder appends its entry and its timer exactly when its fire time is still ahead |
| Notifications.TimersOf | src/services/NotificationService.js:47-49 | one timer per armed reminder |
| Notifications.ScheduledEntries | src/services/NotificationService.js:98-104 | every entry added for an event has its id `eventId-reminderId` and a fire time after `now`; every future reminder gets one |
| Notifications.ArmedStep | src/services/NotificationService.js:101-103 | one more loop step arms the next reminder exactly when its fire time is ahead |
| Notifications.EntriesSnoc | src/services/NotificationService.js:47-56 | scheduling one more reminder appends its entry and its timer |
| Notifications.RescheduleIdempotent | src/services/NotificationService.js:114-117 | rescheduling twice at the same moment leaves the same queue as once |
| Notifications.RescheduleReplacesEntries | src/services/NotificationService.js:114-117 | after rescheduling, the other events' entries are untouched and this event's entries are exactly the fresh ones |
| Notifications.WithoutEntry | src/services/NotificationService.js:87-95 | removes exactly the first entry matching both ids: the entries before it and the entries after it stay where they were, in order (one fewer, same multiset minus it); no-op when none matches |
| Notifications.NotificationService.constructor | src/services/NotificationService.js:13-18 | no permission, empty queue, no timers |
| Notifications.NotificationService.CheckPermission | src/services/NotificationService.js:20-32 | unsupported: unchanged; granted: true; not denied: the user's answer; denied: unchanged |
| Notifications.NotificationService.RequestPermission | src/services/NotificationService.js:34-38 | the flag and the result are whether the answer was 'granted' |
| Notifications.NotificationService.ShowNotification | src/services/NotificationService.js:60-85 | suppressed iff there is no permission; otherwise tagged `eventId-reminderId`, with sound iff the type is 'notification' or 'both' |
| Notifications.NotificationService.ScheduleNotification | src/services/NotificationService.js:40-58 | a future fire time appends one entry and one timer; a past one changes nothing |
| Notifications.NotificationService.CancelNotification | src/services/NotificationService.js:87-95 | the queue becomes `WithoutEntry`; timers are untouched |
| Notifications.NotificationService.ScheduleEventReminders | src/services/NotificationService.js:98-104 | without a reminder list nothing changes; otherwise one entry and one timer per future reminder are appended, in list order |
| Notifications.NotificationService.CancelEventReminders | src/services/NotificationService.js:107-111 | every entry of the event leaves the queue, the rest keep their order |
| Notifications.NotificationService.RescheduleEventReminders | src/services/NotificationService.js:114-117 | the queue becomes the others' entries followed by the fresh ones; with a reminder list the new timers come on top of the old, without one the timers are unchanged |
| Communications.ClassificationExact | src/store/communicationsSlice.js:46-54 | overdue holds exactly the past-and-not-today items, today exactly the due-today items, no item is in both, and together they are a sub-multiset of all |
| Communications.NullAndInvalidDueDates | src/store/communicationsSlice.js:46-50 | an item due `null` (the epoch) is overdue and not due today at any moment after 1970; an item whose due date does not parse is neither |
| Communications.ClassifyAppend | src/store/communicationsSlice.js:55-64 | appending one item extends overdue or today (or neither) by it and keeps both lists' order |
| Communications.CommunicationsSlice.constructor | src/store/communicationsSlice.js:38-44 | all lists empty, not loading, no error |
| Communications.CommunicationsSlice.SetCommunications | src/store/communicationsSlice.js:46-54 | stores the payload, and the derived lists are its classification |
| Communications.CommunicationsSlice.CommunicationAdded | src/store/communicationsSlice.js:55-64 | appends to the full list and to at most one derived list; a classified state stays classified |
| Communications.CommunicationsSlice.CommunicationUpdated | src/store/communicationsSlice.js:65-76 | replaces the first item with the id and reclassifies; an unknown id changes nothing |
| Communications.CommunicationsSlice.FetchPending | src/store/communicationsSlice.js:80-83 | loading, no error |
| Communications.CommunicationsSlice.FetchFulfilled | src/store/communicationsSlice.js:84-93 | not loading, and the payload is classified as by `setCommunications` |
| Communications.CommunicationsSlice.FetchRejected | src/store/communicationsSlice.js:94-97 | not loading; the error is the payload, or the fixed message when the payload is absent or empty |
| Tracker.RangeBounds | src/modules/communication/CommunicationTracker.js:42-56 | 'week' is date ≤ now + 7 days with no lower bound, 'month' is date ≤ now plus one month, 'today' is the same calendar day |
| Tracker.FilteredExact | src/modules/communication/CommunicationTracker.js:36-57 | an event is shown iff it is open, has company and method, matches both choices ('all' passes) and lies in the range |
| Tracker.SplitByTime | src/modules/communication/CommunicationTracker.js:59-65 | among open events, "before now" and "at or after now" split the list as multisets |
| Tracker.ListTimes | src/modules/communication/CommunicationTracker.js:59-65 | every overdue event lies before now and every upcoming one at or after it |
| Tracker.OverviewPartition | src/modules/communication/CommunicationTracker.js:59-65 | overdue and upcoming together are the filtered list; overdue lie before now, upcoming at or after; both are in ascending date order |
| Tracker.Toggle | src/modules/communication/CommunicationTracker.js:88-98 | the id's membership flips, every other id keeps its membership |
| Tracker.ToggleTwice | src/modules/communication/CommunicationTracker.js:88-98 | toggling twice restores the set |
| Tracker.MarkCompleted | src/modules/communication/CommunicationTracker.js:79-86 | the id leaves the selection; the first event with the id is completed and stamped and keeps its other fields, and every other event is unchanged |
| Tracker.MarkAllCompletes | src/modules/communication/CommunicationTracker.js:100-105 | marking several ids keeps the length and every field but `completed` and `completedAt`, never reopens an event, completes and stamps each id's event, and leaves every event no id refers to unchanged |
| Tracker.BulkComplete | src/modules/communication/CommunicationTracker.js:100-105 | the selection is empty; the list keeps its length and every field but `completed` and `completedAt`; every selected event is completed and stamped; every event no selected id refers to is unchanged |
| History.StagesAgree | src/modules/communication/CommunicationHistory.js:26-54 | each filter stage adds its own test, when its input is set, and the five stages together are the selection test |
| History.FilterHistory | src/modules/communication/CommunicationHistory.js:23-60 | each selected event appears as often as in the input and no other does; the result is a sub-multiset, ordered by completion time descending, and a permutation when no filter is set |
| CommunicationMethods.DefaultMethodsNumbered | src/store/slices/communicationMethodsSlice.js:14-20 | the five default methods are active and numbered 1 to 5 |
| CommunicationMethods.Renumbered | src/store/slices/communicationMethodsSlice.js:79-81 | every sequence becomes its 1-based position and nothing else changes |
| CommunicationMethods.Renumber | src/store/slices/communicationMethodsSlice.js:79-81 | the renumbering loop computes `Renumbered` |
| CommunicationMethods.SpliceStart | src/store/slices/communicationMethodsSlice.js:107 | the splice start is within the list, and equals the request when that is in range |
| CommunicationMethods.MovedPermutes | src/store/slices/communicationMethodsSlice.js:105-107 | the move is a permutation, and the moved method lands at the requested index when that is in range |
| CommunicationMethods.ResequencedEffect | src/store/slices/communicationMethodsSlice.js:97-115 | an unknown id changes nothing; otherwise the list is a renumbered permutation with the moved method at position `newSequence` when that exists |
| CommunicationMethods.DeleteMethodEffect | src/store/slices/communicationMethodsSlice.js:70-82 | no method with the id remains, every other one is kept in order, and the list is numbered |
| CommunicationMethods.Toggled | src/store/slices/communicationMethodsSlice.js:85-94 | the first method with the id flips `active` and keeps its other fields; every other method is unchanged |
| CommunicationMethods.ToggleTwice | src/store/slices/communicationMethodsSlice.js:85-94 | toggling twice restores the list |
| CommunicationMethods.UpdatedMethods | src/store/slices/communicationMethodsSlice.js:54-67 | the first match takes the patch and keeps its id, the rest are unchanged, an unknown id changes nothing |
| CommunicationMethods.AddKeepsNumbering | src/store/slices/communicationMethodsSlice.js:41-51 | the appended method is active and numbered with the new length, so a numbered list stays numbered |
| CommunicationMethods.FilteredMethods | src/store/slices/communicationMethodsSlice.js:200-216 | an empty term returns every method; otherwise exactly the methods whose name or description contains the term |
| CommunicationMethods.FilteredMethodsAppend | src/store/slices/communicationMethodsSlice.js:200-216 | the filter keeps the list's order |
| CommunicationMethods.MethodsSlice.constructor | src/store/slices/communicationMethodsSlice.js:13-27 | starts with the default methods and an empty search term |
| CommunicationMethods.MethodsSlice.InitializeMethods | src/store/slices/communicationMethodsSlice.js:34-38 | a missing list becomes the defaults, a present one is kept |
| CommunicationMethods.MethodsSlice.AddMethod | src/store/slices/communicationMethodsSlice.js:41-51 | a missing list becomes empty; then one active method numbered with the new length is appended |
| CommunicationMethods.MethodsSlice.UpdateMethod | src/store/slices/communicationMethodsSlice.js:54-67 | a missing list becomes empty; otherwise the list becomes `UpdatedMethods` |
| CommunicationMethods.MethodsSlice.DeleteMethod | src/store/slices/communicationMethodsSlice.js:70-82 | a missing list becomes empty; otherwise filter then renumber |
| CommunicationMethods.MethodsSlice.ToggleMethodStatus | src/store/slices/communicationMethodsSlice.js:85-94 | a missing list becomes empty; otherwise the list becomes `Toggled` |
| CommunicationMethods.MethodsSlice.UpdateSequence | src/store/slices/communicationMethodsSlice.js:97-115 | a missing list stays missing; otherwise the list becomes `Resequenced` |
| CommunicationMethods.MethodsSlice.SetSearchTerm | src/store/slices/communicationMethodsSlice.js:118-120 | a missing term becomes the empty one |
| CommunicationMethods.SelectMethods | src/store/slices/communicationMethodsSlice.js:179-184 | the stored list, or the defaults when the slice or list is missing |
| CommunicationMethods.SelectActiveMethods | src/store/slices/communicationMethodsSlice.js:186-189 | exactly the active methods; all defaults when the slice is missing |
| CommunicationMethod.DeleteRecordEffect | src/store/slices/communicationMethodSlice.js:74-77 | removes every record with the id and keeps the others as often as before, in order |
| CommunicationMethod.WithSequence | src/store/slices/communicationMethodSlice.js:80-86 | only the first match's `sequence` changes; the order is kept |
| CommunicationMethod.Flipped | src/store/slices/communicationMethodSlice.js:89-98 | `mandatory` becomes its negation, an absent one becoming true; nothing else changes |
| CommunicationMethod.FlippedTwice | src/store/slices/communicationMethodSlice.js:89-98 | flipping twice restores a set flag and turns an absent one into false |
| CommunicationMethod.FilteredRecords | src/store/slices/communicationMethodSlice.js:157-163 | throws iff some record has no name, or a non-matching name and no description; otherwise exactly the records whose name or description contains the term, in order |
| CommunicationMethod.EmptyTermShowsAll | src/store/slices/communicationMethodSlice.js:157-163 | with an empty term every record is kept when all have names |
| CommunicationMethod.EmptyTermMatches | src/store/slices/communicationMethodSlice.js:158-161 | every text contains the empty term |
| CommunicationMethod.MethodSlice.constructor | src/store/slices/communicationMethodSlice.js:14-52 | the five initial records, an empty term, no error, no notification |
| CommunicationMethod.MethodSlice.AddMethod | src/store/slices/communicationMethodSlice.js:59-62 | appends the payload unchanged and sets the success notice |
| CommunicationMethod.MethodSlice.UpdateMethod | src/store/slices/communicationMethodSlice.js:65-71 | replaces the first match whole and sets the notice; an unknown id changes neither the list nor the notice |
| CommunicationMethod.MethodSlice.DeleteMethod | src/store/slices/communicationMethodSlice.js:74-77 | the list becomes `WithoutRecord` and the notice is set |
| CommunicationMethod.MethodSlice.UpdateSequence | src/store/slices/communicationMethodSlice.js:80-86 | the list becomes `WithSequence` |
| CommunicationMethod.MethodSlice.ToggleMandatory | src/store/slices/communicationMethodSlice.js:89-98 | flips the first match and reports 'mandatory' or 'optional' by the new value; an unknown id changes nothing |
| CommunicationMethod.MethodSlice.SetSearchTerm | src/store/slices/communicationMethodSlice.js:111-113 | the term is stored |
| CommunicationMethod.MethodSlice.SetError | src/store/slices/communicationMethodSlice.js:126-129 | the error and an error notice carry the same message |
| Companies.NewCompany | src/store/slices/companySlice.js:84-89 | the payload's id overrides the generated one; both timestamps are `now` |
| Companies.MergeCompany | src/store/slices/companySlice.js:101-105 | the id is kept, patch keys win, other keys are kept, `updatedAt` is `now` |
| Companies.UpdateCompanyEffect | src/store/slices/companySlice.js:93-107 | only the first match changes; an unknown id changes nothing; repeating the patch only moves `updatedAt` |
| Companies.DeleteCompanyEffect | src/store/slices/companySlice.js:110-118 | removes every company with the id and keeps the others as often as before, in order |
| Companies.CompanySlice.constructor | src/store/slices/companySlice.js:13-66 | the five default companies stamped at load time, nothing selected |
| Companies.CompanySlice.InitializeCompanies | src/store/slices/companySlice.js:73-77 | a missing list becomes empty |
| Companies.CompanySlice.AddCompany | src/store/slices/companySlice.js:80-90 | a missing list becomes empty; exactly one company is appended |
| Companies.CompanySlice.UpdateCompany | src/store/slices/companySlice.js:93-107 | a missing list becomes empty; otherwise `UpdatedCompanies` |
| Companies.CompanySlice.DeleteCompany | src/store/slices/companySlice.js:110-118 | a missing list becomes empty; otherwise `WithoutCompany` |
| Companies.CompanySlice.SelectCompany | src/store/slices/companySlice.js:121-123 | the selection is the payload |
| Companies.CompanySlice.ClearSelectedCompany | src/store/slices/companySlice.js:126-128 | the selection is cleared |
| Companies.SelectCompanies | src/store/slices/companySlice.js:156-162 | the list, or empty when the slice or list is missing |
| Companies.SelectSelectedCompany | src/store/slices/companySlice.js:164 | the selection, or none when the slice is missing |
| Auth.AuthSlice.constructor | src/store/slices/authSlice.js:16-22 | the token is read from storage; signed out, not loading, no error; the session invariant holds |
| Auth.AuthSlice.LoginStart | src/store/slices/authSlice.js:28-31 | loading, no error, invariant kept |
| Auth.AuthSlice.LoginSuccess | src/store/slices/authSlice.js:32-39 | signed in with the payload's token and user, both written to storage; the error is kept |
| Auth.AuthSlice.LoginFailure | src/store/slices/authSlice.js:40-48 | the error is the payload; token, user and both storage keys are cleared |
| Auth.AuthSlice.Logout | src/store/slices/authSlice.js:49-55 | token, user and both storage keys are cleared; error and loading are untouched |
| Auth.AuthSlice.SignOut | src/store/slices/authSlice.js:43-47 | the sign-out steps shared by failure and logout |
| Auth.AuthSlice.ClearError | src/store/slices/authSlice.js:56-58 | only the error changes |
| Auth.SelectIsAuthenticated | src/store/slices/authSlice.js:72 | false when the slice is missing |
| Auth.SelectCurrentUser | src/store/slices/authSlice.js:73 | none when the slice is missing; a signed-in valid slice always has a user |
| Auth.SelectAuthLoading | src/store/slices/authSlice.js:74 | false when the slice is missing |
| Auth.SelectAuthError | src/store/slices/authSlice.js:75 | none when the slice is missing or the error is empty |
| Users.Spread | src/store/slices/userSlice.js:41-46 | the payload's keys take its values, all other keys keep theirs, no other key appears |
| Users.SpreadCompose | src/store/slices/userSlice.js:41-52 | two updates equal one with both payloads (the second winning); the same update twice equals once |
| Users.UserSlice.constructor | src/store/slices/userSlice.js:26-35 | default preferences, empty profile, not loading, no error |
| Users.UserSlice.UpdateUserPreferences | src/store/slices/userSlice.js:41-46 | the preferences become `Spread(old, payload)` |
| Users.UserSlice.SetUserProfile | src/store/slices/userSlice.js:47-52 | the profile becomes `Spread(old, payload)` |
| Users.UserSlice.SetLoading | src/store/slices/userSlice.js:53-55 | only the loading flag changes |
| Users.UserSlice.SetError | src/store/slices/userSlice.js:56-58 | only the error changes |
| Users.UserSlice.ResetError | src/store/slices/userSlice.js:59-61 | the error is cleared |

## Where the code and its documentation disagree

The model follows the code in each of these cases.

- Monthly recurrence rolls over instead of clamping. `setMonth(+1)` on
  2024-01-31 gives 2024-03-02, so with end date 2024-03-01 there is no
  successor (`Calendar.MonthlyEndOfJanuaryHasNoSuccessor`). The design
  describes a clamped 2024-02-29.
- `markEventCompleted` is not idempotent. A repeat call overwrites
  `completedAt` (`Calendar.MarkCompletedTwice`).
- Reducers do not report missing ids. They leave the state unchanged and do
  not raise a not-found error.
- A successor copies the base's `completed` flag rather than resetting it.
  Through `addEvent` the base is never completed, so this does not show.
- Cancelling a queue entry does not disarm its timer. Rescheduling
  therefore arms a second timer for each future reminder.
- The group update spreads the patch's `id` into every sibling
  (`Calendar.GroupUpdateSpreadsPatchId`).
- A group delete aimed at the origin event, which has no group id, deletes
  nothing.

## Left out

- Time zones. Dates are UTC; the browser compares and formats in local time, so "today" (`toDateString`, `isToday`) is the UTC day here.
- Date strings. ISO parsing and printing are not modelled; dates are records. An unparsable communication due date is `None`.
- JavaScript's `null`, `undefined` and missing keys are one `None`, except for a communication's due date: there `null` means the epoch and must be passed as `Some(Communications.NullDueDate)`; the model does not make that conversion itself.
- Unicode case folding. Lower-casing is ASCII-only.
- Timer execution. Timers are recorded (`Notifications.Timer`), but their callbacks never run and nothing is ever removed on firing.
- Notification rendering. The `Audio` sound, the `Notification` body (`companyName`, `methodName`), the click handler and `console` output are left out.
- `checkPermission` runs asynchronously from the constructor. Here it is a separate call taking the browser's state and answer.
- Notifications.NotificationService.ScheduleEventReminders: `Date.now()` is read once per reminder in the source but once per call here.
- Calendar.CalendarStore.UpdateEvent: the source reads `new Date()` once for the target and again for every group member, so the target's `updatedAt` ends up as the later reading; here one `stamp` is used for all of them.
- Companies.CompanySlice.constructor: the seed companies read `new Date()` twice each when the module loads; here one `loadTime` stamps all of them.
- Tracker.BulkComplete: each `markEventCompleted` dispatch reads the clock anew, so the source's completion stamps may differ per event; here every event gets the same `stamp` (also true of Tracker.MarkAll).
- The tracker fixes `now` at 2024-12-29T15:49:35+05:30 (`Tracker.TrackerNow`).
- Only the calendar set is modelled for the tracker's bulk completion. Its iteration order is a parameter, and React's batching of dispatches is not modelled.
- History.FilterHistory: the comparator `new Date(b.completedAt) - new Date(a.completedAt)` is NaN for a missing `completedAt`; here a missing one counts as time 0, and JavaScript's sort is taken to be stable.
- The `fetchCommunications` network request is not modelled, nor is its mock fallback data; only the pending, fulfilled and rejected cases are.
- Auth.AuthSlice.LoginSuccess: `JSON.stringify(user)` is a parameter (`userText`), not computed.
- CommunicationMethod.MethodSlice.SetError: the payload is a string; a `null` error payload is not modelled.
- Reducers that only set a UI field are not modelled:
  - calendar: filters, notification, upcoming reminders, loading and error;
  - methods: selected method, editing method, notification, loading and error;
  - company: loading and error;
  - communication-method: editing method, clear notification and loading.
- UI components, routing, drag-and-drop, CSV export, the analytics page, the e-mail and auth services, the server, middlewares, mocks and store wiring are outside this model.
