/** The communications slice: every communication, and the overdue and
    due-today lists derived from it. `isPast` and `isToday` read the clock;
    here each reducer takes the moment `now` it runs at. */
module Communications {
  import opened Common
  import opened Dates
  import opened Seqs

  /** A communication as the slice sees it: its id and its due date. A due
      date that does not parse (`new Date(undefined)` is an invalid date) is
      `None`; such an item is neither past nor today. A `null` due date is
      different: `new Date(null)` is the epoch, so it is given here as
      `Some(NullDueDate)` and such an item is overdue. The remaining fields
      are carried along untouched. */
  datatype Communication = Communication(id: string, dueDate: Option<Date>, details: map<string, string>)

  /** `new Date(null)`: 1970-01-01T00:00:00Z. */
  const NullDueDate: Date := DateTime(1970, 1, 1, 0)

  /** `isPast(due) && !isToday(due)`. */
  predicate IsOverdue(c: Communication, now: Date)
  {
    c.dueDate.Some? && EpochMs(c.dueDate.value) < EpochMs(now) && !SameDay(c.dueDate.value, now)
  }

  /** `isToday(due)`. */
  predicate IsDueToday(c: Communication, now: Date)
  {
    c.dueDate.Some? && SameDay(c.dueDate.value, now)
  }

  function OverdueAt(now: Date): Communication -> bool
  {
    (c: Communication) => IsOverdue(c, now)
  }

  function DueTodayAt(now: Date): Communication -> bool
  {
    (c: Communication) => IsDueToday(c, now)
  }

  function Overdue(cs: seq<Communication>, now: Date): seq<Communication>
  {
    Filter(cs, OverdueAt(now))
  }

  function DueToday(cs: seq<Communication>, now: Date): seq<Communication>
  {
    Filter(cs, DueTodayAt(now))
  }

  /** The two derived lists hold exactly the overdue and the due-today items
      of the full list, as often as it does; no item is in both. */
  lemma ClassificationExact(cs: seq<Communication>, now: Date)
    ensures forall c :: c in Overdue(cs, now) <==> c in cs && IsOverdue(c, now)
    ensures forall c :: c in DueToday(cs, now) <==> c in cs && IsDueToday(c, now)
    ensures forall c :: !(c in Overdue(cs, now) && c in DueToday(cs, now))
    ensures multiset(Overdue(cs, now)) + multiset(DueToday(cs, now)) <= multiset(cs)
  {
    FilterCount(cs, OverdueAt(now));
    FilterCount(cs, DueTodayAt(now));
    forall c | true
      ensures (multiset(Overdue(cs, now)) + multiset(DueToday(cs, now)))[c] <= multiset(cs)[c]
    {
    }
  }

  /** Appending one item extends the overdue list or the due-today list (or
      neither) by that item and leaves the rest of both in their order. */
  lemma ClassifyAppend(cs: seq<Communication>, c: Communication, now: Date)
    ensures Overdue(cs + [c], now) == Overdue(cs, now) + if IsOverdue(c, now) then [c] else []
    ensures DueToday(cs + [c], now) == DueToday(cs, now) + if IsDueToday(c, now) then [c] else []
  {
    FilterSnoc(cs, c, OverdueAt(now));
    FilterSnoc(cs, c, DueTodayAt(now));
  }

  /** A communication due `null` is overdue at any moment after 1970, and one
      whose due date does not parse is neither overdue nor due today. */
  lemma NullAndInvalidDueDates(c: Communication, now: Date)
    ensures c.dueDate == Some(NullDueDate) && now.year > 1970 ==> IsOverdue(c, now) && !IsDueToday(c, now)
    ensures c.dueDate.None? ==> !IsOverdue(c, now) && !IsDueToday(c, now)
  {
    if c.dueDate == Some(NullDueDate) && now.year > 1970 {
      AfterEpochYear(now);
      assert EpochMs(NullDueDate) == 0;
    }
  }

  function IndexOfComm(cs: seq<Communication>, id: string): Option<nat>
  {
    FindIndex(cs, (c: Communication) => c.id == id)
  }

  const FetchFailed: string := "Failed to fetch communications"

  class CommunicationsSlice {
    var allCommunications: seq<Communication>
    var overdueCommunications: seq<Communication>
    var todayCommunications: seq<Communication>
    var loading: bool
    var error: Option<string>

    /** The derived lists are the classification of the full list at `now`. */
    predicate Classified(now: Date)
      reads this
    {
      overdueCommunications == Overdue(allCommunications, now)
      && todayCommunications == DueToday(allCommunications, now)
    }

    constructor()
      ensures allCommunications == [] && overdueCommunications == [] && todayCommunications == []
      ensures !loading && error.None?
    {
      allCommunications := [];
      overdueCommunications := [];
      todayCommunications := [];
      loading := false;
      error := None;
    }

    /** `setCommunications(payload)`. */
    method SetCommunications(payload: seq<Communication>, now: Date)
      modifies this`allCommunications, this`overdueCommunications, this`todayCommunications
      ensures allCommunications == payload && Classified(now)
    {
      allCommunications := payload;
      overdueCommunications := Filter(payload, OverdueAt(now));
      todayCommunications := Filter(payload, DueTodayAt(now));
    }

    /** `communicationAdded(comm)`: appended to the full list and to at most
        one of the derived lists. */
    method CommunicationAdded(comm: Communication, now: Date)
      modifies this`allCommunications, this`overdueCommunications, this`todayCommunications
      ensures allCommunications == old(allCommunications) + [comm]
      ensures overdueCommunications == old(overdueCommunications) + if IsOverdue(comm, now) then [comm] else []
      ensures todayCommunications == old(todayCommunications) + if IsDueToday(comm, now) then [comm] else []
      ensures old(Classified(now)) ==> Classified(now)
    {
      var overdue, today := overdueCommunications, todayCommunications;
      if IsOverdue(comm, now) {
        overdue := overdue + [comm];
      } else if IsDueToday(comm, now) {
        today := today + [comm];
      }
      ClassifyAppend(allCommunications, comm, now);
      allCommunications, overdueCommunications, todayCommunications := allCommunications + [comm], overdue, today;
    }

    /** `communicationUpdated(comm)`: the first item with the same id is
        replaced and both derived lists are recomputed; an unknown id changes
        nothing. */
    method CommunicationUpdated(comm: Communication, now: Date)
      modifies this`allCommunications, this`overdueCommunications, this`todayCommunications
      ensures var i := IndexOfComm(old(allCommunications), comm.id);
              && (i.None? ==> allCommunications == old(allCommunications)
                              && overdueCommunications == old(overdueCommunications)
                              && todayCommunications == old(todayCommunications))
              && (i.Some? ==> allCommunications == old(allCommunications)[i.value := comm] && Classified(now))
    {
      var index := IndexOfComm(allCommunications, comm.id);
      if index.Some? {
        allCommunications := allCommunications[index.value := comm];
        overdueCommunications := Filter(allCommunications, OverdueAt(now));
        todayCommunications := Filter(allCommunications, DueTodayAt(now));
      }
    }

    /** The `pending` case of the fetch. */
    method FetchPending()
      modifies this`loading, this`error
      ensures loading && error.None?
    {
      loading := true;
      error := None;
    }

    /** The `fulfilled` case: classifies the payload as `setCommunications` does. */
    method FetchFulfilled(payload: seq<Communication>, now: Date)
      modifies this
      ensures !loading && error == old(error)
      ensures allCommunications == payload && Classified(now)
    {
      loading := false;
      SetCommunications(payload, now);
    }

    /** The `rejected` case: the rejection value, or the fixed message when
        there is none. */
    method FetchRejected(payload: Option<string>)
      modifies this`loading, this`error
      ensures !loading
      ensures error == if Truthy(payload) then payload else Some(FetchFailed)
    {
      loading := false;
      error := if Truthy(payload) then payload else Some(FetchFailed);
    }
  }
}
