/** The communication history view: the completed events narrowed by a
    search term, a company, a method and an inclusive date window, newest
    completion first. */
module History {
  import opened Common
  import opened Dates
  import opened Seqs
  import opened Text
  import opened Events

  /** The view's filter inputs. The company and method choices are ids or
      "all"; an empty search term and an unset date bound filter nothing. */
  datatype HistoryFilter = HistoryFilter(
    searchTerm: string,
    company: string,
    commMethod: string,
    startDate: Option<Date>,
    endDate: Option<Date>)

  const All: string := "all"

  predicate MatchesSearch(term: string, e: Event)
  {
    Matches(e.title, term) || Matches(e.notes, term)
  }

  /** Whether an event survives every active filter. */
  predicate Selected(f: HistoryFilter, e: Event)
  {
    && (f.searchTerm != "" ==> MatchesSearch(f.searchTerm, e))
    && (f.company != All ==> e.companyId == Some(f.company))
    && (f.commMethod != All ==> e.methodId == Some(f.commMethod))
    && (f.startDate.Some? ==> EpochMs(e.date) >= EpochMs(f.startDate.value))
    && (f.endDate.Some? ==> EpochMs(e.date) <= EpochMs(f.endDate.value))
  }

  predicate NoFilters(f: HistoryFilter)
  {
    f.searchTerm == "" && f.company == All && f.commMethod == All && f.startDate.None? && f.endDate.None?
  }

  /** The completion time used for ordering; a null `completedAt` reads as
      time value 0. */
  function CompletedMs(e: Event): int
  {
    if e.completedAt.Some? then EpochMs(e.completedAt.value) else 0
  }

  /** Sorting ascending by this key puts the newest completion first. */
  function NewestFirst(): Event -> int
  {
    (e: Event) => -CompletedMs(e)
  }

  /** The first `k` filter stages, in the order the view applies them. */
  predicate Passes(f: HistoryFilter, k: nat, e: Event)
  {
    && (k >= 1 && f.searchTerm != "" ==> MatchesSearch(f.searchTerm, e))
    && (k >= 2 && f.company != All ==> e.companyId == Some(f.company))
    && (k >= 3 && f.commMethod != All ==> e.methodId == Some(f.commMethod))
    && (k >= 4 && f.startDate.Some? ==> EpochMs(e.date) >= EpochMs(f.startDate.value))
    && (k >= 5 && f.endDate.Some? ==> EpochMs(e.date) <= EpochMs(f.endDate.value))
  }

  function PassesAt(f: HistoryFilter, k: nat): Event -> bool
  {
    (e: Event) => Passes(f, k, e)
  }

  function BySearch(f: HistoryFilter): Event -> bool
  {
    (e: Event) => MatchesSearch(f.searchTerm, e)
  }

  function ByCompany(f: HistoryFilter): Event -> bool
  {
    (e: Event) => e.companyId == Some(f.company)
  }

  function ByMethod(f: HistoryFilter): Event -> bool
  {
    (e: Event) => e.methodId == Some(f.commMethod)
  }

  function FromStart(f: HistoryFilter): Event -> bool
  {
    (e: Event) => f.startDate.None? || EpochMs(e.date) >= EpochMs(f.startDate.value)
  }

  function UntilEnd(f: HistoryFilter): Event -> bool
  {
    (e: Event) => f.endDate.None? || EpochMs(e.date) <= EpochMs(f.endDate.value)
  }

  /** Each stage adds its own test, when its input is set, to the ones before. */
  lemma StagesAgree(f: HistoryFilter)
    ensures forall e :: PassesAt(f, 1)(e) == (PassesAt(f, 0)(e) && (f.searchTerm != "" ==> BySearch(f)(e)))
    ensures forall e :: PassesAt(f, 2)(e) == (PassesAt(f, 1)(e) && (f.company != All ==> ByCompany(f)(e)))
    ensures forall e :: PassesAt(f, 3)(e) == (PassesAt(f, 2)(e) && (f.commMethod != All ==> ByMethod(f)(e)))
    ensures forall e :: PassesAt(f, 4)(e) == (PassesAt(f, 3)(e) && (f.startDate.Some? ==> FromStart(f)(e)))
    ensures forall e :: PassesAt(f, 5)(e) == (PassesAt(f, 4)(e) && (f.endDate.Some? ==> UntilEnd(f)(e)))
    ensures forall e :: PassesAt(f, 5)(e) == Selected(f, e)
  {
  }

  /** The effect of the view's filter-and-sort pass over `completedEvents`:
      each stage filters only when its input is set. */
  method FilterHistory(completedEvents: seq<Event>, f: HistoryFilter) returns (filtered: seq<Event>)
    ensures forall e :: multiset(filtered)[e] == if Selected(f, e) then multiset(completedEvents)[e] else 0
    ensures multiset(filtered) <= multiset(completedEvents)
    ensures forall i, j :: 0 <= i < j < |filtered| ==> CompletedMs(filtered[i]) >= CompletedMs(filtered[j])
    ensures NoFilters(f) ==> multiset(filtered) == multiset(completedEvents)
  {
    StagesAgree(f);
    filtered := completedEvents;
    assert Narrowed(filtered, completedEvents, PassesAt(f, 0));

    NarrowIf(filtered, completedEvents, f.searchTerm != "", BySearch(f), PassesAt(f, 0), PassesAt(f, 1));
    filtered := if f.searchTerm != "" then Filter(filtered, BySearch(f)) else filtered;

    NarrowIf(filtered, completedEvents, f.company != All, ByCompany(f), PassesAt(f, 1), PassesAt(f, 2));
    filtered := if f.company != All then Filter(filtered, ByCompany(f)) else filtered;

    NarrowIf(filtered, completedEvents, f.commMethod != All, ByMethod(f), PassesAt(f, 2), PassesAt(f, 3));
    filtered := if f.commMethod != All then Filter(filtered, ByMethod(f)) else filtered;

    NarrowIf(filtered, completedEvents, f.startDate.Some?, FromStart(f), PassesAt(f, 3), PassesAt(f, 4));
    filtered := if f.startDate.Some? then Filter(filtered, FromStart(f)) else filtered;

    NarrowIf(filtered, completedEvents, f.endDate.Some?, UntilEnd(f), PassesAt(f, 4), PassesAt(f, 5));
    filtered := if f.endDate.Some? then Filter(filtered, UntilEnd(f)) else filtered;

    NarrowedBounds(filtered, completedEvents, PassesAt(f, 5));
    filtered := SortBy(filtered, NewestFirst());
  }
}
