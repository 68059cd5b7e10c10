/** The older communication-method slice: a list of method records kept as
    the caller supplies them, a search term, an error and the last
    notification. Unlike the newer slice it merges nothing and renumbers
    nothing: records are appended, replaced and edited field by field. */
module CommunicationMethod {
  import opened Common
  import opened Seqs
  import opened Text

  /** A method record. The keys the reducers and the selector read are
      fields; every other key (icon, colour, ...) is carried in `rest`. */
  datatype MethodRecord = MethodRecord(
    id: string,
    name: Option<string>,
    description: Option<string>,
    sequence: Option<int>,
    mandatory: Option<bool>,
    rest: map<string, string>)

  const InitialMethods: seq<MethodRecord> := [
    MethodRecord("email", Some("Email"), None, None, None, map["icon" := "far fa-envelope", "color" := "#3B82F6"]),
    MethodRecord("phone", Some("Phone"), None, None, None, map["icon" := "fas fa-phone", "color" := "#10B981"]),
    MethodRecord("meeting", Some("Meeting"), None, None, None, map["icon" := "fas fa-users", "color" := "#F59E0B"]),
    MethodRecord("video", Some("Video Call"), None, None, None, map["icon" := "fas fa-video", "color" := "#EF4444"]),
    MethodRecord("chat", Some("Chat"), None, None, None, map["icon" := "far fa-comment-dots", "color" := "#6366F1"])
  ]

  const AddedMessage: string := "Method added successfully"
  const UpdatedMessage: string := "Method updated successfully"
  const DeletedMessage: string := "Method deleted successfully"
  const MandatoryMessage: string := "Method set to mandatory"
  const OptionalMessage: string := "Method set to optional"

  /** Calling `toLowerCase` on a missing name or description. */
  const MissingText: string := "TypeError: cannot read toLowerCase of undefined"

  function IndexOfRecord(ms: seq<MethodRecord>, id: string): Option<nat>
  {
    FindIndex(ms, (m: MethodRecord) => m.id == id)
  }

  function WithoutRecord(ms: seq<MethodRecord>, id: string): seq<MethodRecord>
  {
    Filter(ms, (m: MethodRecord) => m.id != id)
  }

  /** `deleteMethod(id)` removes every record with the id and keeps the
      others as often as, and in the order, they were. */
  lemma DeleteRecordEffect(ms: seq<MethodRecord>, more: seq<MethodRecord>, id: string)
    ensures forall m :: m in WithoutRecord(ms, id) <==> m in ms && m.id != id
    ensures forall m: MethodRecord :: m.id != id ==> multiset(WithoutRecord(ms, id))[m] == multiset(ms)[m]
    ensures WithoutRecord(ms + more, id) == WithoutRecord(ms, id) + WithoutRecord(more, id)
  {
    FilterCount(ms, (m: MethodRecord) => m.id != id);
    FilterAppend(ms, more, (m: MethodRecord) => m.id != id);
  }

  /** The list after `updateSequence({ id, sequence })`. */
  function WithSequence(ms: seq<MethodRecord>, id: string, sequence: int): (r: seq<MethodRecord>)
    ensures |r| == |ms|
    ensures forall j :: 0 <= j < |ms| ==> r[j].(sequence := ms[j].sequence) == ms[j]
    ensures forall i :: IndexOfRecord(ms, id) == Some(i) ==> r[i].sequence == Some(sequence)
    ensures forall j :: 0 <= j < |ms| && IndexOfRecord(ms, id) != Some(j) ==> r[j] == ms[j]
  {
    match IndexOfRecord(ms, id)
    case None => ms
    case Some(i) => ms[i := ms[i].(sequence := Some(sequence))]
  }

  /** `!mandatory`, a missing flag reading as false. */
  function Flipped(m: MethodRecord): (r: MethodRecord)
    ensures r.mandatory == Some(m.mandatory != Some(true))
    ensures r.(mandatory := m.mandatory) == m
  {
    m.(mandatory := Some(!m.mandatory.GetOr(false)))
  }

  /** Flipping twice restores a set flag and turns a missing one into false. */
  lemma FlippedTwice(m: MethodRecord)
    ensures Flipped(Flipped(m)) == m.(mandatory := Some(m.mandatory.GetOr(false)))
    ensures m.mandatory.Some? ==> Flipped(Flipped(m)) == m
  {
  }

  /** A record the selector's test throws on: the name is missing, or it
      does not match and the description is missing. */
  predicate ThrowsOn(m: MethodRecord, term: string)
  {
    m.name.None? || (!Matches(m.name.value, term) && m.description.None?)
  }

  /** A record the selector keeps. */
  predicate Keeps(m: MethodRecord, term: string)
  {
    m.name.Some? && (Matches(m.name.value, term) || (m.description.Some? && Matches(m.description.value, term)))
  }

  function KeepsFor(term: string): MethodRecord -> bool
  {
    (m: MethodRecord) => Keeps(m, term)
  }

  /** `selectFilteredMethods`: `filter` runs the test on each record in
      order and stops at the first one it throws on. The result throws
      exactly when some record makes the test throw, and otherwise is the
      records whose name or description contains the term, in order. */
  function FilteredRecords(ms: seq<MethodRecord>, term: string): (r: Result<seq<MethodRecord>>)
    ensures r.Thrown? <==> exists i :: 0 <= i < |ms| && ThrowsOn(ms[i], term)
    ensures r.Ok? ==> r.value == Filter(ms, KeepsFor(term))
    ensures r.Thrown? ==> r.reason == MissingText
  {
    if ms == [] then Ok([])
    else if ThrowsOn(ms[0], term) then Thrown(MissingText)
    else
      var tail := FilteredRecords(ms[1..], term);
      assert forall i :: 1 <= i < |ms| ==> ms[i] == ms[1..][i - 1];
      if tail.Thrown? then tail
      else Ok((if Keeps(ms[0], term) then [ms[0]] else []) + tail.value)
  }

  /** With an empty term the selector keeps every record, provided every
      record has a name: the initial records, for instance. */
  lemma EmptyTermShowsAll(ms: seq<MethodRecord>)
    requires forall i :: 0 <= i < |ms| ==> ms[i].name.Some?
    ensures FilteredRecords(ms, "") == Ok(ms)
  {
    var keep := KeepsFor("");
    forall i | 0 <= i < |ms|
      ensures keep(ms[i]) && !ThrowsOn(ms[i], "")
    {
      EmptyTermMatches(ms[i].name.value);
    }
    FilterAll(ms, keep);
  }

  lemma EmptyTermMatches(text: string)
    ensures Matches(text, "")
  {
    assert Lower("") == "";
    assert Contains(Lower(text), "");
  }

  class MethodSlice {
    var methods: seq<MethodRecord>
    var searchTerm: string
    var error: Option<string>
    var notification: Option<Notice>

    constructor()
      ensures methods == InitialMethods && searchTerm == "" && error.None? && notification.None?
    {
      methods := InitialMethods;
      searchTerm := "";
      error := None;
      notification := None;
    }

    /** `addMethod(payload)`: the payload is appended as given. */
    method AddMethod(payload: MethodRecord)
      modifies this`methods, this`notification
      ensures methods == old(methods) + [payload]
      ensures notification == Some(Notice(Success, AddedMessage))
    {
      methods := methods + [payload];
      notification := Some(Notice(Success, AddedMessage));
    }

    /** `updateMethod(payload)`: the first record with the payload's id is
        replaced whole; an unknown id changes neither the list nor the
        notification. */
    method UpdateMethod(payload: MethodRecord)
      modifies this`methods, this`notification
      ensures match IndexOfRecord(old(methods), payload.id)
              case None => methods == old(methods) && notification == old(notification)
              case Some(i) => methods == old(methods)[i := payload]
                              && notification == Some(Notice(Success, UpdatedMessage))
    {
      var index := IndexOfRecord(methods, payload.id);
      if index.Some? {
        methods := methods[index.value := payload];
        notification := Some(Notice(Success, UpdatedMessage));
      }
    }

    /** `deleteMethod(id)`. */
    method DeleteMethod(id: string)
      modifies this`methods, this`notification
      ensures methods == WithoutRecord(old(methods), id)
      ensures notification == Some(Notice(Success, DeletedMessage))
    {
      methods := Filter(methods, (m: MethodRecord) => m.id != id);
      notification := Some(Notice(Success, DeletedMessage));
    }

    /** `updateSequence({ id, sequence })`: sets the field in place; the
        list keeps its order. */
    method UpdateSequence(id: string, sequence: int)
      modifies this`methods
      ensures methods == WithSequence(old(methods), id, sequence)
    {
      var index := IndexOfRecord(methods, id);
      if index.Some? {
        methods := methods[index.value := methods[index.value].(sequence := Some(sequence))];
      }
    }

    /** `toggleMandatory(id)`: flips the flag of the first record with the id
        and reports its new value; an unknown id changes nothing. */
    method ToggleMandatory(id: string)
      modifies this`methods, this`notification
      ensures match IndexOfRecord(old(methods), id)
              case None => methods == old(methods) && notification == old(notification)
              case Some(i) =>
                && methods == old(methods)[i := Flipped(old(methods)[i])]
                && notification == Some(Notice(Success,
                     if methods[i].mandatory == Some(true) then MandatoryMessage else OptionalMessage))
    {
      var index := IndexOfRecord(methods, id);
      if index.Some? {
        var flipped := Flipped(methods[index.value]);
        methods := methods[index.value := flipped];
        notification := Some(Notice(Success,
          if flipped.mandatory == Some(true) then MandatoryMessage else OptionalMessage));
      }
    }

    /** `setSearchTerm(term)`. */
    method SetSearchTerm(term: string)
      modifies this`searchTerm
      ensures searchTerm == term
    {
      searchTerm := term;
    }

    /** `setError(message)`: the error and an error notification carry the
        same message. */
    method SetError(message: string)
      modifies this`error, this`notification
      ensures error == Some(message)
      ensures notification == Some(Notice(Error, message))
    {
      error := Some(message);
      notification := Some(Notice(Error, message));
    }

    /** `selectFilteredMethods` on this slice. */
    function SelectFilteredMethods(): Result<seq<MethodRecord>>
      reads this
    {
      FilteredRecords(methods, searchTerm)
    }
  }
}
