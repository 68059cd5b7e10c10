/** The communication-methods slice: an ordered list of contact methods
    (email, phone, ...), each with a 1-based `sequence` that the reorder and
    delete reducers renumber, an `active` flag and a search term. The list
    itself may be missing (`null`), which several reducers repair. */
module CommunicationMethods {
  import opened Common
  import opened Seqs
  import opened Text

  datatype Method = Method(
    id: string,
    name: Option<string>,
    icon: Option<string>,
    active: bool,
    sequence: int,
    description: Option<string>)

  /** The keys an `addMethod` payload may carry. */
  datatype MethodDraft = MethodDraft(id: Option<string>, name: Option<string>, icon: Option<string>, description: Option<string>)

  /** The keys an `updateMethod` payload may carry besides `id`. */
  datatype MethodPatch = MethodPatch(
    name: Option<string>,
    icon: Option<string>,
    active: Option<bool>,
    sequence: Option<int>,
    description: Option<string>)

  /** The five methods the slice starts with. */
  const DefaultMethods: seq<Method> := [
    Method("1", Some("Email"), Some("mail"), true, 1, Some("Email communication")),
    Method("2", Some("Phone"), Some("phone"), true, 2, Some("Phone calls")),
    Method("3", Some("Meeting"), Some("calendar"), true, 3, Some("In-person meetings")),
    Method("4", Some("Video Call"), Some("video"), true, 4, Some("Video conferences")),
    Method("5", Some("Chat"), Some("message"), true, 5, Some("Instant messaging"))
  ]

  /** Every method's `sequence` is its 1-based position. */
  predicate Numbered(ms: seq<Method>)
  {
    forall i :: 0 <= i < |ms| ==> ms[i].sequence == i + 1
  }

  lemma DefaultMethodsNumbered()
    ensures Numbered(DefaultMethods)
    ensures forall i :: 0 <= i < |DefaultMethods| ==> DefaultMethods[i].active
    ensures |DefaultMethods| == 5
  {
  }

  /** The list with every `sequence` set to its position, nothing else changed. */
  function Renumbered(ms: seq<Method>): (r: seq<Method>)
    ensures |r| == |ms| && Numbered(r)
    ensures forall i :: 0 <= i < |ms| ==> r[i].(sequence := ms[i].sequence) == ms[i]
  {
    seq(|ms|, i requires 0 <= i < |ms| => ms[i].(sequence := i + 1))
  }

  lemma RenumberedAt(ms: seq<Method>, i: nat)
    requires i < |ms|
    ensures Renumbered(ms)[i] == ms[i].(sequence := i + 1)
  {
  }

  /** The renumbering loop both reorder reducers end with. */
  method Renumber(ms: seq<Method>) returns (r: seq<Method>)
    ensures r == Renumbered(ms)
  {
    r := ms;
    var index := 0;
    while index < |r|
      invariant 0 <= index <= |r| == |ms|
      invariant forall j :: 0 <= j < index ==> r[j] == ms[j].(sequence := j + 1)
      invariant forall j :: index <= j < |r| ==> r[j] == ms[j]
    {
      r := r[index := r[index].(sequence := index + 1)];
      index := index + 1;
    }
  }

  function IndexOfMethod(ms: seq<Method>, id: string): Option<nat>
  {
    FindIndex(ms, (m: Method) => m.id == id)
  }

  /** Where `Array.prototype.splice` starts for a requested start `start` on
      a list of length `len`: counted from the end when negative, clamped to
      the list. */
  function SpliceStart(start: int, len: nat): (k: nat)
    ensures k <= len
    ensures 0 <= start <= len ==> k == start
  {
    if start < 0 then (if len + start < 0 then 0 else len + start)
    else if start > len then len
    else start
  }

  /** The list after `splice(i, 1)` and then `splice(start, 0, ms[i])`. */
  function Moved(ms: seq<Method>, i: nat, start: int): seq<Method>
    requires i < |ms|
  {
    var rest := ms[..i] + ms[i + 1..];
    var k := SpliceStart(start, |rest|);
    rest[..k] + [ms[i]] + rest[k..]
  }

  /** Moving is a permutation, and the moved method lands where the splice
      put it: at the requested index when that index is in range. */
  lemma MovedPermutes(ms: seq<Method>, i: nat, start: int)
    requires i < |ms|
    ensures |Moved(ms, i, start)| == |ms|
    ensures multiset(Moved(ms, i, start)) == multiset(ms)
    ensures Moved(ms, i, start)[SpliceStart(start, |ms| - 1)] == ms[i]
    ensures 0 <= start < |ms| ==> Moved(ms, i, start)[start] == ms[i]
  {
    var rest := ms[..i] + ms[i + 1..];
    var k := SpliceStart(start, |rest|);
    assert ms == ms[..i] + [ms[i]] + ms[i + 1..];
    assert rest == rest[..k] + rest[k..];
    calc {
      multiset(Moved(ms, i, start));
      multiset(rest[..k]) + multiset{ms[i]} + multiset(rest[k..]);
      multiset(rest) + multiset{ms[i]};
      multiset(ms);
    }
  }

  /** The order of the methods after `updateSequence({ id, newSequence })`,
      and the new list. */
  function Resequenced(ms: seq<Method>, id: string, newSequence: int): seq<Method>
  {
    match IndexOfMethod(ms, id)
    case None => ms
    case Some(i) => Renumbered(Moved(ms, i, newSequence - 1))
  }

  /** `updateSequence` reorders and renumbers: the same methods up to their
      sequence numbers, numbered by position, the moved one at position
      `newSequence` when that exists; an unknown id changes nothing. */
  lemma ResequencedEffect(ms: seq<Method>, id: string, newSequence: int)
    ensures IndexOfMethod(ms, id).None? ==> Resequenced(ms, id, newSequence) == ms
    ensures IndexOfMethod(ms, id).Some? ==>
              var r := Resequenced(ms, id, newSequence);
              && Numbered(r) && |r| == |ms|
              && multiset(Moved(ms, IndexOfMethod(ms, id).value, newSequence - 1)) == multiset(ms)
              && (1 <= newSequence <= |ms| ==> r[newSequence - 1].id == id)
  {
    match IndexOfMethod(ms, id)
    case None =>
    case Some(i) =>
      MovedPermutes(ms, i, newSequence - 1);
  }

  function WithoutMethod(ms: seq<Method>, id: string): seq<Method>
  {
    Filter(ms, (m: Method) => m.id != id)
  }

  /** `deleteMethod(id)` on a present list: no method with the id remains,
      the others keep their relative order, and the list is renumbered. */
  lemma DeleteMethodEffect(ms: seq<Method>, more: seq<Method>, id: string)
    ensures var r := Renumbered(WithoutMethod(ms, id));
            && Numbered(r)
            && (forall i :: 0 <= i < |r| ==> r[i].id != id)
            && (forall m :: m in ms && m.id != id ==> exists i :: 0 <= i < |r| && r[i] == m.(sequence := i + 1))
    ensures WithoutMethod(ms + more, id) == WithoutMethod(ms, id) + WithoutMethod(more, id)
  {
    var kept := WithoutMethod(ms, id);
    forall i | 0 <= i < |kept|
      ensures Renumbered(kept)[i].id != id
    {
      RenumberedAt(kept, i);
    }
    forall m | m in ms && m.id != id
      ensures exists i :: 0 <= i < |kept| && Renumbered(kept)[i] == m.(sequence := i + 1)
    {
      var i :| 0 <= i < |kept| && kept[i] == m;
      RenumberedAt(kept, i);
    }
    FilterAppend(ms, more, (m: Method) => m.id != id);
  }

  /** `toggleMethodStatus(id)` on a present list: the first method with the
      id flips its `active` flag and keeps every other field; every other
      method is unchanged. */
  function Toggled(ms: seq<Method>, id: string): (r: seq<Method>)
    ensures |r| == |ms|
    ensures forall i :: IndexOfMethod(ms, id) == Some(i) ==>
              r[i].active == !ms[i].active && r[i].(active := ms[i].active) == ms[i]
    ensures forall j :: 0 <= j < |ms| && IndexOfMethod(ms, id) != Some(j) ==> r[j] == ms[j]
  {
    match IndexOfMethod(ms, id)
    case None => ms
    case Some(i) => ms[i := ms[i].(active := !ms[i].active)]
  }

  /** Toggling twice restores the list. */
  lemma {:induction false} ToggleTwice(ms: seq<Method>, id: string)
    ensures Toggled(Toggled(ms, id), id) == ms
  {
    match IndexOfMethod(ms, id)
    case None =>
    case Some(i) =>
      var once := Toggled(ms, id);
      IndexSameIds(ms, once, id);
  }

  lemma {:induction false} IndexSameIds(a: seq<Method>, b: seq<Method>, id: string)
    requires |a| == |b|
    requires forall j :: 0 <= j < |a| ==> a[j].id == b[j].id
    ensures IndexOfMethod(a, id) == IndexOfMethod(b, id)
  {
    if a != [] {
      IndexSameIds(a[1..], b[1..], id);
    }
  }

  function MergeMethod(m: Method, p: MethodPatch): Method
  {
    Method(m.id, PickOpt(p.name, m.name), PickOpt(p.icon, m.icon), Pick(p.active, m.active),
           Pick(p.sequence, m.sequence), PickOpt(p.description, m.description))
  }

  /** `updateMethod({ id, ...updates })` on a present list: the first method
      with the id takes every key of the patch and keeps its id; an unknown id
      changes nothing. */
  function UpdatedMethods(ms: seq<Method>, id: string, p: MethodPatch): (r: seq<Method>)
    ensures |r| == |ms|
    ensures IndexOfMethod(ms, id).None? ==> r == ms
    ensures forall i :: IndexOfMethod(ms, id) == Some(i) ==>
              r[i].id == id && r[i] == MergeMethod(ms[i], p)
              && (forall j :: 0 <= j < |ms| && j != i ==> r[j] == ms[j])
  {
    match IndexOfMethod(ms, id)
    case None => ms
    case Some(i) => ms[i := MergeMethod(ms[i], p)]
  }

  function NewMethod(draft: MethodDraft, freshId: string, count: nat): Method
  {
    Method(Pick(draft.id, freshId), draft.name, draft.icon, true, count + 1, draft.description)
  }

  /** Adding to a numbered list keeps it numbered: the new method's sequence
      is the new length. */
  lemma AddKeepsNumbering(ms: seq<Method>, draft: MethodDraft, freshId: string)
    requires Numbered(ms)
    ensures Numbered(ms + [NewMethod(draft, freshId, |ms|)])
    ensures (ms + [NewMethod(draft, freshId, |ms|)])[|ms|].active
  {
  }

  /** Whether the search term occurs in the method's name or description,
      a missing one reading as the empty string. */
  predicate Hit(term: string, m: Method)
  {
    Matches(m.name.GetOr(""), term) || Matches(m.description.GetOr(""), term)
  }

  function HitBy(term: string): Method -> bool
  {
    (m: Method) => Hit(term, m)
  }

  /** `selectFilteredMethods` on a method list and a search term. */
  function FilteredMethods(ms: seq<Method>, term: string): (r: seq<Method>)
    ensures term == "" ==> r == ms
    ensures term != "" ==> forall m :: m in r <==> m in ms && Hit(term, m)
  {
    if term == "" then ms else Filter(ms, HitBy(term))
  }

  /** Filtering a concatenation filters each part, keeping their order. */
  lemma FilteredMethodsAppend(ms: seq<Method>, more: seq<Method>, term: string)
    ensures FilteredMethods(ms + more, term) == FilteredMethods(ms, term) + FilteredMethods(more, term)
  {
    if term != "" {
      FilterAppend(ms, more, HitBy(term));
    }
  }

  class MethodsSlice {
    var methods: Option<seq<Method>>
    var searchTerm: string

    constructor()
      ensures methods == Some(DefaultMethods) && searchTerm == ""
    {
      methods := Some(DefaultMethods);
      searchTerm := "";
    }

    /** `initializeMethods()`: a missing list becomes the default list. */
    method InitializeMethods()
      modifies this`methods
      ensures methods == if old(methods).None? then Some(DefaultMethods) else old(methods)
    {
      if methods.None? {
        methods := Some(DefaultMethods);
      }
    }

    /** `addMethod(draft)`: appends one active method numbered after the rest. */
    method AddMethod(draft: MethodDraft, freshId: string)
      modifies this`methods
      ensures var before := old(methods).GetOr([]);
              methods == Some(before + [NewMethod(draft, freshId, |before|)])
    {
      var ms := if methods.None? then [] else methods.value;
      methods := Some(ms + [Method(Pick(draft.id, freshId), draft.name, draft.icon, true, |ms| + 1, draft.description)]);
    }

    /** `updateMethod({ id, ...updates })`. */
    method UpdateMethod(id: string, p: MethodPatch)
      modifies this`methods
      ensures methods == Some(if old(methods).None? then [] else UpdatedMethods(old(methods).value, id, p))
    {
      if methods.None? {
        methods := Some([]);
        return;
      }
      var ms := methods.value;
      var index := IndexOfMethod(ms, id);
      if index.Some? {
        methods := Some(ms[index.value := MergeMethod(ms[index.value], p)]);
      }
    }

    /** `deleteMethod(id)`: filter, then renumber in a loop. */
    method DeleteMethod(id: string)
      modifies this`methods
      ensures methods == Some(if old(methods).None? then [] else Renumbered(WithoutMethod(old(methods).value, id)))
    {
      if methods.None? {
        methods := Some([]);
        return;
      }
      var kept := Filter(methods.value, (m: Method) => m.id != id);
      kept := Renumber(kept);
      methods := Some(kept);
    }

    /** `toggleMethodStatus(id)`. */
    method ToggleMethodStatus(id: string)
      modifies this`methods
      ensures methods == Some(if old(methods).None? then [] else Toggled(old(methods).value, id))
    {
      if methods.None? {
        methods := Some([]);
        return;
      }
      var ms := methods.value;
      var index := IndexOfMethod(ms, id);
      if index.Some? {
        methods := Some(ms[index.value := ms[index.value].(active := !ms[index.value].active)]);
      }
    }

    /** `updateSequence({ id, newSequence })`: a missing list is left missing. */
    method UpdateSequence(id: string, newSequence: int)
      modifies this`methods
      ensures methods == if old(methods).None? then None else Some(Resequenced(old(methods).value, id, newSequence))
    {
      if methods.None? {
        return;
      }
      var ms := methods.value;
      var oldIndex := IndexOfMethod(ms, id);
      if oldIndex.None? {
        return;
      }
      var moving := ms[oldIndex.value];
      ms := ms[..oldIndex.value] + ms[oldIndex.value + 1..];
      var k := SpliceStart(newSequence - 1, |ms|);
      ms := ms[..k] + [moving] + ms[k..];
      ms := Renumber(ms);
      methods := Some(ms);
    }

    /** `setSearchTerm(term)`: a missing term becomes the empty one. */
    method SetSearchTerm(term: Option<string>)
      modifies this`searchTerm
      ensures searchTerm == term.GetOr("")
    {
      searchTerm := if term.Some? then term.value else "";
    }
  }

  /** `selectMethods`: the stored list, or the default list when the slice or
      its list is missing. */
  function SelectMethods(slice: MethodsSlice?): (r: seq<Method>)
    reads slice
    ensures slice == null || slice.methods.None? ==> r == DefaultMethods
    ensures slice != null && slice.methods.Some? ==> r == slice.methods.value
  {
    if slice == null || slice.methods.None? then DefaultMethods else slice.methods.value
  }

  /** `selectActiveMethods`: exactly the active methods, in order. */
  function SelectActiveMethods(slice: MethodsSlice?): (r: seq<Method>)
    reads slice
    ensures forall m :: m in r <==> m in SelectMethods(slice) && m.active
    ensures slice == null ==> r == DefaultMethods
  {
    DefaultMethodsNumbered();
    FilterAll(DefaultMethods, (m: Method) => m.active);
    Filter(SelectMethods(slice), (m: Method) => m.active)
  }

  /** `selectFilteredMethods`. */
  function SelectFilteredMethods(slice: MethodsSlice?): seq<Method>
    reads slice
  {
    FilteredMethods(SelectMethods(slice), if slice == null then "" else slice.searchTerm)
  }
}
