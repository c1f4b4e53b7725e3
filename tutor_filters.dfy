/** The directory's subject filter: rewriting the query parameters when a subject is chosen, and
    what the picker and the Clear button show. */
module TutorFilters {
  import opened Wrappers
  import Seqs
  import TutorDirectory

  const SubjectKey: string := "subject"
  const AllValue: string := "all"
  const TutorsPath: string := "/tutors"

  /** One name-value pair of a query string. */
  datatype Param = Param(name: string, value: string)

  /** Where the router is sent: a path and its query parameters (before serialisation). */
  datatype Location = Location(path: string, params: seq<Param>)

  /** The pairs not named `name`, in order: what `URLSearchParams.delete(name)` leaves. */
  function WithoutName(entries: seq<Param>, name: string): seq<Param>
  {
    Seqs.Filter((p: Param) => p.name != name, entries)
  }

  /** `URLSearchParams.set(name, value)`: the first pair named `name` takes the value and the other
      pairs so named are dropped; with none, the pair is appended. */
  function SetEntry(entries: seq<Param>, name: string, value: string): seq<Param>
    decreases |entries|
  {
    if entries == [] then [Param(name, value)]
    else if entries[0].name == name then [Param(name, value)] + WithoutName(entries[1..], name)
    else [entries[0]] + SetEntry(entries[1..], name, value)
  }

  /** `URLSearchParams.get(name)`: the value of the first pair named `name`. */
  function Lookup(entries: seq<Param>, name: string): Option<string>
    decreases |entries|
  {
    if entries == [] then None
    else if entries[0].name == name then Some(entries[0].value)
    else Lookup(entries[1..], name)
  }

  lemma {:induction false} LookupWithoutName(entries: seq<Param>, name: string)
    ensures Lookup(WithoutName(entries, name), name) == None
    decreases |entries|
  {
    if entries != [] {
      LookupWithoutName(entries[1..], name);
      var rest := WithoutName(entries[1..], name);
      if entries[0].name != name {
        assert WithoutName(entries, name) == [entries[0]] + rest;
        assert ([entries[0]] + rest)[1..] == rest;
      } else {
        assert WithoutName(entries, name) == rest;
      }
    }
  }

  lemma {:induction false} WithoutNameIdempotent(entries: seq<Param>, name: string)
    ensures WithoutName(WithoutName(entries, name), name) == WithoutName(entries, name)
    decreases |entries|
  {
    if entries != [] {
      WithoutNameIdempotent(entries[1..], name);
      var rest := WithoutName(entries[1..], name);
      if entries[0].name != name {
        assert WithoutName(entries, name) == [entries[0]] + rest;
        assert ([entries[0]] + rest)[1..] == rest;
      } else {
        assert WithoutName(entries, name) == rest;
      }
    }
  }

  /** After `set`, looking the name up gives the new value, exactly one pair has the name, and the
      pairs with other names are the old ones in the old order. */
  lemma {:induction false} SetEntryProperties(entries: seq<Param>, name: string, value: string)
    ensures Lookup(SetEntry(entries, name, value), name) == Some(value)
    ensures |Seqs.Filter((p: Param) => p.name == name, SetEntry(entries, name, value))| == 1
    ensures WithoutName(SetEntry(entries, name, value), name) == WithoutName(entries, name)
    decreases |entries|
  {
    var r := SetEntry(entries, name, value);
    var named := (p: Param) => p.name == name;
    if entries == [] {
      assert r[1..] == [];
    } else if entries[0].name == name {
      var rest := WithoutName(entries[1..], name);
      assert r[0] == Param(name, value) && r[1..] == rest;
      WithoutNameIdempotent(entries[1..], name);
      forall x | x in rest ensures !named(x) { }
      Seqs.FilterNone(named, rest);
    } else {
      SetEntryProperties(entries[1..], name, value);
      assert r[0] == entries[0] && r[1..] == SetEntry(entries[1..], name, value);
    }
  }

  /** The copy of the current parameters that the change handler edits in place. */
  class SearchParams {
    var entries: seq<Param>

    constructor (init: seq<Param>)
      ensures entries == init
    {
      entries := init;
    }

    method Delete(name: string)
      modifies this
      ensures entries == WithoutName(old(entries), name)
    {
      entries := WithoutName(entries, name);
    }

    method Set(name: string, value: string)
      modifies this
      ensures entries == SetEntry(old(entries), name, value)
    {
      entries := SetEntry(entries, name, value);
    }
  }

  /** `handleSubjectChange`: "all" drops the subject parameter, any other value becomes it; every
      other parameter is kept, in order, and the router goes to the directory. */
  method HandleSubjectChange(current: seq<Param>, value: string) returns (target: Location)
    ensures target.path == TutorsPath
    ensures value == AllValue ==> target.params == WithoutName(current, SubjectKey)
    ensures value == AllValue ==> Lookup(target.params, SubjectKey) == None
    ensures value != AllValue ==> Lookup(target.params, SubjectKey) == Some(value)
    ensures value != AllValue ==> target.params == SetEntry(current, SubjectKey, value)
    ensures WithoutName(target.params, SubjectKey) == WithoutName(current, SubjectKey)
  {
    var params := new SearchParams(current);
    if value == AllValue {
      params.Delete(SubjectKey);
      LookupWithoutName(current, SubjectKey);
      WithoutNameIdempotent(current, SubjectKey);
    } else {
      params.Set(SubjectKey, value);
      SetEntryProperties(current, SubjectKey, value);
    }
    target := Location(TutorsPath, params.entries);
  }

  /** `handleClearFilters`: the directory with no parameters at all. */
  function ClearFiltersTarget(): (target: Location)
    ensures target.path == TutorsPath && Lookup(target.params, SubjectKey) == None
    ensures target.params == []
  {
    Location(TutorsPath, [])
  }

  /** The directory then shows every tutor after "all" or Clear, and only the chosen subject's
      tutors after any other choice. */
  lemma FilterTargetsDriveDirectory(tutors: seq<TutorDirectory.Tutor>, current: seq<Param>, value: string)
    ensures TutorDirectory.FilterTutors(tutors, Lookup(WithoutName(current, SubjectKey), SubjectKey)) == tutors
    ensures TutorDirectory.FilterTutors(tutors, Lookup(ClearFiltersTarget().params, SubjectKey)) == tutors
    ensures TutorDirectory.FilterTutors(tutors, Lookup(SetEntry(current, SubjectKey, value), SubjectKey))
         == TutorDirectory.FilterTutors(tutors, Some(value))
  {
    LookupWithoutName(current, SubjectKey);
    SetEntryProperties(current, SubjectKey, value);
  }

  /** The picker shows the selected subject, or "all" when there is none. */
  function SelectedValue(selectedSubject: Option<string>): (shown: string)
    ensures ShowsClear(selectedSubject) ==> shown == selectedSubject.value
    ensures !ShowsClear(selectedSubject) ==> shown == AllValue
  {
    if selectedSubject.Some? && selectedSubject.value != "" then selectedSubject.value else AllValue
  }

  /** Clear appears only when a subject is selected. */
  predicate ShowsClear(selectedSubject: Option<string>)
  {
    selectedSubject.Some? && selectedSubject.value != ""
  }
}
