/** The tutor directory page: narrowing the fetched tutors to those teaching the subject named by
    the `subject` query parameter. */
module TutorDirectory {
  import opened Wrappers
  import opened Records
  import Seqs

  /** One embedded `tutor_subjects` entry of a tutor, with its joined subject. */
  datatype TutorSubjectEntry = TutorSubjectEntry(id: string, proficiencyLevel: string, subject: Subject)

  /** A `profiles` row of a tutor with its embedded subject entries. */
  datatype Tutor = Tutor(id: string, fullName: string, email: string, bio: Option<string>,
                         tutorSubjects: seq<TutorSubjectEntry>)

  /** The inner `some`: the tutor has an entry whose joined subject has this id. */
  predicate Teaches(t: Tutor, subjectId: string)
  {
    exists k :: 0 <= k < |t.tutorSubjects| && t.tutorSubjects[k].subject.id == subjectId
  }

  /** The filter is active only for a present, non-empty `subject` parameter. */
  predicate FilterActive(subjectFilter: Option<string>)
  {
    subjectFilter.Some? && subjectFilter.value != ""
  }

  /** `filteredTutors`: the input unchanged with no filter, otherwise the tutors teaching it. */
  function FilterTutors(tutors: seq<Tutor>, subjectFilter: Option<string>): (r: seq<Tutor>)
    ensures !FilterActive(subjectFilter) ==> r == tutors
    ensures FilterActive(subjectFilter) ==>
      forall t :: t in r <==> t in tutors && Teaches(t, subjectFilter.value)
    ensures |r| <= |tutors|
  {
    if FilterActive(subjectFilter) then Seqs.Filter((t: Tutor) => Teaches(t, subjectFilter.value), tutors)
    else tutors
  }

  /** No tutor row is lost or duplicated: each is kept as often as it was fetched, or dropped
      entirely when an active filter excludes it. */
  lemma FilterTutorsMultiplicity(tutors: seq<Tutor>, subjectFilter: Option<string>, t: Tutor)
    ensures multiset(FilterTutors(tutors, subjectFilter))[t] ==
      if FilterActive(subjectFilter) && !Teaches(t, subjectFilter.value) then 0 else multiset(tutors)[t]
  {
    if FilterActive(subjectFilter) {
      Seqs.FilterMultiplicity((x: Tutor) => Teaches(x, subjectFilter.value), tutors, t);
    }
  }

  /** The directory keeps the fetched order: the result is a subsequence of the input. */
  lemma FilterTutorsKeepsOrder(tutors: seq<Tutor>, subjectFilter: Option<string>)
    ensures Seqs.IsSubsequence(FilterTutors(tutors, subjectFilter), tutors)
  {
    if FilterActive(subjectFilter) {
      Seqs.FilterIsSubsequence((t: Tutor) => Teaches(t, subjectFilter.value), tutors);
    } else {
      SubsequenceOfItself(tutors);
    }
  }

  lemma {:induction false} SubsequenceOfItself(s: seq<Tutor>)
    ensures Seqs.IsSubsequence(s, s)
    decreases |s|
  {
    if s != [] {
      SubsequenceOfItself(s[1..]);
    }
  }

  /** Filtering three tutors of whom the first and last teach "math" keeps exactly those two. */
  lemma ThreeTutorsTwoTeachMath()
    ensures var math := Subject("math", "Mathematics");
      var a := Tutor("a", "A", "a@x", None, [TutorSubjectEntry("e1", "expert", math)]);
      var b := Tutor("b", "B", "b@x", None, []);
      var c := Tutor("c", "C", "c@x", None, [TutorSubjectEntry("e2", "beginner", math)]);
      FilterTutors([a, b, c], Some("math")) == [a, c]
  {
    var math := Subject("math", "Mathematics");
    var a := Tutor("a", "A", "a@x", None, [TutorSubjectEntry("e1", "expert", math)]);
    var b := Tutor("b", "B", "b@x", None, []);
    var c := Tutor("c", "C", "c@x", None, [TutorSubjectEntry("e2", "beginner", math)]);
    var p := (t: Tutor) => Teaches(t, "math");
    assert a.tutorSubjects[0].subject.id == "math" && c.tutorSubjects[0].subject.id == "math";
    assert p(a) && !p(b) && p(c);
    assert [a, b, c][1..] == [b, c] && [b, c][1..] == [c] && [c][1..] == [];
    assert Seqs.Filter(p, [c]) == [c];
    assert Seqs.Filter(p, [b, c]) == [c];
  }
}
