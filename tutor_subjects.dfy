/** The tutor's subject editor: which subjects can still be added, and the add and remove handlers
    around the abstract store calls. */
module TutorSubjects {
  import opened Wrappers
  import opened Remote
  import opened Records
  import Seqs

  /** A `tutor_subjects` row of this tutor, with its joined subject. */
  datatype TutorSubject = TutorSubject(id: string, subjectId: string, proficiencyLevel: string, subject: Subject)

  /** The proficiency picker's item values and its initial value. */
  const ProficiencyLevels: seq<string> := ["beginner", "intermediate", "advanced", "expert"]
  const DefaultProficiency: string := "intermediate"

  /** The inner `some`: some entry already teaches this subject. */
  predicate Taught(tutorSubjects: seq<TutorSubject>, subjectId: string)
  {
    exists k :: 0 <= k < |tutorSubjects| && tutorSubjects[k].subjectId == subjectId
  }

  function TaughtIds(tutorSubjects: seq<TutorSubject>): set<string>
  {
    set ts | ts in tutorSubjects :: ts.subjectId
  }

  /** `availableSubjects`: the subjects not yet taught, in the order of `subjects`. */
  function AvailableSubjects(subjects: seq<Subject>, tutorSubjects: seq<TutorSubject>): (r: seq<Subject>)
    ensures forall s :: s in r <==> s in subjects && !Taught(tutorSubjects, s.id)
  {
    Seqs.Filter((s: Subject) => !Taught(tutorSubjects, s.id), subjects)
  }

  /** No available subject is one already taught, and every subject is one or the other. */
  lemma AvailableIsSetDifference(subjects: seq<Subject>, tutorSubjects: seq<TutorSubject>)
    ensures (set s | s in AvailableSubjects(subjects, tutorSubjects) :: s.id) !! TaughtIds(tutorSubjects)
    ensures forall s :: s in subjects ==>
      (s in AvailableSubjects(subjects, tutorSubjects) <==> s.id !in TaughtIds(tutorSubjects))
  {
    forall s | s in subjects ensures Taught(tutorSubjects, s.id) <==> s.id in TaughtIds(tutorSubjects) {
      TaughtIffInIds(tutorSubjects, s.id);
    }
  }

  lemma TaughtIffInIds(tutorSubjects: seq<TutorSubject>, subjectId: string)
    ensures Taught(tutorSubjects, subjectId) <==> subjectId in TaughtIds(tutorSubjects)
  {
    if Taught(tutorSubjects, subjectId) {
      var k :| 0 <= k < |tutorSubjects| && tutorSubjects[k].subjectId == subjectId;
      assert tutorSubjects[k] in tutorSubjects;
    }
    if subjectId in TaughtIds(tutorSubjects) {
      var ts :| ts in tutorSubjects && ts.subjectId == subjectId;
      var k :| 0 <= k < |tutorSubjects| && tutorSubjects[k] == ts;
    }
  }

  /** The available subjects keep the order of the subject list. */
  lemma AvailableKeepsOrder(subjects: seq<Subject>, tutorSubjects: seq<TutorSubject>)
    ensures Seqs.IsSubsequence(AvailableSubjects(subjects, tutorSubjects), subjects)
  {
    Seqs.FilterIsSubsequence((s: Subject) => !Taught(tutorSubjects, s.id), subjects);
  }

  /** The add controls appear only while some subject is not yet taught. */
  function ShowsAddControls(subjects: seq<Subject>, tutorSubjects: seq<TutorSubject>): (shown: bool)
    ensures shown <==> exists s :: s in subjects && !Taught(tutorSubjects, s.id)
  {
    var available := AvailableSubjects(subjects, tutorSubjects);
    assert available != [] ==> available[0] in available;
    |available| > 0
  }

  /** The row the add handler asks the store to insert. */
  datatype TutorSubjectInsert = TutorSubjectInsert(tutorId: string, subjectId: string, proficiencyLevel: string)

  class TutorSubjectsForm {
    const tutorId: string
    var selectedSubjectId: string   // "" while no subject is chosen
    var proficiencyLevel: string
    var isLoading: bool
    var error: Option<string>

    /** The proficiency picker only ever holds one of its item values. */
    ghost predicate Valid()
      reads this
    {
      proficiencyLevel in ProficiencyLevels
    }

    constructor (tutorId: string)
      ensures Valid() && this.tutorId == tutorId
      ensures selectedSubjectId == "" && proficiencyLevel == DefaultProficiency
      ensures !isLoading && error == None
    {
      this.tutorId := tutorId;
      selectedSubjectId := "";
      proficiencyLevel := DefaultProficiency;
      isLoading := false;
      error := None;
    }

    method SelectSubject(id: string)
      requires Valid()
      modifies this
      ensures Valid() && selectedSubjectId == id
      ensures proficiencyLevel == old(proficiencyLevel) && isLoading == old(isLoading) && error == old(error)
    {
      selectedSubjectId := id;
    }

    method SelectProficiency(index: nat)
      requires Valid() && index < |ProficiencyLevels|
      modifies this
      ensures Valid() && proficiencyLevel == ProficiencyLevels[index]
      ensures selectedSubjectId == old(selectedSubjectId) && isLoading == old(isLoading) && error == old(error)
    {
      proficiencyLevel := ProficiencyLevels[index];
    }

    /** The Add button is disabled while no subject is chosen or an add is in flight. */
    function AddDisabled(): (disabled: bool)
      reads this
      ensures !disabled ==> !isLoading && selectedSubjectId != ""
      ensures isLoading || selectedSubjectId == "" ==> disabled
    {
      selectedSubjectId == "" || isLoading
    }

    /** The add handler up to its await: with no subject chosen it returns at once and changes
        nothing; otherwise it marks the form loading, clears the error and sends the choice. */
    method BeginAdd() returns (request: Option<TutorSubjectInsert>)
      requires Valid()
      modifies this
      ensures Valid()
      ensures selectedSubjectId == old(selectedSubjectId) && proficiencyLevel == old(proficiencyLevel)
      ensures old(selectedSubjectId) == "" ==> request == None && isLoading == old(isLoading) && error == old(error)
      ensures old(selectedSubjectId) != "" ==>
        && isLoading && error == None
        && request == Some(TutorSubjectInsert(tutorId, old(selectedSubjectId), old(proficiencyLevel)))
    {
      if selectedSubjectId == "" {
        return None;
      }
      isLoading := true;
      error := None;
      request := Some(TutorSubjectInsert(tutorId, selectedSubjectId, proficiencyLevel));
    }

    /** The add handler after the insert: on success the choice resets to no subject at level
        "intermediate"; on failure it is kept and the error shown; loading ends either way. */
    method EndAdd(outcome: Outcome)
      requires Valid()
      modifies this
      ensures Valid() && !isLoading
      ensures outcome.Success? ==>
        selectedSubjectId == "" && proficiencyLevel == DefaultProficiency && error == old(error)
      ensures outcome.Failure? ==>
        && selectedSubjectId == old(selectedSubjectId) && proficiencyLevel == old(proficiencyLevel)
        && error == Some(Message(outcome.thrown))
    {
      if outcome.Success? {
        selectedSubjectId := "";
        proficiencyLevel := DefaultProficiency;
      } else {
        error := Some(Message(outcome.thrown));
      }
      isLoading := false;
    }

    /** The remove handler after its delete by entry id: only a failure changes the form. */
    method EndRemove(outcome: Outcome)
      requires Valid()
      modifies this
      ensures Valid()
      ensures selectedSubjectId == old(selectedSubjectId) && proficiencyLevel == old(proficiencyLevel)
      ensures isLoading == old(isLoading)
      ensures error == if outcome.Failure? then Some(Message(outcome.thrown)) else old(error)
    {
      if outcome.Failure? {
        error := Some(Message(outcome.thrown));
      }
    }
  }
}
