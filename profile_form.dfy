/** The profile editor: its initial values, the update it sends, and its submit handler. */
module ProfileForm {
  import opened Wrappers
  import opened Remote

  /** A `profiles` row as the form receives it. */
  datatype Profile = Profile(id: string, email: string, fullName: string, userType: string,
                             bio: Option<string>, profileImageUrl: Option<string>)

  /** The columns the update sets: the name and the bio, nothing else. */
  datatype ProfileUpdate = ProfileUpdate(fullName: string, bio: Option<string>)

  /** The update and the row it is filtered to (`eq("id", profile?.id)`). */
  datatype UpdateRequest = UpdateRequest(rowId: Option<string>, changes: ProfileUpdate)

  /** `profile?.full_name || ""`. */
  function InitialFullName(profile: Option<Profile>): (name: string)
    ensures profile.None? ==> name == ""
    ensures profile.Some? ==> name == profile.value.fullName
  {
    if profile.Some? && profile.value.fullName != "" then profile.value.fullName else ""
  }

  /** `profile?.bio || ""`. */
  function InitialBio(profile: Option<Profile>): (bio: string)
    ensures profile.None? || profile.value.bio.None? ==> bio == ""
    ensures profile.Some? && profile.value.bio.Some? ==> bio == profile.value.bio.value
  {
    if profile.Some? && profile.value.bio.Some? && profile.value.bio.value != "" then profile.value.bio.value else ""
  }

  /** The update payload: the name as typed, and the bio as typed or null when it is empty. */
  function Payload(fullName: string, bio: string): (u: ProfileUpdate)
    ensures u.fullName == fullName
    ensures u.bio.None? <==> bio == ""
    ensures u.bio.Some? ==> u.bio.value == bio
  {
    ProfileUpdate(fullName, if bio != "" then Some(bio) else None)
  }

  /** The row after the update: only the name and the bio change. */
  function Applied(p: Profile, u: ProfileUpdate): (q: Profile)
    ensures q.id == p.id && q.email == p.email && q.userType == p.userType
    ensures q.profileImageUrl == p.profileImageUrl
    ensures q.fullName == u.fullName && q.bio == u.bio
  {
    p.(fullName := u.fullName, bio := u.bio)
  }

  /** Saving and reopening the form shows exactly what was typed. */
  lemma SaveThenReopen(p: Profile, fullName: string, bio: string)
    ensures InitialFullName(Some(Applied(p, Payload(fullName, bio)))) == fullName
    ensures InitialBio(Some(Applied(p, Payload(fullName, bio)))) == bio
  {
  }

  /** Saving the form unchanged leaves the row as it was, except that an empty stored bio becomes null. */
  lemma UnchangedSaveKeepsRow(p: Profile)
    ensures Applied(p, Payload(InitialFullName(Some(p)), InitialBio(Some(p)))) == p <==> p.bio != Some("")
  {
  }

  class ProfileFormState {
    const profile: Option<Profile>
    var fullName: string
    var bio: string
    var isLoading: bool
    var error: Option<string>
    var success: bool

    constructor (profile: Option<Profile>)
      ensures this.profile == profile
      ensures fullName == InitialFullName(profile) && bio == InitialBio(profile)
      ensures !isLoading && error == None && !success
    {
      this.profile := profile;
      fullName := InitialFullName(profile);
      bio := InitialBio(profile);
      isLoading := false;
      error := None;
      success := false;
    }

    method SetFullName(name: string)
      modifies this
      ensures fullName == name && bio == old(bio)
      ensures isLoading == old(isLoading) && error == old(error) && success == old(success)
    {
      fullName := name;
    }

    method SetBio(text: string)
      modifies this
      ensures bio == text && fullName == old(fullName)
      ensures isLoading == old(isLoading) && error == old(error) && success == old(success)
    {
      bio := text;
    }

    /** The submit handler up to its await: loading, the error and the success flag cleared, and the
        name and bio sent against this profile's id. */
    method BeginSubmit() returns (request: UpdateRequest)
      modifies this
      ensures fullName == old(fullName) && bio == old(bio)
      ensures isLoading && error == None && !success
      ensures request.rowId == (if profile.Some? then Some(profile.value.id) else None)
      ensures request.changes == Payload(fullName, bio)
    {
      isLoading := true;
      error := None;
      success := false;
      request := UpdateRequest(if profile.Some? then Some(profile.value.id) else None, Payload(fullName, bio));
    }

    /** The submit handler after the update: success is set only when it raised no error, the error
        is shown otherwise, and loading ends either way. */
    method EndSubmit(outcome: Outcome)
      modifies this
      ensures fullName == old(fullName) && bio == old(bio) && !isLoading
      ensures outcome.Success? ==> success && error == old(error)
      ensures outcome.Failure? ==> success == old(success) && error == Some(Message(outcome.thrown))
    {
      if outcome.Success? {
        success := true;
      } else {
        error := Some(Message(outcome.thrown));
      }
      isLoading := false;
    }
  }
}
