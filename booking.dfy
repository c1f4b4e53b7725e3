/** The booking form: the meeting room name and URL, the session row it inserts, the duration
    choices, and the submit handler around the abstract insert. */
module Booking {
  import opened Wrappers
  import opened Remote
  import opened Records
  import Decimal

  const JitsiBase: string := "https://meet.jit.si/"
  const ScheduledStatus: string := "scheduled"
  const SessionsPath: string := "/dashboard/sessions"

  /** The values of the duration picker's items, in minutes, and its initial value. */
  const DurationOptions: seq<string> := ["30", "60", "90", "120"]
  const DefaultDuration: string := "60"

  /** What `toISOString` throws for a date that did not parse. */
  const InvalidDateMessage: string := "Invalid time value"

  // ---------------------------------------------------------------------------------------------
  // Room name and meeting URL

  function RoomPrefix(tutorId: string, studentId: string): string
  {
    "tutor-" + tutorId + "-student-" + studentId + "-"
  }

  /** The room name for a booking by `studentId` with `tutorId` made at millisecond `now`: both
      ids after their fixed markers, then the time in decimal. */
  function RoomName(tutorId: string, studentId: string, now: nat): (r: string)
    ensures |r| > 16 + |tutorId| + |studentId|
    ensures r[..6] == "tutor-" && r[6..6 + |tutorId|] == tutorId
    ensures r[6 + |tutorId|..15 + |tutorId|] == "-student-"
    ensures r[15 + |tutorId|..15 + |tutorId| + |studentId|] == studentId
    ensures r[15 + |tutorId| + |studentId|] == '-'
    ensures Decimal.IsDigits(r[16 + |tutorId| + |studentId|..])
    ensures Decimal.Value(r[16 + |tutorId| + |studentId|..]) == now
    ensures |r| > 17 + |tutorId| + |studentId| ==> r[16 + |tutorId| + |studentId|] != '0'
  {
    var prefix := RoomPrefix(tutorId, studentId);
    var digits := Decimal.ToDecimal(now);
    Decimal.ValueOfToDecimal(now);
    assert (prefix + digits)[|prefix|..] == digits;
    prefix + digits
  }

  /** The Jitsi URL of a room: the public server's base, then the room name. */
  function MeetingUrl(roomName: string): (url: string)
    ensures |url| == |JitsiBase| + |roomName|
    ensures url[..|JitsiBase|] == JitsiBase && url[|JitsiBase|..] == roomName
  {
    JitsiBase + roomName
  }

  /** `split("/").pop() || ""`: the text after the last "/", or all of `url` when it has none. */
  function LastSegment(url: string): (r: string)
    ensures '/' !in r
    ensures |r| <= |url| && r == url[|url| - |r|..]
    ensures |r| < |url| ==> url[|url| - |r| - 1] == '/'
    decreases |url|
  {
    if url == [] then []
    else if url[|url| - 1] == '/' then []
    else
      var front := url[..|url| - 1];
      var r := LastSegment(front) + [url[|url| - 1]];
      assert url == front + [url[|url| - 1]];
      assert url[|url| - |r|..] == front[|front| - |r| + 1..] + [url[|url| - 1]];
      r
  }

  /** The segment after a final "/" is everything behind it when it holds no "/" itself. */
  lemma {:induction false} LastSegmentAfterSlash(front: string, rest: string)
    requires '/' !in rest
    ensures LastSegment(front + "/" + rest) == rest
    decreases |rest|
  {
    var url := front + "/" + rest;
    if rest == [] {
      assert url[|url| - 1] == '/';
    } else {
      var shorter := rest[..|rest| - 1];
      assert url[..|url| - 1] == front + "/" + shorter;
      assert '/' !in shorter by {
        assert forall c :: c in shorter ==> c in rest;
      }
      LastSegmentAfterSlash(front, shorter);
      assert rest == shorter + [rest[|rest| - 1]];
    }
  }

  /** A room name holds no "/" when neither id does. */
  lemma NoSlashInRoomName(tutorId: string, studentId: string, now: nat)
    requires '/' !in tutorId && '/' !in studentId
    ensures '/' !in RoomName(tutorId, studentId, now)
  {
    var digits := Decimal.ToDecimal(now);
    assert '/' !in digits by {
      assert forall i :: 0 <= i < |digits| ==> Decimal.IsDigit(digits[i]);
    }
    var prefix := RoomPrefix(tutorId, studentId);
    assert '/' !in prefix by {
      assert prefix == "tutor-" + tutorId + "-student-" + studentId + "-";
    }
    assert RoomName(tutorId, studentId, now) == prefix + digits;
  }

  /** The session page recovers the room name from the stored URL whenever the ids hold no "/". */
  lemma RoomNameRecoveredFromUrl(tutorId: string, studentId: string, now: nat)
    requires '/' !in tutorId && '/' !in studentId
    ensures LastSegment(MeetingUrl(RoomName(tutorId, studentId, now))) == RoomName(tutorId, studentId, now)
  {
    var room := RoomName(tutorId, studentId, now);
    NoSlashInRoomName(tutorId, studentId, now);
    assert MeetingUrl(room) == "https://meet.jit.si" + "/" + room;
    LastSegmentAfterSlash("https://meet.jit.si", room);
  }

  /** An id holding "/" breaks the recovery: the session page would open a different room. */
  lemma SlashInIdLosesRoom()
    ensures LastSegment(MeetingUrl(RoomName("a/b", "s", 7))) != RoomName("a/b", "s", 7)
  {
    var room := RoomName("a/b", "s", 7);
    assert room[6..9] == "a/b" && room[7] == '/';
  }

  /** Two bookings for the same pair made at different milliseconds get different rooms and URLs. */
  lemma DistinctTimesDistinctRooms(tutorId: string, studentId: string, t1: nat, t2: nat)
    requires t1 != t2
    ensures RoomName(tutorId, studentId, t1) != RoomName(tutorId, studentId, t2)
    ensures MeetingUrl(RoomName(tutorId, studentId, t1)) != MeetingUrl(RoomName(tutorId, studentId, t2))
  {
    var prefix := RoomPrefix(tutorId, studentId);
    var r1, r2 := RoomName(tutorId, studentId, t1), RoomName(tutorId, studentId, t2);
    assert r1[|prefix|..] == Decimal.ToDecimal(t1);
    assert r2[|prefix|..] == Decimal.ToDecimal(t2);
    Decimal.ToDecimalInjective(t1, t2);
    assert MeetingUrl(r1)[|JitsiBase|..] == r1;
    assert MeetingUrl(r2)[|JitsiBase|..] == r2;
  }

  // ---------------------------------------------------------------------------------------------
  // Durations and the session row

  /** `Number.parseInt` of a duration item value. */
  function DurationMinutes(duration: string): (minutes: nat)
    requires duration in DurationOptions
    ensures minutes in {30, 60, 90, 120}
  {
    assert Decimal.Value("3") == 3 && Decimal.Value("6") == 6 && Decimal.Value("9") == 9;
    assert Decimal.Value("1") == 1 && Decimal.Value("12") == 12;
    assert "30"[..1] == "3" && "60"[..1] == "6" && "90"[..1] == "9" && "120"[..2] == "12";
    Decimal.Value(duration)
  }

  /** The durations on offer are exactly 30, 60, 90 and 120 minutes, and the default is 60. */
  lemma DurationChoices()
    ensures |DurationOptions| == 4
    ensures [DurationMinutes(DurationOptions[0]), DurationMinutes(DurationOptions[1]),
             DurationMinutes(DurationOptions[2]), DurationMinutes(DurationOptions[3])] == [30, 60, 90, 120]
    ensures DefaultDuration in DurationOptions && DurationMinutes(DefaultDuration) == 60
  {
    assert DurationMinutes("30") == 30 && DurationMinutes("60") == 60;
    assert DurationMinutes("90") == 90 && DurationMinutes("120") == 120;
  }

  /** The row the submit handler asks the store to insert into `sessions`. */
  datatype SessionInsert = SessionInsert(
    tutorId: string, studentId: string, subjectId: string, scheduledAt: int,
    durationMinutes: int, notes: string, meetingUrl: string, status: string)

  /** The session row: a fresh meeting URL, status "scheduled", everything else as entered.
      No availability slot and no other session is consulted. */
  function ComposeSession(tutorId: string, studentId: string, subjectId: string, scheduledAt: int,
                          durationMinutes: int, notes: string, now: nat): (row: SessionInsert)
    ensures row.status == ScheduledStatus
    ensures row.tutorId == tutorId && row.studentId == studentId && row.subjectId == subjectId
    ensures row.scheduledAt == scheduledAt && row.durationMinutes == durationMinutes && row.notes == notes
    ensures row.meetingUrl == MeetingUrl(RoomName(tutorId, studentId, now))
  {
    SessionInsert(tutorId, studentId, subjectId, scheduledAt, durationMinutes, notes,
                  MeetingUrl(RoomName(tutorId, studentId, now)), ScheduledStatus)
  }

  /** Two rows composed for the same pair at different milliseconds never share a meeting. */
  lemma ComposedMeetingsDiffer(tutorId: string, studentId: string, s1: string, s2: string,
                               at1: int, at2: int, d1: int, d2: int, n1: string, n2: string,
                               t1: nat, t2: nat)
    requires t1 != t2
    ensures ComposeSession(tutorId, studentId, s1, at1, d1, n1, t1).meetingUrl
         != ComposeSession(tutorId, studentId, s2, at2, d2, n2, t2).meetingUrl
  {
    DistinctTimesDistinctRooms(tutorId, studentId, t1, t2);
  }

  // ---------------------------------------------------------------------------------------------
  // The form

  class BookingForm {
    const tutorId: string
    const studentId: string
    const availability: seq<Slot>
    var subjectId: string
    var scheduledDate: string
    var scheduledTime: string
    var duration: string
    var notes: string
    var isLoading: bool
    var error: Option<string>

    /** The duration picker only ever holds one of its item values. */
    ghost predicate Valid()
      reads this
    {
      duration in DurationOptions
    }

    constructor (tutorId: string, studentId: string, availability: seq<Slot>)
      ensures Valid()
      ensures this.tutorId == tutorId && this.studentId == studentId && this.availability == availability
      ensures subjectId == "" && scheduledDate == "" && scheduledTime == "" && notes == ""
      ensures duration == DefaultDuration && !isLoading && error == None
    {
      this.tutorId := tutorId;
      this.studentId := studentId;
      this.availability := availability;
      subjectId, scheduledDate, scheduledTime := "", "", "";
      duration := DefaultDuration;
      notes := "";
      isLoading := false;
      error := None;
    }

    method SelectSubject(id: string)
      requires Valid()
      modifies this
      ensures Valid() && subjectId == id
      ensures scheduledDate == old(scheduledDate) && scheduledTime == old(scheduledTime)
      ensures duration == old(duration) && notes == old(notes)
      ensures isLoading == old(isLoading) && error == old(error)
    {
      subjectId := id;
    }

    method SelectDuration(index: nat)
      requires Valid() && index < |DurationOptions|
      modifies this
      ensures Valid() && duration == DurationOptions[index]
      ensures subjectId == old(subjectId) && scheduledDate == old(scheduledDate)
      ensures scheduledTime == old(scheduledTime) && notes == old(notes)
      ensures isLoading == old(isLoading) && error == old(error)
    {
      duration := DurationOptions[index];
    }

    method SetSchedule(date: string, time: string)
      requires Valid()
      modifies this
      ensures Valid() && scheduledDate == date && scheduledTime == time
      ensures subjectId == old(subjectId) && duration == old(duration) && notes == old(notes)
      ensures isLoading == old(isLoading) && error == old(error)
    {
      scheduledDate, scheduledTime := date, time;
    }

    method SetNotes(text: string)
      requires Valid()
      modifies this
      ensures Valid() && notes == text
      ensures subjectId == old(subjectId) && scheduledDate == old(scheduledDate)
      ensures scheduledTime == old(scheduledTime) && duration == old(duration)
      ensures isLoading == old(isLoading) && error == old(error)
    {
      notes := text;
    }

    /** Submit is disabled while a booking is in flight or no subject is chosen. */
    function SubmitDisabled(): (disabled: bool)
      reads this
      ensures !disabled ==> !isLoading && subjectId != ""
      ensures isLoading || subjectId == "" ==> disabled
    {
      isLoading || subjectId == ""
    }

    /** The warning about a tutor without availability; it does not block a booking. */
    function ShowsAvailabilityWarning(): (shown: bool)
      reads this
      ensures shown <==> availability == []
    {
      |availability| == 0
    }

    /** The submit handler up to its await. `parse` stands for `new Date(...)` on the joined date
        and time (None: an invalid date, on which `toISOString` throws) and `now` for `Date.now()`.
        The handler itself checks neither the subject nor the date against today. */
    method BeginSubmit(parse: string -> Option<int>, now: nat) returns (request: Option<SessionInsert>)
      requires Valid()
      modifies this
      ensures Valid()
      ensures subjectId == old(subjectId) && scheduledDate == old(scheduledDate)
      ensures scheduledTime == old(scheduledTime) && duration == old(duration) && notes == old(notes)
      ensures var at := parse(old(scheduledDate) + "T" + old(scheduledTime));
        && (at.None? ==> request == None && !isLoading && error == Some(InvalidDateMessage))
        && (at.Some? ==>
              && isLoading && error == None
              && request == Some(ComposeSession(tutorId, studentId, old(subjectId), at.value,
                                                DurationMinutes(old(duration)), old(notes), now)))
    {
      isLoading := true;
      error := None;
      var at := parse(scheduledDate + "T" + scheduledTime);
      if at.None? {
        error := Some(InvalidDateMessage);
        isLoading := false;
        return None;
      }
      request := Some(ComposeSession(tutorId, studentId, subjectId, at.value,
                                     DurationMinutes(duration), notes, now));
    }

    /** The submit handler after the insert: on success it goes to the sessions list, on failure it
        shows the error; loading ends either way and no field is reset. */
    method EndSubmit(outcome: Outcome) returns (navigateTo: Option<string>)
      requires Valid()
      modifies this
      ensures Valid() && !isLoading
      ensures subjectId == old(subjectId) && scheduledDate == old(scheduledDate)
      ensures scheduledTime == old(scheduledTime) && duration == old(duration) && notes == old(notes)
      ensures outcome.Success? ==> navigateTo == Some(SessionsPath) && error == old(error)
      ensures outcome.Failure? ==> navigateTo == None && error == Some(Message(outcome.thrown))
    {
      if outcome.Success? {
        navigateTo := Some(SessionsPath);
      } else {
        navigateTo := None;
        error := Some(Message(outcome.thrown));
      }
      isLoading := false;
    }
  }
}
