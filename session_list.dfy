/** The sessions page: splitting the user's sessions, fetched newest first, into upcoming and past. */
module SessionList {
  import opened Wrappers
  import Seqs

  const ScheduledStatus: string := "scheduled"
  const StudentRole: string := "student"

  /** A `sessions` row as the page reads it; `scheduledAt` is a timestamp in milliseconds. */
  datatype SessionRow = SessionRow(id: string, tutorId: string, studentId: string, subjectId: string,
                                   scheduledAt: int, durationMinutes: int, status: string,
                                   meetingUrl: Option<string>)

  predicate IsUpcoming(now: int, s: SessionRow)
  {
    s.scheduledAt >= now && s.status == ScheduledStatus
  }

  /** Past is exactly "not upcoming": started already, or no longer scheduled. */
  predicate IsPast(now: int, s: SessionRow)
    ensures IsPast(now, s) <==> !IsUpcoming(now, s)
  {
    s.scheduledAt < now || s.status != ScheduledStatus
  }

  function Upcoming(sessions: seq<SessionRow>, now: int): (r: seq<SessionRow>)
    ensures forall s :: s in r <==> s in sessions && s.scheduledAt >= now && s.status == ScheduledStatus
  {
    Seqs.Filter((s: SessionRow) => IsUpcoming(now, s), sessions)
  }

  function Past(sessions: seq<SessionRow>, now: int): (r: seq<SessionRow>)
    ensures forall s :: s in r <==> s in sessions && (s.scheduledAt < now || s.status != ScheduledStatus)
    ensures forall s :: s in sessions && s.status != ScheduledStatus ==> s in r
  {
    Seqs.Filter((s: SessionRow) => IsPast(now, s), sessions)
  }

  /** For one `now` the two lists split the sessions: no session is in both, and together they
      hold every session exactly as often as the input does. */
  lemma UpcomingAndPastPartition(sessions: seq<SessionRow>, now: int)
    ensures forall s :: !(s in Upcoming(sessions, now) && s in Past(sessions, now))
    ensures multiset(Upcoming(sessions, now)) + multiset(Past(sessions, now)) == multiset(sessions)
  {
    Seqs.FilterPartition((s: SessionRow) => IsUpcoming(now, s), (s: SessionRow) => IsPast(now, s), sessions);
  }

  /** Both lists keep the fetched order, so newest-first input gives newest-first lists. */
  lemma SplitKeepsOrder(sessions: seq<SessionRow>, now: int)
    ensures Seqs.IsSubsequence(Upcoming(sessions, now), sessions)
    ensures Seqs.IsSubsequence(Past(sessions, now), sessions)
    ensures Seqs.Descending((s: SessionRow) => s.scheduledAt, sessions) ==>
      && Seqs.Descending((s: SessionRow) => s.scheduledAt, Upcoming(sessions, now))
      && Seqs.Descending((s: SessionRow) => s.scheduledAt, Past(sessions, now))
  {
    var key := (s: SessionRow) => s.scheduledAt;
    Seqs.FilterIsSubsequence((s: SessionRow) => IsUpcoming(now, s), sessions);
    Seqs.FilterIsSubsequence((s: SessionRow) => IsPast(now, s), sessions);
    if Seqs.Descending(key, sessions) {
      Seqs.SubsequenceKeepsDescending(key, Upcoming(sessions, now), sessions);
      Seqs.SubsequenceKeepsDescending(key, Past(sessions, now), sessions);
    }
  }

  /** The page reads the clock afresh for each filter: upcoming at `upcomingNow`, past at
      `pastNow`. A scheduled session is in both lists when it starts between a first reading and a
      later one, and in neither when the clock stepped back between the readings and it starts in
      between. */
  function SplitAsWritten(sessions: seq<SessionRow>, upcomingNow: int, pastNow: int): (r: (seq<SessionRow>, seq<SessionRow>))
    ensures forall s :: s in r.0 && s in r.1 <==>
      s in sessions && s.status == ScheduledStatus && upcomingNow <= s.scheduledAt < pastNow
    ensures forall s :: s in sessions ==>
      (s !in r.0 && s !in r.1 <==> s.status == ScheduledStatus && pastNow <= s.scheduledAt < upcomingNow)
  {
    (Upcoming(sessions, upcomingNow), Past(sessions, pastNow))
  }

  /** A scheduled session starting in the millisecond between the two clock readings is listed as
      both upcoming and past. */
  lemma ClockTickListsSessionTwice()
    ensures var s := SessionRow("s1", "t", "u", "math", 1000, 60, ScheduledStatus, None);
      var r := SplitAsWritten([s], 1000, 1001);
      s in r.0 && s in r.1
  {
    var s := SessionRow("s1", "t", "u", "math", 1000, 60, ScheduledStatus, None);
    assert IsUpcoming(1000, s) && IsPast(1001, s);
  }

  /** A wall clock that steps back between the two readings drops a scheduled session from both
      lists. */
  lemma ClockStepBackDropsSession()
    ensures var s := SessionRow("s1", "t", "u", "math", 1000, 60, ScheduledStatus, None);
      var r := SplitAsWritten([s], 1001, 1000);
      s !in r.0 && s !in r.1
  {
    var s := SessionRow("s1", "t", "u", "math", 1000, 60, ScheduledStatus, None);
    assert !IsUpcoming(1001, s) && !IsPast(1000, s);
  }

  /** `isStudent`: the profile's role is "student"; a missing profile does not count as one. */
  function IsStudent(profileUserType: Option<string>): (student: bool)
    ensures student ==> profileUserType.Some?
    ensures profileUserType == Some(StudentRole) ==> student
    ensures profileUserType.Some? && profileUserType.value != StudentRole ==> !student
  {
    profileUserType == Some(StudentRole)
  }
}
