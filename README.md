# TutorConnect client logic, modelled in Dafny

TutorConnect is a Next.js front end over a hosted database. Students browse tutors and book
sessions. Tutors list their subjects and weekly availability. Everyone edits a profile. The store
does all persistence, authentication and row-level security. What runs in the browser is a small
set of transformations and record builders inside UI components. This project models each of them:

- `Availability` (components/availability-form.tsx): grouping availability slots by weekday; the
  seven-day display; the add handler (guarded on a chosen day, resetting the form on success) and
  the remove handler.
- `Booking` (components/booking-form.tsx): the Jitsi room name and meeting URL; the session row
  with status "scheduled"; the duration choices; the submit rule and handler. Also the session
  page's recovery of the room name from the stored URL.
- `TutorDirectory` (app/tutors/page.tsx): the subject filter over the fetched tutors.
- `SessionList` (app/dashboard/sessions/page.tsx): the split into upcoming and past sessions, and
  `isStudent`.
- `TutorSubjects` (components/tutor-subjects-form.tsx): the subjects still available to add, and
  the add and remove handlers.
- `TutorFilters` (components/tutor-filters.tsx): the query-parameter rewrite when a subject is
  chosen, Clear, and the picker's shown value.
- `DashboardNav` (components/dashboard-nav.tsx, with the role default of app/dashboard/layout.tsx):
  the role-dependent items and the active-item rule.
- `ProfileForm` (components/profile-form.tsx): the initial values, the update payload, and the
  submit handler.

Shared modules: `Seqs` is JavaScript's `filter` as an order-preserving selection, with subsequence,
multiplicity and partition lemmas. `Decimal` is the decimal text of a non-negative integer, with
its parse and the round trip between them. `Remote` is the abstract outcome of a store call and the
message that each `catch` clause stores. `Records` and `Wrappers` hold shared record types and
`Option`.

Modelling choices:

- A form whose handlers change component state step by step is a class. Each async handler is
  split at its `await`. `Begin…` is the synchronous part: it returns the request sent to the store
  (`None` when the handler returns early). `End…` is the part after the await. It takes the store's
  answer as a `Remote.Outcome` parameter.
- Timestamps are integers (milliseconds). `Date.now()` is a parameter `now`. `new Date(date + "T" +
  time)` is a parameter `parse: string -> Option<int>`, applied to the joined text. A result of
  `None` means the date is invalid, so `toISOString` throws and the handler stores its message.
- `Number.parseInt` is modelled on the strings the pickers can hold: the day values "0".."6" and
  the durations "30", "60", "90", "120". `Availability.AvailabilityForm.Valid()` and
  `Booking.BookingForm.Valid()` say that those pickers hold only those strings.
- Query parameters are an ordered list of name-value pairs, following URLSearchParams in the WHATWG
  URL Standard. `delete` removes every pair with the name. `set` replaces the value of the first such
  pair and drops the others, or appends a pair when there is none.

What the code does not check:

- The add-slot handler checks neither the day range nor that start comes before end. A day always
  comes from the picker, so it is in 0..6.
- Grouping creates a key only for days that have a slot, and keeps input order. It does not sort by
  start time; the store's query does the ordering.
- The booking handler itself checks neither the subject nor the duration nor a past date. What stands
  in the way is outside the handler: the button's disabled rule, the `required` attributes on the
  subject, date, time and duration fields (components/booking-form.tsx:89, 112, 123, 130), which
  the browser's form validation enforces before the handler runs, and the date input's `min`.

## Model

| member | source | states |
|---|---|---|
| `Availability.GroupByDay` | components/availability-form.tsx:71-80 | the reduce returns a grouping: keys are exactly the days present, each bucket is that day's slots in input order |
| `Availability.PushedGroups` | components/availability-form.tsx:73-77 | creating a missing bucket and pushing the slot keeps the accumulator a grouping of the slots seen so far |
| `Availability.GroupedBucketsNonEmpty` | components/availability-form.tsx:73-75 | a bucket key exists only for a day with some slot, so no stored bucket is empty |
| `Availability.SlotInExactlyOneBucket` | components/availability-form.tsx:71-80 | every slot is in its own day's bucket as often as in the input and in no other bucket: nothing lost or duplicated |
| `Availability.BucketKeepsInputOrder` | components/availability-form.tsx:76 | because push appends, each bucket is a subsequence of the input |
| `Availability.TimeLabel` | components/availability-form.tsx:94 | the displayed time is the first five characters of the stored string, or all of a shorter one |
| `Availability.BadgeText` | components/availability-form.tsx:93-95 | a badge reads the start label, " - ", then the end label |
| `Availability.DayContentOf` | components/availability-form.tsx:91-105 | a row shows "Not available" iff its bucket is missing or empty, and otherwise that bucket's slots |
| `Availability.RowBadges` | components/availability-form.tsx:91-95 | one badge text per shown slot, in order; none for "Not available" |
| `Availability.WeekView` | components/availability-form.tsx:85-107 | seven rows Sunday to Saturday; a row shows "Not available" iff its bucket is missing or empty |
| `Availability.WeekViewOfGrouping` | components/availability-form.tsx:91-105 | over a grouping, row i shows exactly day i's slots, and "Not available" when there are none |
| `Availability.WeekBadgesOfGrouping` | components/availability-form.tsx:91-95 | over a grouping, row i renders one badge per slot of day i, in input order, each with that slot's badge text |
| `Availability.ShownExactlyOnDaysInRange` | components/availability-form.tsx:85-105 | a slot is shown in row i iff its day is i, so slots with a day outside 0..6 are grouped but never shown |
| `Availability.AvailabilityForm.constructor` | components/availability-form.tsx:23-27 | day "" (none chosen), start "09:00", end "10:00", not loading, no error |
| `Availability.AvailabilityForm.SelectDay` | components/availability-form.tsx:116-125 | the picker stores item i's value, the index as text; nothing else changes |
| `Availability.AvailabilityForm.SetStartTime` | components/availability-form.tsx:132 | only the start time changes |
| `Availability.AvailabilityForm.SetEndTime` | components/availability-form.tsx:137 | only the end time changes |
| `Availability.AvailabilityForm.AddDisabled` | components/availability-form.tsx:141 | Add is enabled exactly when a day is chosen and no add is in flight (both directions) |
| `Availability.AvailabilityForm.BeginAdd` | components/availability-form.tsx:31-43 | no day chosen: no request and no state change; otherwise loading, error cleared, and the insert carries the tutor, the parsed day (in 0..6) and the times unchanged, with no start/end check |
| `Availability.AvailabilityForm.EndAdd` | components/availability-form.tsx:45-55 | success resets day, start and end to "", 09:00, 10:00; failure keeps them and sets the error; loading ends |
| `Availability.AvailabilityForm.EndRemove` | components/availability-form.tsx:58-68 | only a failed delete changes the form, by setting the error; loading is untouched |
| `Decimal.ValueOfToDecimal` | components/availability-form.tsx:40 | parsing the decimal text of n gives n back (used for the parsed day and for the timestamp in the room name) |
| `Decimal.ToDecimalInjective` | components/booking-form.tsx:57 | distinct timestamps have distinct decimal texts |
| `Booking.RoomName` | components/booking-form.tsx:57 | the room name holds "tutor-", the tutor id, "-student-", the student id, "-" and then the canonical decimal text of the booking time `now`: digits that parse back to `now`, with no leading zero |
| `Booking.LastSegment` | components/booking-form.tsx:58 | `split("/").pop()`, defaulting to "", of the session page (app/session/[sessionId]/page.tsx, line 99) on the URL built here: the text after the last "/" (or all of a string without one); it holds no "/", is a suffix, and is preceded by "/" |
| `Booking.LastSegmentAfterSlash` | components/booking-form.tsx:58 | for the session page's last-segment read (app/session/[sessionId]/page.tsx, line 99): the base URL followed by "/" and a slash-free name yields that name as last segment |
| `Booking.MeetingUrl` | components/booking-form.tsx:58 | the URL is the public Jitsi base followed by the room name, so the name can be read back after the base |
| `Booking.NoSlashInRoomName` | components/booking-form.tsx:57 | the room name holds no "/" unless one of the ids does (the timestamp is all digits) |
| `Booking.RoomNameRecoveredFromUrl` | components/booking-form.tsx:57-58 | if neither id contains "/", the last path segment of this meeting URL, which the session page (app/session/[sessionId]/page.tsx, line 99) passes to the widget, is the room name |
| `Booking.SlashInIdLosesRoom` | components/booking-form.tsx:57-58 | a tutor id such as "a/b" makes the last segment that the session page (app/session/[sessionId]/page.tsx, line 99) reads differ from the room name |
| `Booking.DistinctTimesDistinctRooms` | components/booking-form.tsx:57-58 | two bookings for one pair at different milliseconds get different room names and URLs |
| `Booking.DurationMinutes` | components/booking-form.tsx:65 | parsing a duration item value gives one of 30, 60, 90, 120 |
| `Booking.DurationChoices` | components/booking-form.tsx:135-138 | the items are exactly 30, 60, 90 and 120 minutes, and the default "60" is one of them |
| `Booking.ComposeSession` | components/booking-form.tsx:60-69 | status is "scheduled"; tutor, student, subject, time, duration and notes pass through; the URL is the room's; no availability is consulted |
| `Booking.ComposedMeetingsDiffer` | components/booking-form.tsx:57-69 | two rows for one pair composed at different milliseconds never share a meeting URL |
| `Booking.BookingForm.constructor` | components/booking-form.tsx:37-43 | subject, date, time and notes empty; duration "60"; not loading; no error |
| `Booking.BookingForm.SelectSubject` | components/booking-form.tsx:89 | only the subject changes |
| `Booking.BookingForm.SelectDuration` | components/booking-form.tsx:130 | the duration becomes item i's value; nothing else changes |
| `Booking.BookingForm.SetSchedule` | components/booking-form.tsx:111-122 | only the date and time change |
| `Booking.BookingForm.SetNotes` | components/booking-form.tsx:148 | only the notes change |
| `Booking.BookingForm.SubmitDisabled` | components/booking-form.tsx:162 | submit is disabled iff loading or no subject chosen |
| `Booking.BookingForm.ShowsAvailabilityWarning` | components/booking-form.tsx:154-158 | the warning shows iff the tutor has no availability; nothing else depends on it |
| `Booking.BookingForm.BeginSubmit` | components/booking-form.tsx:47-69 | invalid date: error "Invalid time value", not loading, no request; otherwise loading, no error, and the request is the composed row for the current fields |
| `Booking.BookingForm.EndSubmit` | components/booking-form.tsx:71-79 | success navigates to the sessions list; failure sets the error and stays; loading ends and no field resets |
| `TutorDirectory.FilterTutors` | app/tutors/page.tsx:42-46 | no or empty filter: the input unchanged; filter X: a tutor is kept iff it is in the input and has an entry whose subject id is X; never longer than the input |
| `TutorDirectory.FilterTutorsKeepsOrder` | app/tutors/page.tsx:43 | the result is a subsequence of the input |
| `TutorDirectory.FilterTutorsMultiplicity` | app/tutors/page.tsx:42-46 | each tutor row is kept exactly as often as it was fetched, or not at all when an active filter excludes it |
| `TutorDirectory.ThreeTutorsTwoTeachMath` | app/tutors/page.tsx:42-46 | of three tutors, the two teaching "math" are returned, in input order |
| `SessionList.IsUpcoming` | app/dashboard/sessions/page.tsx:37 | upcoming means scheduled and starting at or after now (stated through `SessionList.Upcoming` and `SessionList.IsPast`) |
| `SessionList.IsPast` | app/dashboard/sessions/page.tsx:38 | past is exactly the negation of upcoming |
| `SessionList.Upcoming` | app/dashboard/sessions/page.tsx:37 | a session is upcoming iff it starts at or after now and its status is "scheduled" |
| `SessionList.Past` | app/dashboard/sessions/page.tsx:38 | a session is past iff it started before now or is not "scheduled"; every completed or cancelled session is past |
| `SessionList.UpcomingAndPastPartition` | app/dashboard/sessions/page.tsx:37-38 | for one now the lists are disjoint and together hold every session exactly as often as the input |
| `SessionList.SplitKeepsOrder` | app/dashboard/sessions/page.tsx:35-38 | both lists are subsequences of the input, so newest-first input gives newest-first lists |
| `SessionList.SplitAsWritten` | app/dashboard/sessions/page.tsx:37-38 | with the clock read once per filter, a session is in both lists iff it is scheduled and starts at or after the upcoming reading but before the past reading, and in neither iff it is scheduled and starts at or after the past reading but before the upcoming reading |
| `SessionList.ClockStepBackDropsSession` | app/dashboard/sessions/page.tsx:37-38 | a clock that steps back from 1001 to 1000 between the filters leaves a scheduled session at 1000 out of both lists |
| `SessionList.ClockTickListsSessionTwice` | app/dashboard/sessions/page.tsx:37-38 | a scheduled session starting between the two readings is in both lists |
| `SessionList.IsStudent` | app/dashboard/sessions/page.tsx:40 | a profile counts as a student iff its user type is exactly "student"; a missing profile never does |
| `TutorSubjects.AvailableSubjects` | components/tutor-subjects-form.tsx:77 | a subject is available iff it is listed and no tutor-subject entry has its id |
| `TutorSubjects.AvailableIsSetDifference` | components/tutor-subjects-form.tsx:77 | the available ids and the taught ids are disjoint, and a listed subject is available iff its id is not taught |
| `TutorSubjects.AvailableKeepsOrder` | components/tutor-subjects-form.tsx:77 | the available subjects are a subsequence of the subject list |
| `TutorSubjects.ShowsAddControls` | components/tutor-subjects-form.tsx:95 | the add controls show iff some listed subject is not yet taught |
| `TutorSubjects.TutorSubjectsForm.constructor` | components/tutor-subjects-form.tsx:33-36 | no subject chosen, proficiency "intermediate", not loading, no error |
| `TutorSubjects.TutorSubjectsForm.SelectSubject` | components/tutor-subjects-form.tsx:99 | only the chosen subject changes |
| `TutorSubjects.TutorSubjectsForm.SelectProficiency` | components/tutor-subjects-form.tsx:115-123 | the level becomes one of beginner, intermediate, advanced, expert; nothing else changes |
| `TutorSubjects.TutorSubjectsForm.AddDisabled` | components/tutor-subjects-form.tsx:129 | Add is disabled iff no subject is chosen or an add is in flight |
| `TutorSubjects.TutorSubjectsForm.BeginAdd` | components/tutor-subjects-form.tsx:40-51 | no subject chosen: no request, no change; otherwise loading, error cleared, insert of tutor, subject and level |
| `TutorSubjects.TutorSubjectsForm.EndAdd` | components/tutor-subjects-form.tsx:53-62 | success resets the choice to "" and "intermediate"; failure keeps it and sets the error; loading ends |
| `TutorSubjects.TutorSubjectsForm.EndRemove` | components/tutor-subjects-form.tsx:65-75 | only a failed delete changes the form, by setting the error |
| `TutorFilters.LookupWithoutName` | components/tutor-filters.tsx:19-20 | after delete, looking the name up finds nothing |
| `TutorFilters.WithoutNameIdempotent` | components/tutor-filters.tsx:19-20 | deleting a name twice is deleting it once |
| `TutorFilters.SetEntryProperties` | components/tutor-filters.tsx:21-22 | after set, the name has the new value, exactly one pair has the name, and the other pairs are unchanged and in order |
| `TutorFilters.SearchParams.constructor` | components/tutor-filters.tsx:18 | the copy starts with the current pairs |
| `TutorFilters.SearchParams.Delete` | components/tutor-filters.tsx:20 | the pairs now are the old ones without the name |
| `TutorFilters.SearchParams.Set` | components/tutor-filters.tsx:22 | the pairs now are the old ones with the name set |
| `TutorFilters.HandleSubjectChange` | components/tutor-filters.tsx:17-25 | "all" removes the subject parameter; any other value v makes the parameters exactly what `set` gives: one subject pair with value v, all other parameters kept in order; the target is /tutors |
| `TutorFilters.ClearFiltersTarget` | components/tutor-filters.tsx:27-29 | Clear goes to /tutors with no parameters at all, so no subject parameter (unlike "all", which keeps the others) |
| `TutorFilters.FilterTargetsDriveDirectory` | components/tutor-filters.tsx:17-29 | after "all" or Clear the directory shows every tutor; after choosing v it shows what filtering by v shows |
| `TutorFilters.ShowsClear` | components/tutor-filters.tsx:50 | Clear appears exactly when a non-empty subject is selected (it decides `SelectedValue`'s two cases) |
| `TutorFilters.SelectedValue` | components/tutor-filters.tsx:35 | the picker shows the selected subject when one is selected (as when Clear appears), and "all" otherwise |
| `DashboardNav.NavItems` | components/dashboard-nav.tsx:20-27 | four items, first Dashboard, last Sessions and Profile; the second is Find Tutors (/tutors) for students and Availability (/dashboard/availability) otherwise; hrefs distinct |
| `DashboardNav.AtMostOneActive` | components/dashboard-nav.tsx:38 | an item is active iff the path equals its href, so at most one item is active |
| `DashboardNav.LayoutUserType` | app/dashboard/layout.tsx:20 | the role is the profile's user type when it is present and non-empty, and "student" when it is missing or empty |
| `DashboardNav.IsActive` | components/dashboard-nav.tsx:38 | an item is highlighted iff the path equals its href exactly; a sub-path does not count |
| `DashboardNav.MissingProfileRolesDisagree` | app/dashboard/layout.tsx:20 | with no profile the navigation shows the student items, while the sessions page does not treat the user as a student |
| `ProfileForm.InitialFullName` | components/profile-form.tsx:25 | the initial name is the profile's, or "" without a profile |
| `ProfileForm.InitialBio` | components/profile-form.tsx:26 | the initial bio is the profile's, or "" when the profile or its bio is missing |
| `ProfileForm.Payload` | components/profile-form.tsx:41-46 | the payload has only the name and the bio; the bio is null iff the field is empty, otherwise the text |
| `ProfileForm.Applied` | components/profile-form.tsx:40-46 | the update touches only name and bio; id, email, role and image stay |
| `ProfileForm.SaveThenReopen` | components/profile-form.tsx:25-44 | saving and reopening the form shows the name and bio as typed |
| `ProfileForm.UnchangedSaveKeepsRow` | components/profile-form.tsx:26-44 | saving an unchanged form leaves the row as it was iff its stored bio is not the empty string |
| `ProfileForm.ProfileFormState.constructor` | components/profile-form.tsx:25-29 | fields start from the profile; not loading, no error, no success |
| `ProfileForm.ProfileFormState.SetFullName` | components/profile-form.tsx:84 | only the name changes |
| `ProfileForm.ProfileFormState.SetBio` | components/profile-form.tsx:92 | only the bio changes |
| `ProfileForm.ProfileFormState.BeginSubmit` | components/profile-form.tsx:33-46 | loading, error and success cleared; the update of name and bio targets the profile's id |
| `ProfileForm.ProfileFormState.EndSubmit` | components/profile-form.tsx:48-55 | success is set only after an error-free update; a failure sets the error; loading ends |

## Left out

- Store calls (insert, delete, update, select, `auth.getUser`, `signOut`) are not modelled. Each
  is a `Remote.Outcome` supplied from outside. Row-level security, the remote ordering and filtering,
  and the dashboard's remote session query (app/dashboard/page.tsx) are store behaviour.
- Router navigation and `router.refresh()` are left out. `HandleSubjectChange` and `EndSubmit`
  return the target. Serialising the parameters (`params.toString()`, its percent-encoding, a
  trailing "?" when there are none) is not modelled. Copying the parameters through their text form
  is modelled as copying the pairs.
- `Date` parsing and formatting (`toISOString`, `toLocaleString`), and the booking date input's
  `min` of today, are left out: they are browser behaviour. Timestamps are integers.
- `Number.parseInt` is modelled only on the picker values, the only strings those fields can hold.
- The React runtime and JSX rendering are modelled only as the values shown: badges, rows, labels
  and disabled flags. Icons, styling and the counterpart names on session cards are left out.
- `Availability.AvailabilityForm.EndRemove`, `TutorSubjects.TutorSubjectsForm.EndRemove`: the
  delete request is only the id the user clicked, so it is not returned as a value.
- `TutorDirectory.FilterTutors`: takes the fetched list itself. A failed fetch (`tutors` null),
  which the page shows as "No tutors found", is not modelled. Neither is a repeated `subject`
  parameter arriving as an array.
- `SessionList.Upcoming`, `SessionList.Past`: use one `now`. A null session list is not modelled.
- `SessionList.SplitAsWritten`: reads the clock once per filter. The page calls `new Date()` once
  per element inside each filter callback, so readings can also differ between the elements of one
  filter; those per-element readings are not modelled anywhere.
- `Booking.BookingForm.BeginSubmit`: the stored message "Invalid time value" is the wording of the
  RangeError thrown by V8-based browsers; other engines word that error differently, and the model
  fixes the V8 text.
- components/jitsi-meeting.tsx (script injection, foreign widget), sign-up, email verification,
  and the static pages are not part of this model.
- No overlap, start-before-end or past-date check is stated, because the code has none.

## Findings

| source | as written | input that shows it | evidently intended | confidence | as-written member | corrected member |
|---|---|---|---|---|---|---|
| app/dashboard/sessions/page.tsx:37-38 | each filter reads the clock with its own `new Date()` | a scheduled session at t = 1000 ms, read as 1000 by the upcoming filter and 1001 by the past filter, appears in both lists | one reading of now for both filters, so that each session is in exactly one list | low: a one-millisecond window; not executed | `SessionList.ClockTickListsSessionTwice` | `SessionList.UpcomingAndPastPartition` |
