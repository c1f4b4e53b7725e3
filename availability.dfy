/** The tutor's weekly availability editor: grouping the stored slots by weekday, the seven-day
    display, and the add and remove handlers around the abstract store calls. */
module Availability {
  import opened Wrappers
  import opened Remote
  import opened Records
  import Seqs
  import Decimal

  /** Weekday names, Sunday first; a day's index is its `day_of_week`. */
  const Days: seq<string> := ["Sunday", "Monday", "Tuesday", "Wednesday", "Thursday", "Friday", "Saturday"]

  /** The values of the day picker's items: each index as text. */
  const DayOptions: seq<string> := seq(7, i requires 0 <= i < 7 => Decimal.ToDecimal(i))

  const DefaultStartTime: string := "09:00"
  const DefaultEndTime: string := "10:00"

  // ---------------------------------------------------------------------------------------------
  // Grouping by weekday

  /** The slots of one weekday, in input order. */
  function Bucket(slots: seq<Slot>, day: int): seq<Slot>
  {
    Seqs.Filter((x: Slot) => x.dayOfWeek == day, slots)
  }

  /** The weekdays that occur in `slots`. */
  function DaysOf(slots: seq<Slot>): set<int>
  {
    set x | x in slots :: x.dayOfWeek
  }

  /** A day that occurs in no slot has an empty bucket. */
  lemma BucketEmptyOffDays(slots: seq<Slot>, day: int)
    requires day !in DaysOf(slots)
    ensures Bucket(slots, day) == []
  {
    forall x | x in slots ensures x.dayOfWeek != day {
      assert x.dayOfWeek in DaysOf(slots);
    }
    Seqs.FilterNone((x: Slot) => x.dayOfWeek == day, slots);
  }

  /** `grouped` is a grouping of `slots`: a key for each day that occurs, and under it that day's slots. */
  ghost predicate GroupsByDay(grouped: map<int, seq<Slot>>, slots: seq<Slot>)
  {
    && grouped.Keys == DaysOf(slots)
    && forall d :: d in grouped ==> grouped[d] == Bucket(slots, d)
  }

  /** The accumulator after pushing `x` onto its day's bucket, created empty if missing. */
  function Pushed(grouped: map<int, seq<Slot>>, x: Slot): map<int, seq<Slot>>
  {
    grouped[x.dayOfWeek := (if x.dayOfWeek in grouped then grouped[x.dayOfWeek] else []) + [x]]
  }

  /** One step of the `reduce` keeps the accumulator a grouping of the slots seen so far. */
  lemma PushedGroups(grouped: map<int, seq<Slot>>, seen: seq<Slot>, x: Slot)
    requires GroupsByDay(grouped, seen)
    ensures GroupsByDay(Pushed(grouped, x), seen + [x])
  {
    var next := Pushed(grouped, x);
    var all := seen + [x];
    assert DaysOf(all) == DaysOf(seen) + {x.dayOfWeek} by {
      assert forall y :: y in all <==> y in seen || y == x;
    }
    forall d | d in next ensures next[d] == Bucket(all, d) {
      Seqs.FilterAppend((y: Slot) => y.dayOfWeek == d, seen, x);
      if d == x.dayOfWeek && d !in grouped {
        BucketEmptyOffDays(seen, d);
      }
    }
  }

  /** `PushedGroups` for the prefix of `slots` that a loop has seen. */
  lemma PushedPrefix(grouped: map<int, seq<Slot>>, slots: seq<Slot>, i: nat)
    requires i < |slots| && GroupsByDay(grouped, slots[..i])
    ensures GroupsByDay(Pushed(grouped, slots[i]), slots[..i + 1])
  {
    PushedGroups(grouped, slots[..i], slots[i]);
    assert slots[..i + 1] == slots[..i] + [slots[i]];
  }

  /** The `reduce` that builds the day-to-slots record: a bucket is created on a day's first slot,
      and every slot is pushed onto the end of its day's bucket. */
  method GroupByDay(slots: seq<Slot>) returns (grouped: map<int, seq<Slot>>)
    ensures GroupsByDay(grouped, slots)
  {
    grouped := map[];
    for i := 0 to |slots|
      invariant GroupsByDay(grouped, slots[..i])
    {
      var slot := slots[i];
      PushedPrefix(grouped, slots, i);
      var bucket: seq<Slot> := [];  // a missing bucket starts empty
      if slot.dayOfWeek in grouped {
        bucket := grouped[slot.dayOfWeek];
      }
      grouped := grouped[slot.dayOfWeek := bucket + [slot]];
    }
    assert slots[..|slots|] == slots;
  }

  /** A key exists only for a day that has a slot, so no bucket is ever empty. */
  lemma GroupedBucketsNonEmpty(grouped: map<int, seq<Slot>>, slots: seq<Slot>)
    requires GroupsByDay(grouped, slots)
    ensures forall d :: d in grouped ==> grouped[d] != []
  {
    forall d | d in grouped ensures grouped[d] != [] {
      var x :| x in slots && x.dayOfWeek == d;
      assert x in grouped[d];
    }
  }

  /** Every slot lands in exactly one bucket, its own day's, as often as it occurs in the input. */
  lemma SlotInExactlyOneBucket(grouped: map<int, seq<Slot>>, slots: seq<Slot>, x: Slot)
    requires GroupsByDay(grouped, slots) && x in slots
    ensures x.dayOfWeek in grouped
    ensures multiset(grouped[x.dayOfWeek])[x] == multiset(slots)[x]
    ensures forall d :: d in grouped && d != x.dayOfWeek ==> multiset(grouped[d])[x] == 0
  {
    Seqs.FilterMultiplicity((y: Slot) => y.dayOfWeek == x.dayOfWeek, slots, x);
    forall d | d in grouped && d != x.dayOfWeek ensures multiset(grouped[d])[x] == 0 {
      Seqs.FilterMultiplicity((y: Slot) => y.dayOfWeek == d, slots, x);
    }
  }

  /** Inside a bucket slots keep their relative input order. */
  lemma BucketKeepsInputOrder(grouped: map<int, seq<Slot>>, slots: seq<Slot>, d: int)
    requires GroupsByDay(grouped, slots) && d in grouped
    ensures Seqs.IsSubsequence(grouped[d], slots)
  {
    Seqs.FilterIsSubsequence((x: Slot) => x.dayOfWeek == d, slots);
  }

  // ---------------------------------------------------------------------------------------------
  // The seven-day display

  datatype DayContent = NotAvailable | Shown(slots: seq<Slot>)
  datatype DayRow = DayRow(day: string, content: DayContent)

  /** `substring(0, 5)` of a stored time: its first five characters, or all of a shorter one. */
  function TimeLabel(t: string): (r: string)
    ensures |r| == if |t| < 5 then |t| else 5
    ensures r == t[..|r|]
  {
    if |t| <= 5 then t else t[..5]
  }

  /** The text on a slot's badge: the start label, " - ", the end label. */
  function BadgeText(x: Slot): (r: string)
    ensures var start := TimeLabel(x.startTime);
      && |r| == |start| + 3 + |TimeLabel(x.endTime)|
      && r[..|start|] == start && r[|start|..|start| + 3] == " - "
      && r[|start| + 3..] == TimeLabel(x.endTime)
  {
    TimeLabel(x.startTime) + " - " + TimeLabel(x.endTime)
  }

  /** One row of the display: a missing or empty bucket shows "Not available", otherwise its slots. */
  function DayContentOf(grouped: map<int, seq<Slot>>, index: int): (c: DayContent)
    ensures c == NotAvailable <==> index !in grouped || grouped[index] == []
    ensures c.Shown? ==> c.slots == grouped[index]
  {
    if index in grouped && |grouped[index]| > 0 then Shown(grouped[index]) else NotAvailable
  }

  /** The walk over `Days`: one row per weekday 0..6, in order. */
  function WeekView(grouped: map<int, seq<Slot>>): (rows: seq<DayRow>)
    ensures |rows| == |Days|
    ensures forall i :: 0 <= i < |rows| ==> rows[i].day == Days[i]
    ensures forall i :: 0 <= i < |rows| ==>
      (rows[i].content == NotAvailable <==> i !in grouped || grouped[i] == [])
  {
    seq(|Days|, i requires 0 <= i < |Days| => DayRow(Days[i], DayContentOf(grouped, i)))
  }

  /** Over a grouping, row `i` shows exactly the slots whose day is `i`, in input order; a day
      without slots shows "Not available". */
  lemma WeekViewOfGrouping(grouped: map<int, seq<Slot>>, slots: seq<Slot>, i: int)
    requires GroupsByDay(grouped, slots) && 0 <= i < |Days|
    ensures WeekView(grouped)[i].content ==
      if Bucket(slots, i) == [] then NotAvailable else Shown(Bucket(slots, i))
  {
    if i !in grouped {
      BucketEmptyOffDays(slots, i);
    }
  }

  /** The badge texts a row renders, one per shown slot, in order; none for "Not available". */
  function RowBadges(row: DayRow): seq<string>
  {
    match row.content
    case NotAvailable => []
    case Shown(slots) => seq(|slots|, k requires 0 <= k < |slots| => BadgeText(slots[k]))
  }

  /** Over a grouping, row `i` renders one badge per slot of day `i`, in input order. */
  lemma WeekBadgesOfGrouping(grouped: map<int, seq<Slot>>, slots: seq<Slot>, i: int)
    requires GroupsByDay(grouped, slots) && 0 <= i < |Days|
    ensures |RowBadges(WeekView(grouped)[i])| == |Bucket(slots, i)|
    ensures forall k :: 0 <= k < |Bucket(slots, i)| ==>
      RowBadges(WeekView(grouped)[i])[k] == BadgeText(Bucket(slots, i)[k])
  {
    WeekViewOfGrouping(grouped, slots, i);
  }

  /** A slot is shown in some row iff its day is 0..6; it is then shown in that day's row only. */
  lemma ShownExactlyOnDaysInRange(grouped: map<int, seq<Slot>>, slots: seq<Slot>, x: Slot)
    requires GroupsByDay(grouped, slots) && x in slots
    ensures forall i :: 0 <= i < |Days| ==>
      (WeekView(grouped)[i].content.Shown? && x in WeekView(grouped)[i].content.slots <==> i == x.dayOfWeek)
  {
    var rows := WeekView(grouped);
    forall i | 0 <= i < |Days|
      ensures rows[i].content.Shown? && x in rows[i].content.slots <==> i == x.dayOfWeek
    {
      WeekViewOfGrouping(grouped, slots, i);
    }
  }

  // ---------------------------------------------------------------------------------------------
  // The add and remove handlers

  /** The row the add handler asks the store to insert. */
  datatype SlotInsert = SlotInsert(tutorId: string, dayOfWeek: int, startTime: string, endTime: string)

  class AvailabilityForm {
    const tutorId: string
    var dayOfWeek: string      // the day picker's value; "" while no day is chosen
    var startTime: string
    var endTime: string
    var isLoading: bool
    var error: Option<string>

    /** The day picker only ever holds "" or one of its item values. */
    ghost predicate Valid()
      reads this
    {
      dayOfWeek == "" || dayOfWeek in DayOptions
    }

    constructor (tutorId: string)
      ensures Valid()
      ensures this.tutorId == tutorId && dayOfWeek == ""
      ensures startTime == DefaultStartTime && endTime == DefaultEndTime
      ensures !isLoading && error == None
    {
      this.tutorId := tutorId;
      dayOfWeek := "";
      startTime := DefaultStartTime;
      endTime := DefaultEndTime;
      isLoading := false;
      error := None;
    }

    /** The day picker's change handler for item `index`. */
    method SelectDay(index: nat)
      requires Valid() && index < |Days|
      modifies this
      ensures Valid() && dayOfWeek == DayOptions[index]
      ensures startTime == old(startTime) && endTime == old(endTime)
      ensures isLoading == old(isLoading) && error == old(error)
    {
      dayOfWeek := DayOptions[index];
    }

    method SetStartTime(t: string)
      requires Valid()
      modifies this
      ensures Valid() && startTime == t
      ensures dayOfWeek == old(dayOfWeek) && endTime == old(endTime)
      ensures isLoading == old(isLoading) && error == old(error)
    {
      startTime := t;
    }

    method SetEndTime(t: string)
      requires Valid()
      modifies this
      ensures Valid() && endTime == t
      ensures dayOfWeek == old(dayOfWeek) && startTime == old(startTime)
      ensures isLoading == old(isLoading) && error == old(error)
    {
      endTime := t;
    }

    /** The Add button is disabled while no day is chosen or an add is in flight. */
    function AddDisabled(): (disabled: bool)
      reads this
      requires Valid()
      ensures !disabled ==> !isLoading && dayOfWeek in DayOptions
      ensures dayOfWeek != "" && !isLoading ==> !disabled
    {
      dayOfWeek == "" || isLoading
    }

    /** The add handler up to its await: with no day chosen it returns at once and changes nothing;
        otherwise it marks the form loading, clears the error and sends the chosen day (parsed),
        start and end time as they stand, with no check that start precedes end. */
    method BeginAdd() returns (request: Option<SlotInsert>)
      requires Valid()
      modifies this
      ensures Valid()
      ensures old(dayOfWeek) == "" ==> request == None && isLoading == old(isLoading) && error == old(error)
      ensures old(dayOfWeek) != "" ==> request.Some? && isLoading && error == None
      ensures request.Some? ==>
        && request.value.tutorId == tutorId
        && 0 <= request.value.dayOfWeek < |Days|
        && DayOptions[request.value.dayOfWeek] == old(dayOfWeek)
        && request.value.startTime == old(startTime) && request.value.endTime == old(endTime)
      ensures dayOfWeek == old(dayOfWeek) && startTime == old(startTime) && endTime == old(endTime)
    {
      if dayOfWeek == "" {
        return None;
      }
      isLoading := true;
      error := None;
      var index :| 0 <= index < |DayOptions| && DayOptions[index] == dayOfWeek;
      Decimal.ValueOfToDecimal(index);
      request := Some(SlotInsert(tutorId, Decimal.Value(dayOfWeek), startTime, endTime));
    }

    /** The add handler after the insert: on success the day, start and end reset to "", 09:00 and
        10:00; on failure they are kept and the error is shown; loading ends either way. */
    method EndAdd(outcome: Outcome)
      requires Valid()
      modifies this
      ensures Valid() && !isLoading
      ensures outcome.Success? ==>
        dayOfWeek == "" && startTime == DefaultStartTime && endTime == DefaultEndTime && error == old(error)
      ensures outcome.Failure? ==>
        && dayOfWeek == old(dayOfWeek) && startTime == old(startTime) && endTime == old(endTime)
        && error == Some(Message(outcome.thrown))
    {
      if outcome.Success? {
        dayOfWeek := "";
        startTime := DefaultStartTime;
        endTime := DefaultEndTime;
      } else {
        error := Some(Message(outcome.thrown));
      }
      isLoading := false;
    }

    /** The remove handler after its delete by slot id: only a failure changes the form, by
        showing the error; the loading flag is not used. */
    method EndRemove(outcome: Outcome)
      requires Valid()
      modifies this
      ensures Valid()
      ensures dayOfWeek == old(dayOfWeek) && startTime == old(startTime) && endTime == old(endTime)
      ensures isLoading == old(isLoading)
      ensures error == if outcome.Failure? then Some(Message(outcome.thrown)) else old(error)
    {
      if outcome.Failure? {
        error := Some(Message(outcome.thrown));
      }
    }
  }
}
