/** The device-triggered "what to dispense" query: the member's schedule
    entries for today in the slots still ahead, restricted by each
    medication's target audience. */
module DispenseList {

  import opened Entities
  import opened Seqs
  import Clock
  import Members

  /** A schedule row as the query loads it, with its medication joined on
      (medi_id, connect); the join is absent when no medication row matches. */
  datatype ScheduleRow = ScheduleRow(schedule: Schedule, medicine: Option<Medicine>)

  /** One dispense candidate reported to the device. */
  datatype Candidate = Candidate(
    mediId: Option<string>,
    medicineName: string,
    dose: int,
    timeOfDay: Option<TimeOfDay>)

  /** `s.medicine?.target_users`: absent when the medication is missing or
      its list is null. */
  function TargetUsers(row: ScheduleRow): (t: Option<seq<string>>)
    ensures t.Some? <==> row.medicine.Some? && row.medicine.value.targetUsers.Some?
  {
    match row.medicine
    case None => None
    case Some(m) => m.targetUsers
  }

  /** The audience filter: no list means everyone; a list (even an empty
      one, which is truthy) admits exactly its members. */
  predicate IsRecipient(row: ScheduleRow, userId: string)
  {
    match TargetUsers(row)
    case None => true
    case Some(targets) => userId in targets
  }

  /** The rows whose audience includes the member, in query order. */
  function Recipients(rows: seq<ScheduleRow>, userId: string): (r: seq<ScheduleRow>)
    ensures |r| <= |rows|
    ensures forall row :: row in r <==> row in rows && IsRecipient(row, userId)
    ensures forall row :: row in rows && TargetUsers(row).None? ==> row in r
    ensures forall row :: row in rows && TargetUsers(row) == Some([]) ==> row !in r
    ensures (forall row :: row in rows ==> TargetUsers(row).None?) ==> r == rows
  {
    Filter(rows, (row: ScheduleRow) => IsRecipient(row, userId))
  }

  /** The audience filter only removes rows: it distributes over
      concatenation, so the kept rows stay in their input order. */
  lemma RecipientsKeepOrder(a: seq<ScheduleRow>, b: seq<ScheduleRow>, userId: string)
    ensures Recipients(a + b, userId) == Recipients(a, userId) + Recipients(b, userId)
  {
    FilterConcat(a, b, (row: ScheduleRow) => IsRecipient(row, userId));
  }

  /** The database condition: this member, today, and a slot in `slots`
      (a null time of day matches no slot). */
  predicate IsDue(row: ScheduleRow, userId: string, day: DayOfWeek, slots: seq<TimeOfDay>)
  {
    && row.schedule.userId == Some(userId)
    && row.schedule.day == day
    && row.schedule.timeOfDay.Some?
    && row.schedule.timeOfDay.value in slots
  }

  /** The rows the schedule query returns, in table order. */
  function DueRows(table: seq<ScheduleRow>, userId: string, day: DayOfWeek, slots: seq<TimeOfDay>): (r: seq<ScheduleRow>)
    ensures forall row :: row in r <==> row in table && IsDue(row, userId, day, slots)
  {
    Filter(table, (row: ScheduleRow) => IsDue(row, userId, day, slots))
  }

  function ToCandidate(row: ScheduleRow): Candidate
  {
    Candidate(
      row.schedule.mediId,
      match row.medicine case None => "" case Some(m) => OrElse(m.name, ""),
      row.schedule.dose,
      row.schedule.timeOfDay)
  }

  /** `getDispenseListByKitUid` over the schedule table `table`, with the
      hour and weekday passed in. */
  function DispenseListByKitUid(users: seq<User>, kUid: string, day: DayOfWeek, hour: Hour,
                                table: seq<ScheduleRow>): (r: Result<seq<Candidate>>)
    ensures r.Failure? <==> Members.FindByKUid(users, kUid).None?
    ensures r.Failure? ==> r.error == NotFound
    ensures r.Success? ==>
      var userId := users[Members.FindByKUid(users, kUid).value].userId;
      && (forall c :: c in r.value ==>
            exists row :: row in table && IsDue(row, userId, day, Clock.RemainingTimeSlots(hour))
                          && IsRecipient(row, userId) && c == ToCandidate(row))
      && (forall row ::
            (row in table && IsDue(row, userId, day, Clock.RemainingTimeSlots(hour)) && IsRecipient(row, userId))
            ==> ToCandidate(row) in r.value)
  {
    match Members.FindByKUid(users, kUid)
    case None => Failure(NotFound)
    case Some(i) =>
      var userId := users[i].userId;
      var slots := Clock.RemainingTimeSlots(hour);
      var due := DueRows(table, userId, day, slots);
      var valid := Recipients(due, userId);
      Success(Map(valid, ToCandidate))
  }

  /** Nothing earlier than the current slot is ever offered for dispensing. */
  lemma CandidatesAreUpcoming(users: seq<User>, kUid: string, day: DayOfWeek, hour: Hour,
                              table: seq<ScheduleRow>)
    requires Members.FindByKUid(users, kUid).Some?
    ensures forall c :: c in DispenseListByKitUid(users, kUid, day, hour, table).value ==>
      c.timeOfDay.Some? && Clock.Rank(c.timeOfDay.value) >= Clock.Rank(Clock.CurrentTimeOfDay(hour))
  {
    var r := DispenseListByKitUid(users, kUid, day, hour, table);
    var userId := users[Members.FindByKUid(users, kUid).value].userId;
    forall c | c in r.value
      ensures c.timeOfDay.Some? && Clock.Rank(c.timeOfDay.value) >= Clock.Rank(Clock.CurrentTimeOfDay(hour))
    {
      var row :| row in table && IsDue(row, userId, day, Clock.RemainingTimeSlots(hour))
                 && IsRecipient(row, userId) && c == ToCandidate(row);
      assert row.schedule.timeOfDay.value in Clock.RemainingTimeSlots(hour);
    }
  }

  /** One candidate per qualifying row, in table order: the list for a table
      split in two is the list for the first part followed by the list for
      the second, so duplicate rows give duplicate candidates. */
  lemma DispenseListConcat(users: seq<User>, kUid: string, day: DayOfWeek, hour: Hour,
                           a: seq<ScheduleRow>, b: seq<ScheduleRow>)
    requires Members.FindByKUid(users, kUid).Some?
    ensures DispenseListByKitUid(users, kUid, day, hour, a + b).value
         == DispenseListByKitUid(users, kUid, day, hour, a).value
          + DispenseListByKitUid(users, kUid, day, hour, b).value
  {
    var userId := users[Members.FindByKUid(users, kUid).value].userId;
    var slots := Clock.RemainingTimeSlots(hour);
    FilterConcat(a, b, (row: ScheduleRow) => IsDue(row, userId, day, slots));
    var dueA, dueB := DueRows(a, userId, day, slots), DueRows(b, userId, day, slots);
    RecipientsKeepOrder(dueA, dueB, userId);
    MapConcat(Recipients(dueA, userId), Recipients(dueB, userId), ToCandidate);
  }

  /** A single row yields exactly one candidate if it is due and the member
      is in its audience, and none otherwise. */
  lemma DispenseListOneRow(users: seq<User>, kUid: string, day: DayOfWeek, hour: Hour, row: ScheduleRow)
    requires Members.FindByKUid(users, kUid).Some?
    ensures var userId := users[Members.FindByKUid(users, kUid).value].userId;
      DispenseListByKitUid(users, kUid, day, hour, [row]).value
        == if IsDue(row, userId, day, Clock.RemainingTimeSlots(hour)) && IsRecipient(row, userId)
           then [ToCandidate(row)] else []
  {
  }

  /** The list has exactly as many candidates as the table has qualifying
      rows. */
  lemma {:induction false} DispenseListCount(users: seq<User>, kUid: string, day: DayOfWeek, hour: Hour,
                                            table: seq<ScheduleRow>)
    requires Members.FindByKUid(users, kUid).Some?
    ensures |DispenseListByKitUid(users, kUid, day, hour, table).value|
         == Qualifying(table, users[Members.FindByKUid(users, kUid).value].userId, day, hour)
    decreases |table|
  {
    if table != [] {
      assert table == table[..|table| - 1] + [table[|table| - 1]];
      DispenseListConcat(users, kUid, day, hour, table[..|table| - 1], [table[|table| - 1]]);
      DispenseListOneRow(users, kUid, day, hour, table[|table| - 1]);
      DispenseListCount(users, kUid, day, hour, table[..|table| - 1]);
    }
  }

  /** The number of rows of `table` that the member should be offered now. */
  function Qualifying(table: seq<ScheduleRow>, userId: string, day: DayOfWeek, hour: Hour): nat
    decreases |table|
  {
    if table == [] then 0
    else
      var last := table[|table| - 1];
      Qualifying(table[..|table| - 1], userId, day, hour)
        + (if IsDue(last, userId, day, Clock.RemainingTimeSlots(hour)) && IsRecipient(last, userId) then 1 else 0)
  }
}
