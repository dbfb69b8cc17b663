/** The slot-status summary of a device: a dense list of slots 1..max_slot
    built from the sparse machine rows of the household. */
module SlotStatus {

  import opened Entities
  import opened Seqs
  import Members

  /** A machine row as the query loads it, with its medication joined. */
  datatype SlotRow = SlotRow(machine: Machine, medicine: Option<Medicine>)

  datatype SlotMedicine = SlotMedicine(mediId: string, name: string, remain: int, total: int, warning: bool)

  datatype SlotEntry = SlotEntry(slot: int, isOccupied: bool, medicine: Option<SlotMedicine>)

  datatype SlotReport = SlotReport(machineId: string, maxSlot: int, occupiedSlots: nat, slots: seq<SlotEntry>)

  /** The slot count assumed when the first row gives none. */
  const DefaultMaxSlot: int := 3

  /** `machines[0]?.max_slot || 3`: no rows, or a first row whose max_slot
      is 0 (falsy), gives the default. */
  function MaxSlot(rows: seq<SlotRow>): (n: int)
    ensures n != 0
    ensures n == DefaultMaxSlot || (rows != [] && n == rows[0].machine.maxSlot)
    ensures rows != [] && rows[0].machine.maxSlot != 0 ==> n == rows[0].machine.maxSlot
  {
    if rows == [] || rows[0].machine.maxSlot == 0 then DefaultMaxSlot else rows[0].machine.maxSlot
  }

  function Describe(row: SlotRow): SlotMedicine
  {
    SlotMedicine(
      row.machine.mediId,
      match row.medicine case None => "" case Some(m) => OrElse(m.name, ""),
      row.machine.remain,
      row.machine.total,
      match row.medicine case None => false case Some(m) => m.warning)
  }

  predicate InSlot(row: SlotRow, n: int)
  {
    row.machine.slot == Some(n)
  }

  /** What slot `n` shows: the first row loaded in it, if any. */
  function EntryFor(rows: seq<SlotRow>, n: int): (e: SlotEntry)
    ensures e.slot == n
    ensures e.isOccupied <==> exists j :: 0 <= j < |rows| && InSlot(rows[j], n)
    ensures e.isOccupied <==> e.medicine.Some?
    ensures e.isOccupied ==>
      exists j :: 0 <= j < |rows| && InSlot(rows[j], n) && e.medicine.value == Describe(rows[j])
        && forall i :: 0 <= i < j ==> !InSlot(rows[i], n)
  {
    match FirstIndex(rows, (row: SlotRow) => InSlot(row, n))
    case None => SlotEntry(n, false, None)
    case Some(j) => SlotEntry(n, true, Some(Describe(rows[j])))
  }

  /** The slot array of `getSlotStatusByMuid`, built by the index loop over
      1..max_slot. */
  method BuildSlotStatus(machineId: string, rows: seq<SlotRow>) returns (report: SlotReport)
    ensures report.machineId == machineId
    ensures report.maxSlot == MaxSlot(rows)
    ensures report.occupiedSlots == |rows|
    ensures |report.slots| == if MaxSlot(rows) > 0 then MaxSlot(rows) else 0
    ensures forall i :: 0 <= i < |report.slots| ==> report.slots[i] == EntryFor(rows, i + 1)
    ensures forall i :: 0 <= i < |report.slots| ==>
      (report.slots[i].isOccupied <==> exists j :: 0 <= j < |rows| && InSlot(rows[j], i + 1))
  {
    var maxSlot := MaxSlot(rows);
    var slots: seq<SlotEntry> := [];
    var i := 1;
    while i <= maxSlot
      invariant 1 <= i
      invariant i <= (if maxSlot > 0 then maxSlot else 0) + 1
      invariant |slots| == i - 1
      invariant forall k :: 0 <= k < |slots| ==> slots[k] == EntryFor(rows, k + 1)
    {
      var found := FirstIndex(rows, (row: SlotRow) => InSlot(row, i));
      var entry := match found
        case None => SlotEntry(i, false, None)
        case Some(j) => SlotEntry(i, true, Some(Describe(rows[j])));
      slots := slots + [entry];
      i := i + 1;
    }
    report := SlotReport(machineId, maxSlot, |rows|, slots);
  }

  /** The household's machine rows (`where: { owner }`), in table order. */
  function HouseholdRows(table: seq<SlotRow>, connect: string): (rows: seq<SlotRow>)
    ensures |rows| <= |table|
    ensures forall row :: row in rows <==> row in table && row.machine.owner == connect
  {
    Filter(table, (row: SlotRow) => row.machine.owner == connect)
  }

  /** `getSlotStatusByMuid` over the machine table `table`: the device must
      be linked to a member, and the layout is built from that member's
      household rows. */
  method SlotStatusByMuid(users: seq<User>, mUid: string, table: seq<SlotRow>) returns (r: Result<SlotReport>)
    ensures r.Failure? <==> Members.FindByMUid(users, mUid).None?
    ensures r.Failure? ==> r.error == NotFound
    ensures r.Success? ==>
      var rows := HouseholdRows(table, users[Members.FindByMUid(users, mUid).value].connect);
      && r.value.machineId == mUid
      && r.value.maxSlot == MaxSlot(rows)
      && r.value.occupiedSlots == |rows|
      && |r.value.slots| == (if MaxSlot(rows) > 0 then MaxSlot(rows) else 0)
      && forall i :: 0 <= i < |r.value.slots| ==> r.value.slots[i] == EntryFor(rows, i + 1)
  {
    var found := Members.FindByMUid(users, mUid);
    if found.None? {
      return Failure(NotFound);
    }
    var rows := HouseholdRows(table, users[found.value].connect);
    var report := BuildSlotStatus(mUid, rows);
    r := Success(report);
  }

  /** Another household's machine rows never show up in a device's layout. */
  lemma OtherHouseholdsInvisible(users: seq<User>, mUid: string, table: seq<SlotRow>, other: seq<SlotRow>)
    requires Members.FindByMUid(users, mUid).Some?
    requires forall row :: row in other ==> row.machine.owner != users[Members.FindByMUid(users, mUid).value].connect
    ensures var connect := users[Members.FindByMUid(users, mUid).value].connect;
      HouseholdRows(table + other, connect) == HouseholdRows(table, connect)
  {
    var connect := users[Members.FindByMUid(users, mUid).value].connect;
    FilterConcat(table, other, (row: SlotRow) => row.machine.owner == connect);
  }

  /** With no rows the device shows three empty slots. */
  lemma EmptyDeviceShowsThreeFreeSlots()
    ensures MaxSlot([]) == 3
    ensures forall n :: !EntryFor([], n).isOccupied
  {
  }
}
