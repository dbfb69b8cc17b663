/** Record shapes and enumerations of the dispenser's tables (users, medicine,
    machine, schedule), without their persistence mapping. */
module Entities {

  datatype Option<+T> = None | Some(value: T)

  /** The service's one domain error that reaches the caller as a value. */
  datatype ServiceError = NotFound

  datatype Result<+T> = Success(value: T) | Failure(error: ServiceError)

  datatype DayOfWeek = Mon | Tue | Wed | Thu | Fri | Sat | Sun

  datatype TimeOfDay = Morning | Afternoon | Evening

  datatype Role = Parent | Child

  /** An hour of the local wall clock, as `Date.getHours` reports it. */
  type Hour = h: int | 0 <= h < 24

  /** A household member. `connect` is the household-group id, `mUid` the
      device id shared by the household, `kUid` the member's RFID token. */
  datatype User = User(
    userId: string,
    connect: string,
    mUid: Option<string>,
    kUid: Option<string>,
    name: string,
    role: Role,
    tookToday: int,
    age: Option<int>)

  /** A medication, scoped to one household by the key (mediId, connect). */
  datatype Medicine = Medicine(
    mediId: string,
    connect: string,
    name: string,
    warning: bool,
    targetUsers: Option<seq<string>>)

  /** A machine row: the stock of one medication loaded in one device slot. */
  datatype Machine = Machine(
    machineId: string,
    mediId: string,
    owner: string,
    total: int,
    remain: int,
    slot: Option<int>,
    maxSlot: int)

  datatype Schedule = Schedule(
    scheduleId: string,
    connect: string,
    userId: Option<string>,
    mediId: Option<string>,
    day: DayOfWeek,
    timeOfDay: Option<TimeOfDay>,
    dose: int)

  /** The tenant-scoped key shared by machine rows (owner, medi_id) and
      medicine rows (connect, medi_id): a household id and a local medication id. */
  datatype TenantKey = TenantKey(connect: string, mediId: string)

  /** JavaScript's `s || fallback` on strings: the empty string is falsy. */
  function OrElse(s: string, fallback: string): (r: string)
    ensures r == s || r == fallback
    ensures r == fallback <==> s == [] || s == fallback
  {
    if s != [] then s else fallback
  }
}
