/** Member lookups and the daily intake marker `took_today`: a two-state
    machine per member, set once by intake confirmation and cleared for
    everyone by the nightly reset. */
module Members {

  import opened Entities
  import opened Seqs

  /** `findOne({ where: { k_uid } })`: the first member holding the token. */
  function FindByKUid(users: seq<User>, kUid: string): (r: Option<nat>)
    ensures r.Some? ==> r.value < |users| && users[r.value].kUid == Some(kUid)
    ensures r.None? <==> forall j :: 0 <= j < |users| ==> users[j].kUid != Some(kUid)
  {
    FirstIndex(users, (u: User) => u.kUid == Some(kUid))
  }

  /** `findOne({ where: { m_uid } })`: the first member linked to the device. */
  function FindByMUid(users: seq<User>, mUid: string): (r: Option<nat>)
    ensures r.Some? ==> r.value < |users| && users[r.value].mUid == Some(mUid)
    ensures r.None? <==> forall j :: 0 <= j < |users| ==> users[j].mUid != Some(mUid)
  {
    FirstIndex(users, (u: User) => u.mUid == Some(mUid))
  }

  datatype IntakeStatus = Confirmed(userId: string) | AlreadyConfirmed

  /** The member table after a confirmation, and what the caller is told. */
  datatype Intake = Intake(users: seq<User>, status: Result<IntakeStatus>)

  /** `confirmIntake`: an unknown token is NotFound; a marker already at 1
      is reported and left alone; any other marker value becomes 1. */
  function Confirm(users: seq<User>, kUid: string): (c: Intake)
    ensures |c.users| == |users|
    ensures c.status.Failure? <==> FindByKUid(users, kUid).None?
    ensures c.status.Failure? ==> c.status.error == NotFound
    ensures c.status == Success(AlreadyConfirmed) ==> c.users == users
    ensures c.status.Failure? ==> c.users == users
    ensures FindByKUid(users, kUid).Some? ==>
      var i := FindByKUid(users, kUid).value;
      && (c.status == Success(AlreadyConfirmed) <==> users[i].tookToday == 1)
      && (c.status.Success? && c.status.value.Confirmed? ==> c.status.value.userId == users[i].userId)
      && c.users[i] == users[i].(tookToday := 1)
      && forall j :: 0 <= j < |users| && j != i ==> c.users[j] == users[j]
  {
    match FindByKUid(users, kUid)
    case None => Intake(users, Failure(NotFound))
    case Some(i) =>
      if users[i].tookToday == 1 then Intake(users, Success(AlreadyConfirmed))
      else Intake(users[i := users[i].(tookToday := 1)], Success(Confirmed(users[i].userId)))
  }

  /** Only the marker changes, so a token resolves to the same member after a
      confirmation or a reset. */
  lemma TokenLookupIgnoresMarker(users: seq<User>, users': seq<User>, kUid: string)
    requires |users'| == |users|
    requires forall j :: 0 <= j < |users| ==> users'[j].kUid == users[j].kUid
    ensures FindByKUid(users', kUid) == FindByKUid(users, kUid)
  {
  }

  /** Confirming twice: the second call reports `already_confirmed` and
      changes nothing. */
  lemma ConfirmIdempotent(users: seq<User>, kUid: string)
    ensures var first := Confirm(users, kUid);
      FindByKUid(users, kUid).Some? ==> Confirm(first.users, kUid) == Intake(first.users, Success(AlreadyConfirmed))
    ensures var first := Confirm(users, kUid);
      FindByKUid(users, kUid).None? ==> Confirm(first.users, kUid) == first
  {
  }

  /** `resetTookToday`: one bulk update setting every marker to 0. */
  function ResetAll(users: seq<User>): (r: seq<User>)
    ensures |r| == |users|
    ensures forall j :: 0 <= j < |users| ==> r[j] == users[j].(tookToday := 0)
  {
    Map(users, (u: User) => u.(tookToday := 0))
  }

  /** After the nightly reset every registered member can confirm again, and
      the confirmation is recorded. */
  lemma ResetReopensConfirmation(users: seq<User>, kUid: string)
    requires FindByKUid(users, kUid).Some?
    ensures var i := FindByKUid(users, kUid).value;
      var c := Confirm(ResetAll(users), kUid);
      && c.status == Success(Confirmed(users[i].userId))
      && c.users[i].tookToday == 1
  {
  }

  /** Resetting twice is the same as resetting once. */
  lemma ResetIdempotent(users: seq<User>)
    ensures ResetAll(ResetAll(users)) == ResetAll(users)
  {
  }
}
