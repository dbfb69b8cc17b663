/** The dispenser service's stored state and its state-changing operations:
    dispense-result processing, intake confirmation and the nightly reset. */
module Service {

  import opened Entities
  import opened Ledger
  import Members

  /** `{ status: 'completed', processed, insufficient }`. */
  datatype DispenseReport = DispenseReport(processed: seq<string>, insufficient: seq<string>)

  class DispenserService {
    /** The users table, in lookup order. */
    var users: seq<User>
    /** Machine rows by (owner, medi_id). */
    var machines: map<TenantKey, Machine>
    /** Medicine rows by (connect, medi_id). */
    var medicines: map<TenantKey, Medicine>

    function Inventory(): (l: Ledger)
      reads this
      ensures l.machines == machines && l.medicines == medicines
    {
      Ledger(machines, medicines)
    }

    constructor (users0: seq<User>, machines0: map<TenantKey, Machine>, medicines0: map<TenantKey, Medicine>)
      ensures users == users0 && machines == machines0 && medicines == medicines0
    {
      users, machines, medicines := users0, machines0, medicines0;
    }

    /** `handleDispenseResult`: resolves the reporting member's household,
        then walks the report in order, decrementing stock, raising low-stock
        warnings and sorting names into `processed` and `insufficient`. */
    method HandleDispenseResult(kUid: string, dispenseList: seq<DispenseItem>) returns (r: Result<DispenseReport>)
      modifies this
      ensures users == old(users)
      ensures r.Failure? <==> Members.FindByKUid(users, kUid).None?
      ensures r.Failure? ==> r.error == NotFound && Inventory() == old(Inventory())
      ensures r.Success? ==>
        var t := ApplyAll(old(Inventory()), users[Members.FindByKUid(users, kUid).value].connect, dispenseList);
        && Inventory() == t.ledger
        && r.value == DispenseReport(t.processed, t.insufficient)
    ensures KeysMatch(old(Inventory())) ==> KeysMatch(Inventory())
    {
      var found := Members.FindByKUid(users, kUid);
      if found.None? {
        return Failure(NotFound);
      }
      var connect := users[found.value].connect;
      ghost var start := Inventory();
      var processed: seq<string> := [];
      var insufficient: seq<string> := [];
      var i := 0;
      while i < |dispenseList|
        invariant 0 <= i <= |dispenseList|
        invariant users == old(users)
        invariant ApplyAll(start, connect, dispenseList[..i]) == Tally(Ledger(machines, medicines), processed, insufficient)
      {
        var item := dispenseList[i];
        ghost var before := Tally(Ledger(machines, medicines), processed, insufficient);
        var key := TenantKey(connect, item.mediId);
        if key !in machines {
          StepSkipped(start, connect, dispenseList, i, before);
        } else {
          var machine := machines[key];
          var name := ReportedName(Ledger(machines, medicines), key);
          if machine.remain < item.dose {
            StepInsufficient(start, connect, dispenseList, i, before);
            insufficient := insufficient + [name];
          } else {
            StepProcessed(start, connect, dispenseList, i, before);
            machine := machine.(remain := machine.remain - item.dose);
            if machine.remain <= WarningThreshold && key in medicines {
              medicines := medicines[key := medicines[key].(warning := true)];
            }
            machines := machines[key := machine];
            processed := processed + [name];
          }
        }
        i := i + 1;
      }
      assert dispenseList[..i] == dispenseList;
      assert KeysMatch(start) ==> KeysMatch(ApplyAll(start, connect, dispenseList).ledger) by {
        if KeysMatch(start) {
          ApplyAllKeepsKeysMatched(start, connect, dispenseList);
        }
      }
      r := Success(DispenseReport(processed, insufficient));
    }

    /** `confirmIntake`: marks the token's member as having taken today's
        medication, once. */
    method ConfirmIntake(kUid: string) returns (r: Result<Members.IntakeStatus>)
      modifies this
      ensures Members.Intake(users, r) == Members.Confirm(old(users), kUid)
      ensures machines == old(machines) && medicines == old(medicines)
    {
      var found := Members.FindByKUid(users, kUid);
      if found.None? {
        return Failure(NotFound);
      }
      var i := found.value;
      if users[i].tookToday == 1 {
        return Success(Members.AlreadyConfirmed);
      }
      users := users[i := users[i].(tookToday := 1)];
      r := Success(Members.Confirmed(users[i].userId));
    }

    /** `resetTookToday`: the nightly bulk update of every member's marker. */
    method ResetTookToday()
      modifies this
      ensures users == Members.ResetAll(old(users))
      ensures machines == old(machines) && medicines == old(medicines)
    {
      users := Members.ResetAll(users);
    }
  }
}
