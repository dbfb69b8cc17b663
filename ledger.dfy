/** The inventory ledger and the dispense orchestrator's accounting, as
    functions of the stored rows: how one reported (medication, dose) item
    changes the machine stock and the low-stock warning, and how a whole
    report is folded over in input order. */
module Ledger {

  import opened Entities

  /** A stock at or below this many units after a dispense raises the warning. */
  const WarningThreshold: int := 5

  /** The stored rows the orchestrator reads and writes: machine rows keyed
      by (owner, medi_id) and medicine rows keyed by (connect, medi_id). */
  datatype Ledger = Ledger(machines: map<TenantKey, Machine>, medicines: map<TenantKey, Medicine>)

  /** One `{ medi_id, dose }` entry of a device's dispense report. */
  datatype DispenseItem = DispenseItem(mediId: string, dose: int)

  /** How one item was classed, with the name that goes into its list. */
  datatype Outcome = Skipped | Insufficient(name: string) | Processed(name: string)

  datatype Step = Step(ledger: Ledger, outcome: Outcome)

  /** The accumulated state of a report: rows so far and the two name lists. */
  datatype Tally = Tally(ledger: Ledger, processed: seq<string>, insufficient: seq<string>)

  /** `machine.medicine?.name || item.medi_id`. */
  function ReportedName(l: Ledger, key: TenantKey): (name: string)
    ensures name == key.mediId || (key in l.medicines && name == l.medicines[key].name)
    ensures key !in l.medicines ==> name == key.mediId
  {
    if key in l.medicines then OrElse(l.medicines[key].name, key.mediId) else key.mediId
  }

  /** The stock invariant 0 <= remain <= total on every machine row. */
  ghost predicate StockValid(l: Ledger)
  {
    forall k :: k in l.machines ==> 0 <= l.machines[k].remain <= l.machines[k].total
  }

  /** Every row is stored under the key its own columns give: a machine row
      under (owner, medi_id), a medicine row under (connect, medi_id). */
  ghost predicate KeysMatch(l: Ledger)
  {
    && (forall k :: k in l.machines ==> l.machines[k].owner == k.connect && l.machines[k].mediId == k.mediId)
    && (forall k :: k in l.medicines ==> l.medicines[k].connect == k.connect && l.medicines[k].mediId == k.mediId)
  }

  /** One pass of the loop body in `handleDispenseResult` for a member of
      household `connect`. */
  function ApplyItem(l: Ledger, connect: string, item: DispenseItem): (s: Step)
    // classification
    ensures s.outcome.Skipped? <==> TenantKey(connect, item.mediId) !in l.machines
    ensures s.outcome.Insufficient? <==>
      TenantKey(connect, item.mediId) in l.machines && l.machines[TenantKey(connect, item.mediId)].remain < item.dose
    ensures !s.outcome.Skipped? ==> s.outcome.name == ReportedName(l, TenantKey(connect, item.mediId))
    // an unknown medication and an insufficient stock change nothing
    ensures !s.outcome.Processed? ==> s.ledger == l
    // a dispense takes exactly `dose` from its own row and touches no other row
    ensures s.ledger.machines.Keys == l.machines.Keys && s.ledger.medicines.Keys == l.medicines.Keys
    ensures s.outcome.Processed? ==>
      var key := TenantKey(connect, item.mediId);
      s.ledger.machines == l.machines[key := l.machines[key].(remain := l.machines[key].remain - item.dose)]
    // the warning is raised at or below the threshold and never lowered
    ensures s.outcome.Processed? && TenantKey(connect, item.mediId) in l.medicines ==>
      var key := TenantKey(connect, item.mediId);
      s.ledger.medicines == l.medicines[key := l.medicines[key].(
        warning := l.medicines[key].warning || s.ledger.machines[key].remain <= WarningThreshold)]
    ensures !(s.outcome.Processed? && TenantKey(connect, item.mediId) in l.medicines) ==>
      s.ledger.medicines == l.medicines
  {
    var key := TenantKey(connect, item.mediId);
    if key !in l.machines then Step(l, Skipped)
    else
      var machine := l.machines[key];
      if machine.remain < item.dose then Step(l, Insufficient(ReportedName(l, key)))
      else
        var machine' := machine.(remain := machine.remain - item.dose);
        var medicines' :=
          if machine'.remain <= WarningThreshold && key in l.medicines
          then l.medicines[key := l.medicines[key].(warning := true)]
          else l.medicines;
        Step(Ledger(l.machines[key := machine'], medicines'), Processed(ReportedName(l, key)))
  }

  /** Adds one item's outcome to a tally. */
  function Record(t: Tally, connect: string, item: DispenseItem): (t': Tally)
  {
    var s := ApplyItem(t.ledger, connect, item);
    Tally(s.ledger,
          t.processed + (if s.outcome.Processed? then [s.outcome.name] else []),
          t.insufficient + (if s.outcome.Insufficient? then [s.outcome.name] else []))
  }

  /** Continues a tally with `items`, strictly in their order: each item
      sees the rows as the items before it left them. */
  function Resume(t: Tally, connect: string, items: seq<DispenseItem>): (t': Tally)
    decreases |items|
  {
    if items == [] then t
    else Record(Resume(t, connect, items[..|items| - 1]), connect, items[|items| - 1])
  }

  /** The rows and the two lists after a whole report. */
  function ApplyAll(l: Ledger, connect: string, items: seq<DispenseItem>): (t: Tally)
  {
    Resume(Tally(l, [], []), connect, items)
  }

  /** The loop's step over item i of a report, on each of the three paths
      of its body: `t` is the tally after the first i items. */
  lemma StepSkipped(l: Ledger, connect: string, items: seq<DispenseItem>, i: nat, t: Tally)
    requires i < |items| && ApplyAll(l, connect, items[..i]) == t
    requires TenantKey(connect, items[i].mediId) !in t.ledger.machines
    ensures ApplyAll(l, connect, items[..i + 1]) == t
  {
    assert items[..i + 1][..i] == items[..i];
  }

  lemma StepInsufficient(l: Ledger, connect: string, items: seq<DispenseItem>, i: nat, t: Tally)
    requires i < |items| && ApplyAll(l, connect, items[..i]) == t
    requires TenantKey(connect, items[i].mediId) in t.ledger.machines
    requires t.ledger.machines[TenantKey(connect, items[i].mediId)].remain < items[i].dose
    ensures ApplyAll(l, connect, items[..i + 1])
         == t.(insufficient := t.insufficient + [ReportedName(t.ledger, TenantKey(connect, items[i].mediId))])
  {
    assert items[..i + 1][..i] == items[..i];
  }

  lemma StepProcessed(l: Ledger, connect: string, items: seq<DispenseItem>, i: nat, t: Tally)
    requires i < |items| && ApplyAll(l, connect, items[..i]) == t
    requires TenantKey(connect, items[i].mediId) in t.ledger.machines
    requires t.ledger.machines[TenantKey(connect, items[i].mediId)].remain >= items[i].dose
    ensures var key := TenantKey(connect, items[i].mediId);
      var machine := t.ledger.machines[key].(remain := t.ledger.machines[key].remain - items[i].dose);
      var medicines := if machine.remain <= WarningThreshold && key in t.ledger.medicines
        then t.ledger.medicines[key := t.ledger.medicines[key].(warning := true)]
        else t.ledger.medicines;
      ApplyAll(l, connect, items[..i + 1])
        == Tally(Ledger(t.ledger.machines[key := machine], medicines),
                 t.processed + [ReportedName(t.ledger, key)], t.insufficient)
  {
    assert items[..i + 1][..i] == items[..i];
  }

  /** Processing `xs + ys` is processing `xs`, then `ys` from where it left off. */
  lemma {:induction false} ResumeConcat(t: Tally, connect: string, xs: seq<DispenseItem>, ys: seq<DispenseItem>)
    ensures Resume(t, connect, xs + ys) == Resume(Resume(t, connect, xs), connect, ys)
    decreases |ys|
  {
    if ys == [] {
      assert xs + ys == xs;
    } else {
      var zs := xs + ys;
      assert zs[..|zs| - 1] == xs + ys[..|ys| - 1];
      assert zs[|zs| - 1] == ys[|ys| - 1];
      ResumeConcat(t, connect, xs, ys[..|ys| - 1]);
    }
  }

  /** Earlier entries of the lists are never rewritten: a tally only grows at
      the end, by what the same items would produce from an empty tally. */
  lemma {:induction false} ResumeAppends(t: Tally, connect: string, items: seq<DispenseItem>)
    ensures var alone := ApplyAll(t.ledger, connect, items);
      Resume(t, connect, items)
        == Tally(alone.ledger, t.processed + alone.processed, t.insufficient + alone.insufficient)
    decreases |items|
  {
    if items != [] {
      var init := items[..|items| - 1];
      ResumeAppends(t, connect, init);
      ResumeAppends(Tally(t.ledger, [], []), connect, init);
      var p := Resume(Tally(t.ledger, [], []), connect, init);
      assert t.processed + p.processed + [] == t.processed + p.processed;
      assert t.insufficient + p.insufficient + [] == t.insufficient + p.insufficient;
    }
  }

  /** In-order accounting: a report split in two gives the concatenation of
      the lists of its halves, the second half run on the rows the first
      half left. */
  lemma ApplyAllSplits(l: Ledger, connect: string, xs: seq<DispenseItem>, ys: seq<DispenseItem>)
    ensures var a := ApplyAll(l, connect, xs);
      var b := ApplyAll(a.ledger, connect, ys);
      ApplyAll(l, connect, xs + ys) == Tally(b.ledger, a.processed + b.processed, a.insufficient + b.insufficient)
  {
    ResumeConcat(Tally(l, [], []), connect, xs, ys);
    ResumeAppends(ApplyAll(l, connect, xs), connect, ys);
  }

  /** Each item lands in at most one list. */
  lemma {:induction false} ListsBoundedByReport(l: Ledger, connect: string, items: seq<DispenseItem>)
    ensures |ApplyAll(l, connect, items).processed| + |ApplyAll(l, connect, items).insufficient| <= |items|
    decreases |items|
  {
    if items != [] {
      ListsBoundedByReport(l, connect, items[..|items| - 1]);
    }
  }

  /** A report never adds or removes rows, never renames a medication, and
      never touches another household's rows. */
  lemma {:induction false} ApplyAllStaysInHousehold(l: Ledger, connect: string, items: seq<DispenseItem>)
    ensures var l' := ApplyAll(l, connect, items).ledger;
      && l'.machines.Keys == l.machines.Keys
      && l'.medicines.Keys == l.medicines.Keys
      && (forall k :: k in l.medicines ==> l'.medicines[k].name == l.medicines[k].name)
      && (forall k :: k in l.machines && k.connect != connect ==> l'.machines[k] == l.machines[k])
      && (forall k :: k in l.medicines && k.connect != connect ==> l'.medicines[k] == l.medicines[k])
    decreases |items|
  {
    if items != [] {
      ApplyAllStaysInHousehold(l, connect, items[..|items| - 1]);
    }
  }

  /** A report only changes `remain` and `warning`, so every row keeps the
      key its columns give. */
  lemma {:induction false} ApplyAllKeepsKeysMatched(l: Ledger, connect: string, items: seq<DispenseItem>)
    requires KeysMatch(l)
    ensures KeysMatch(ApplyAll(l, connect, items).ledger)
    decreases |items|
  {
    if items != [] {
      ApplyAllKeepsKeysMatched(l, connect, items[..|items| - 1]);
    }
  }

  /** With rows stored under their own keys, the machine rows a report
      changes all belong to the reporting household. */
  lemma ReportChangesOwnRowsOnly(l: Ledger, connect: string, items: seq<DispenseItem>)
    requires KeysMatch(l)
    ensures var l' := ApplyAll(l, connect, items).ledger;
      forall k :: k in l.machines && k in l'.machines && l'.machines[k] != l.machines[k] ==>
        l.machines[k].owner == connect
  {
    ApplyAllStaysInHousehold(l, connect, items);
  }

  /** A raised warning stays raised for the rest of the report. */
  lemma {:induction false} WarningIsSticky(l: Ledger, connect: string, items: seq<DispenseItem>, k: TenantKey)
    requires k in l.medicines && l.medicines[k].warning
    ensures k in ApplyAll(l, connect, items).ledger.medicines
    ensures ApplyAll(l, connect, items).ledger.medicines[k].warning
    decreases |items|
  {
    if items != [] {
      WarningIsSticky(l, connect, items[..|items| - 1], k);
    }
  }

  /** With non-negative doses, 0 <= remain <= total survives any report. */
  lemma {:induction false} StockStaysValid(l: Ledger, connect: string, items: seq<DispenseItem>)
    requires StockValid(l)
    requires forall i :: 0 <= i < |items| ==> items[i].dose >= 0
    ensures StockValid(ApplyAll(l, connect, items).ledger)
    decreases |items|
  {
    if items != [] {
      StockStaysValid(l, connect, items[..|items| - 1]);
    }
  }

  /** Without the guard the code lacks, a negative dose passes the stock
      check and raises the stock instead of lowering it. */
  lemma NegativeDoseRaisesStock(l: Ledger, connect: string, item: DispenseItem)
    requires TenantKey(connect, item.mediId) in l.machines
    requires item.dose < 0 <= l.machines[TenantKey(connect, item.mediId)].remain
    ensures ApplyItem(l, connect, item).outcome.Processed?
    ensures ApplyItem(l, connect, item).ledger.machines[TenantKey(connect, item.mediId)].remain
          > l.machines[TenantKey(connect, item.mediId)].remain
  {
  }

  /** An item for a medication the household's machine does not hold is
      invisible: the report behaves as if it were not there. */
  lemma UnknownMedicationIsIgnored(l: Ledger, connect: string, xs: seq<DispenseItem>,
                                   item: DispenseItem, ys: seq<DispenseItem>)
    requires TenantKey(connect, item.mediId) !in l.machines
    ensures ApplyAll(l, connect, xs + [item] + ys) == ApplyAll(l, connect, xs + ys)
  {
    var a := ApplyAll(l, connect, xs);
    ApplyAllStaysInHousehold(l, connect, xs);
    ApplyAllSplits(l, connect, xs, [item]);
    var withItem := ApplyAll(l, connect, xs + [item]);
    assert ApplyAll(a.ledger, connect, [item]) == Tally(a.ledger, [], []);
    assert withItem == a by {
      assert a.processed + [] == a.processed;
      assert a.insufficient + [] == a.insufficient;
    }
    ApplyAllSplits(l, connect, xs + [item], ys);
    ApplyAllSplits(l, connect, xs, ys);
  }

  /** Two items for the same medication: the second is judged against the
      stock the first one left, so it can fall short where it alone would not. */
  lemma LaterItemSeesEarlierDispense(l: Ledger, connect: string, first: DispenseItem, second: DispenseItem)
    requires first.mediId == second.mediId
    requires TenantKey(connect, first.mediId) in l.machines
    requires 0 <= first.dose <= l.machines[TenantKey(connect, first.mediId)].remain
    requires l.machines[TenantKey(connect, first.mediId)].remain - first.dose < second.dose
    ensures var name := ReportedName(l, TenantKey(connect, first.mediId));
      var t := ApplyAll(l, connect, [first, second]);
      && t.processed == [name]
      && t.insufficient == [name]
      && TenantKey(connect, first.mediId) in t.ledger.machines
      && t.ledger.machines[TenantKey(connect, first.mediId)].remain
         == l.machines[TenantKey(connect, first.mediId)].remain - first.dose
  {
    var key := TenantKey(connect, first.mediId);
    assert [first, second][..1] == [first];
    assert [first][..0] == [];
    var t0 := Tally(l, [], []);
    assert Resume(t0, connect, []) == t0;
    var one := ApplyAll(l, connect, [first]);
    assert one == Record(t0, connect, first);
    assert one.ledger.machines[key].remain == l.machines[key].remain - first.dose;
    assert ReportedName(one.ledger, key) == ReportedName(l, key);
    assert ApplyAll(l, connect, [first, second]) == Record(one, connect, second);
  }

  /** End to end, a low stock: six units left and two dispensed leave four,
      raise the warning and report the medication as processed. */
  lemma LowStockDispense(l: Ledger, connect: string, item: DispenseItem)
    requires TenantKey(connect, item.mediId) in l.machines && TenantKey(connect, item.mediId) in l.medicines
    requires l.machines[TenantKey(connect, item.mediId)].remain == 6 && item.dose == 2
    ensures var key := TenantKey(connect, item.mediId);
      var t := ApplyAll(l, connect, [item]);
      && t.processed == [ReportedName(l, key)] && t.insufficient == []
      && key in t.ledger.machines && t.ledger.machines[key].remain == 4
      && key in t.ledger.medicines && t.ledger.medicines[key].warning
  {
    assert [item][..0] == [];
    assert Resume(Tally(l, [], []), connect, []) == Tally(l, [], []);
  }

  /** End to end, a shortfall: one unit left and two requested leave the
      rows as they were and report the medication as insufficient. */
  lemma ShortfallDispense(l: Ledger, connect: string, item: DispenseItem)
    requires TenantKey(connect, item.mediId) in l.machines
    requires l.machines[TenantKey(connect, item.mediId)].remain == 1 && item.dose == 2
    ensures var t := ApplyAll(l, connect, [item]);
      && t.processed == [] && t.insufficient == [ReportedName(l, TenantKey(connect, item.mediId))]
      && t.ledger == l
  {
    assert [item][..0] == [];
    assert Resume(Tally(l, [], []), connect, []) == Tally(l, [], []);
  }
}
