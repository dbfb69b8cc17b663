# Medication dispenser: dispense and inventory engine

A Dafny model of the decision logic of the dispenser service of a shared
household medication dispenser. A household ("connect" group) shares one
device; each member has an RFID token (`k_uid`) and a daily intake marker
(`took_today`); each medication is scoped to one household and is loaded,
with a stock count, in one slot of the device.

The model covers:

- **Clock resolver** (`Clock`): the current time-of-day slot for an hour,
  and the slots still ahead today.
- **Dispense candidates** (`DispenseList`): the member's schedule entries for
  today in the remaining slots, passed through the medication's
  `target_users` audience filter.
- **Inventory ledger** (`Ledger`): how one reported `(medi_id, dose)` item
  changes the machine stock and the medication's low-stock warning, and how a
  whole report is folded over in input order into the `processed` and
  `insufficient` name lists. These are the specification functions.
- **Service state** (`Service.DispenserService`): a class holding the users
  table and the machine and medicine rows as maps keyed by
  (household, medication). Its `HandleDispenseResult` loop decrements stock
  in place and is proved equal to the ledger specification. `ConfirmIntake`
  and `ResetTookToday` run the per-member intake marker.
- **Intake marker** (`Members`): member lookup by token or device, the
  confirm/already-confirmed state machine and the nightly reset.
- **Slot layout** (`SlotStatus`): the dense slot array `1..max_slot` built by
  an index loop from the sparse machine rows.

Behaviour kept exactly as the code has it, including where it is probably
not what was meant:

- An empty JSON array is truthy, so `target_users = []` admits nobody,
  not everybody (`DispenseList.Recipients`). Only an absent or null list
  admits every member.
- A dispense should never raise the stock, but the code never rejects a
  negative dose: it passes the `remain < dose` test and raises the stock
  (`Ledger.NegativeDoseRaisesStock`). The model keeps the unguarded
  behaviour. `Ledger.StockStaysValid` proves `0 <= remain <= total` only for
  reports whose doses are all non-negative. A successful dispense never
  drives `remain` below 0, whatever the dose.
- `max_slot || 3` also falls back to 3 when the first row's `max_slot` is 0,
  and a negative `max_slot` yields no slots (`SlotStatus.MaxSlot`).
- The warning update on the medicine table is a no-op when the household has
  no medicine row for that medication. The reported name then falls back to
  `medi_id`, as it does for an empty name.
- `confirmIntake` tests `took_today === 1`. Any other value, not only 0, is
  overwritten with 1 and reported as confirmed.

The stored rows are maps keyed by (household, medication).
`Ledger.KeysMatch` says that every row sits under the key its own `owner` or
`connect` and `medi_id` columns give, and a report preserves it.

Wall-clock time comes in as parameters: the hour (`Hour`, 0..23) and the
weekday (`DayOfWeek`).

## Model

| member | source | states |
|---|---|---|
| Clock.CurrentTimeOfDay | src/dispenser/dispenser.service.ts:69-72 | morning iff hour < 12, afternoon iff 12 <= hour < 18, evening iff hour >= 18 |
| Clock.RemainingTimeSlots | src/dispenser/dispenser.service.ts:243-248 | the suffix of [morning, afternoon, evening] that starts at the current slot; length 3, 2 or 1 for the three bands; its first element is the current slot; it holds exactly the slots not earlier than the current one |
| Clock.RemainingSlotsShrink | src/dispenser/dispenser.service.ts:243-248 | for a later hour the remaining slots are a suffix of those for an earlier hour |
| Members.FindByKUid | src/dispenser/dispenser.service.ts:124-127 | a found index holds a member with that token; none is found iff no member holds it |
| Members.FindByMUid | src/dispenser/dispenser.service.ts:467-470 | a found index holds a member linked to that device; none is found iff no member is |
| Members.Confirm | src/dispenser/dispenser.service.ts:122-148 | NotFound iff the token is unknown, with no change; already_confirmed iff the marker is 1, with no change; otherwise that member's marker becomes 1, the result carries their user id, and every other member is unchanged |
| Members.TokenLookupIgnoresMarker | src/dispenser/dispenser.service.ts:124-127 | two member tables that agree on every token resolve a token to the same member, so changing markers never changes who a token names |
| Members.ConfirmIdempotent | src/dispenser/dispenser.service.ts:129-143 | a second confirmation of the same token reports already_confirmed and changes nothing |
| Members.ResetAll | src/dispenser/dispenser.service.ts:51-55 | every member's marker becomes 0 and nothing else changes |
| Members.ResetReopensConfirmation | src/dispenser/dispenser.service.ts:51-55 | after the reset every registered member's confirmation succeeds and sets their marker to 1 |
| Members.ResetIdempotent | src/dispenser/dispenser.service.ts:51-55 | resetting twice equals resetting once |
| DispenseList.Recipients | src/dispenser/dispenser.service.ts:260-263 | keeps a row iff it has no target list or the member is in it; rows without a target list are always kept; an empty list keeps none; never adds rows |
| DispenseList.RecipientsKeepOrder | src/dispenser/dispenser.service.ts:260-263 | the filter distributes over concatenation, so kept rows stay in input order |
| DispenseList.DueRows | src/dispenser/dispenser.service.ts:249-256 | keeps exactly the table's rows for this member, today's weekday and a slot still ahead |
| DispenseList.DispenseListByKitUid | src/dispenser/dispenser.service.ts:232-270 | NotFound iff the token is unknown; otherwise a row yields a candidate iff it is the member's, for today, in a remaining slot, and the member is in its audience (how many candidates, and in which order: `DispenseListConcat`, `DispenseListOneRow`, `DispenseListCount`) |
| DispenseList.CandidatesAreUpcoming | src/dispenser/dispenser.service.ts:243-257 | every candidate's slot is the current one or a later one |
| DispenseList.DispenseListConcat | src/dispenser/dispenser.service.ts:249-270 | the list for a table a + b is the list for a followed by the list for b: one candidate per qualifying row, in table order, duplicates kept |
| DispenseList.DispenseListOneRow | src/dispenser/dispenser.service.ts:249-270 | a one-row table yields [the row's candidate] if the row is due and the member is in its audience, and [] otherwise |
| DispenseList.DispenseListCount | src/dispenser/dispenser.service.ts:249-270 | the list has exactly as many candidates as the table has qualifying rows |
| Ledger.ApplyItem | src/dispenser/dispenser.service.ts:294-328 | skipped iff no machine row for (household, medication); insufficient iff remain < dose; neither case changes any row; a dispense lowers that row's remain by exactly dose and changes no other machine row; the medication's warning becomes set iff it was set or this dispense left remain <= 5, and no other medicine row changes; the name is the medication's name or else medi_id |
| Ledger.ResumeConcat | src/dispenser/dispenser.service.ts:292-333 | processing xs + ys equals processing xs and then ys from the state xs left |
| Ledger.ResumeAppends | src/dispenser/dispenser.service.ts:289-333 | the loop only appends to the two lists, never rewriting earlier entries |
| Ledger.ApplyAllSplits | src/dispenser/dispenser.service.ts:289-339 | the lists of a split report are the concatenation of the lists of its halves, the second run on the rows the first left |
| Ledger.ListsBoundedByReport | src/dispenser/dispenser.service.ts:289-339 | the processed and insufficient counts add up to at most the number of items reported |
| Ledger.ApplyAllStaysInHousehold | src/dispenser/dispenser.service.ts:294-323 | a report adds and removes no rows, renames no medication, and leaves every other household's machine and medicine rows unchanged |
| Ledger.ApplyAllKeepsKeysMatched | src/dispenser/dispenser.service.ts:302-325 | if every row is stored under the key its owner/connect and medi_id columns give, that still holds after any report |
| Ledger.ReportChangesOwnRowsOnly | src/dispenser/dispenser.service.ts:302-316 | with rows under their own keys, every machine row a report changes has the reporting household as owner |
| Ledger.WarningIsSticky | src/dispenser/dispenser.service.ts:319-325 | a warning that is set stays set through any report |
| Ledger.StockStaysValid | src/dispenser/dispenser.service.ts:307-316 | with non-negative doses, 0 <= remain <= total on every row is preserved by any report |
| Ledger.NegativeDoseRaisesStock | src/dispenser/dispenser.service.ts:307-316 | a negative dose against a non-negative stock is processed and increases remain |
| Ledger.UnknownMedicationIsIgnored | src/dispenser/dispenser.service.ts:302-305 | an item with no machine row for the household changes neither list nor any row, wherever it sits in the report |
| Ledger.LaterItemSeesEarlierDispense | src/dispenser/dispenser.service.ts:292-316 | a second item for the same medication is judged against the stock the first one left |
| Ledger.LowStockDispense | src/dispenser/dispenser.service.ts:315-328 | remain 6 and dose 2 give remain 4, the warning set, processed = [name], insufficient = [] |
| Ledger.ShortfallDispense | src/dispenser/dispenser.service.ts:307-313 | remain 1 and dose 2 leave every row unchanged, processed = [], insufficient = [name] |
| SlotStatus.MaxSlot | src/dispenser/dispenser.service.ts:478 | the first row's max_slot when there is a first row and its max_slot is nonzero, otherwise 3 |
| SlotStatus.EntryFor | src/dispenser/dispenser.service.ts:492-505 | slot n is occupied iff some row is in slot n, and then shows the first such row's medication |
| SlotStatus.HouseholdRows | src/dispenser/dispenser.service.ts:472-476 | keeps exactly the machine rows whose owner is the household |
| SlotStatus.BuildSlotStatus | src/dispenser/dispenser.service.ts:478-513 | the array has max(maxSlot, 0) entries; entry i is slot i+1 and is occupied iff some row has that slot; occupied_slots is the number of rows |
| SlotStatus.SlotStatusByMuid | src/dispenser/dispenser.service.ts:465-513 | NotFound iff no member is linked to the device; otherwise, over the household's rows (owner = the member's connect, lines 472-476), max_slot, occupied_slots = the number of those rows, and one entry per slot 1..max_slot showing the first row in it |
| SlotStatus.OtherHouseholdsInvisible | src/dispenser/dispenser.service.ts:472-476 | adding another household's machine rows to the table leaves the device's rows unchanged |
| SlotStatus.EmptyDeviceShowsThreeFreeSlots | src/dispenser/dispenser.service.ts:478-506 | with no rows, max_slot is 3 and no slot is occupied |
| Service.DispenserService.HandleDispenseResult | src/dispenser/dispenser.service.ts:279-344 | NotFound iff the token is unknown, with no change; otherwise the loop leaves the rows and the two lists exactly as the ledger fold gives them, and the users are unchanged; rows stored under their own keys stay so |
| Service.DispenserService.ConfirmIntake | src/dispenser/dispenser.service.ts:122-148 | the new users table and the result are those of Members.Confirm; stock rows unchanged |
| Service.DispenserService.ResetTookToday | src/dispenser/dispenser.service.ts:47-64 | the users table becomes Members.ResetAll of the old one; stock rows unchanged |

## Left out

- The wall clock and locale (`new Date().getHours()`, `toLocaleDateString`): the hour and the weekday are parameters, so `getCurrentDayOfWeek` has no counterpart.
- The SQL queries themselves: `DispenseListByKitUid` and `SlotStatusByMuid` filter a given schedule or machine table in table order. The `ORDER BY slot` of the machine query is not modelled: the table is taken in the order the database returns it.
- `findOne` lookups are modelled as the first matching row. Machine rows are keyed by (owner, medi_id), so two machine rows of one household holding the same medication are not modelled.
- A member with a null `connect` is not modelled: the household id is always a string.
- Doses and stock are unbounded integers. JavaScript numbers are doubles; fractional doses and the database's integer column widths are not modelled.
- The human-readable `message` of `handleDispenseResult`: a formatted string of the two list lengths, which the model returns as the lists themselves.
- Logging, `handleError`'s conversion to an internal-server-error exception, and storage failures: the model has no failing storage.
- The cron schedule of `resetTookToday` and its swallow-and-log error path. Concurrency and the atomicity of the read-modify-write on `remain`: each call runs sequentially.
- `authenticateByUid` (its QR payload carries a timestamp), `getTodayScheduleByConnect`, `getTodayScheduleByUser`, `getMedicineListByConnect`, `getUsersByMuid` and `getTodaySchedulesByMuid`: database reads with field renaming and SQL ordering, no decision logic.
- `getMachineStatusByMuid`'s `usage_rate`: a `Math.round` over a floating-point division.
- Entity columns no operation of the core reads or writes: passwords, refresh tokens, birth dates, error status, validity dates, creation timestamps. The TypeORM relations are replaced by the joined rows and the tenant-keyed maps.
- The HTTP controller and the module wiring.
