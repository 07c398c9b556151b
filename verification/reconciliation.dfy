/** Closing a stay and reconciling its recorded supply use with what was
    actually used: `process_supply_adjustments` and `close_stay` in
    app/routes/main_routes.py, and the legacy `close_stay` and
    `set_stay_pending` of app/routes_backup.py. */
module Reconciliation {
  import opened Common
  import opened Ledger
  import opened Supplies
  import opened Store

  // ------------------------------------------------------ adjustment entries

  /** One element of the `supply_adjustments[]` list, 'usage_id:new_quantity'. */
  datatype Entry = Entry(usageId: int, newQuantity: int)

  /** The parse of an element: None for an empty element, one that does not
      split into exactly two parts on ':', or parts that `int()` refuses. */
  function ParseEntry(s: string): Option<Entry> {
    if s == "" then None
    else
      var parts := Split(s, ':');
      if |parts| != 2 then None
      else
        match (ParseInt(parts[0]), ParseInt(parts[1]))
        case (Some(id), Some(q)) => Some(Entry(id, q))
        case _ => None
  }

  /** The element the close-out form sends for an entry. */
  function FormatEntry(e: Entry): string {
    ShowInt(e.usageId) + ":" + ShowInt(e.newQuantity)
  }

  /** Every entry the form can send is read back as that entry. */
  lemma EntryRoundTrip(e: Entry)
    ensures ParseEntry(FormatEntry(e)) == Some(e)
  {
    ParseShow(e.usageId);
    ParseShow(e.newQuantity);
    assert ShowInt(e.usageId) + ":" + ShowInt(e.newQuantity) == ShowInt(e.usageId) + [':'] + ShowInt(e.newQuantity);
    SplitPair(ShowInt(e.usageId), ShowInt(e.newQuantity), ':');
  }

  /** `int()` ignores the whitespace around either number of an element, so
      a padded element is read as the entry it spells. */
  lemma PaddedEntryRoundTrip(e: Entry)
    ensures ParseEntry(" " + ShowInt(e.usageId) + " : " + ShowInt(e.newQuantity) + " ") == Some(e)
  {
    var left, right := " " + ShowInt(e.usageId) + " ", " " + ShowInt(e.newQuantity) + " ";
    PaddedNumber(e.usageId);
    PaddedNumber(e.newQuantity);
    assert " " + ShowInt(e.usageId) + " : " + ShowInt(e.newQuantity) + " " == left + [':'] + right;
    SplitPair(left, right, ':');
  }

  lemma PaddedNumber(n: int)
    ensures ':' !in " " + ShowInt(n) + " "
    ensures ParseInt(" " + ShowInt(n) + " ") == Some(n)
  {
    var t := ShowInt(n);
    ParseShow(n);
    var padded := " " + t + " ";
    assert forall i :: 0 <= i < |padded| ==> padded[i] == ' ' || padded[i] == '-' || IsDigit(padded[i]);
    assert IsDigit(t[|t| - 1]);
    ParseIntIgnoresSpaces(" ", t, " ");
  }

  /** The audit record of an applied change: the difference as its quantity,
      the original record's unit cost, confirmed. It is not yet in the
      session, so its cost has no supply price to fall back on. */
  function AdjustmentRecord(u: Usage, stayId: int, delta: int, user: int): (a: Usage)
    ensures a.supplyId == u.supplyId && a.stayId == Some(stayId) && a.quantityUsed == delta
    ensures a.usageType == Adjustment && a.isConfirmed && a.costPerUnit == u.costPerUnit
  {
    var a := Usage(u.supplyId, Some(stayId), None, delta, None, Adjustment, u.costPerUnit, None, true, Some(user), None);
    a.(totalCost := Some(CalculateCost(a, None)))
  }

  /** What one entry does. A record that is missing or belongs to another
      stay is left alone. No change only confirms the record. A positive
      change the shelf cannot cover is skipped; otherwise the stock moves by
      the opposite of the change, the record takes the new quantity (and its
      cost, now with the supply's price to fall back on) and is marked
      verified, and an audit record of the change is appended. */
  function AdjustOne(inv: Inventory, stayId: int, e: Entry, user: int, now: int): (r: Inventory)
    requires Linked(inv)
    ensures Linked(r) && r.supplies.Keys == inv.supplies.Keys && |r.usages| >= |inv.usages|
  {
    if !(0 <= e.usageId < |inv.usages|) || inv.usages[e.usageId].stayId != Some(stayId) then inv
    else
      var u := inv.usages[e.usageId];
      var delta := e.newQuantity - u.quantityUsed;
      if delta == 0 then
        Inventory(inv.supplies, inv.usages[e.usageId := u.(isConfirmed := true, verifiedBy := Some(user),
                                                            verifiedAt := Some(now))])
      else if delta > 0 && StockOf(inv, u.supplyId) < delta then inv
      else
        var resized := u.(quantityUsed := e.newQuantity);
        var verified := resized.(totalCost := Some(CalculateCost(resized, inv.supplies[u.supplyId].unitPrice)),
                                 usageType := Verified, isConfirmed := true, verifiedBy := Some(user),
                                 verifiedAt := Some(now));
        Inventory(WithStock(inv.supplies, u.supplyId, StockOf(inv, u.supplyId) - delta),
                  inv.usages[e.usageId := verified] + [AdjustmentRecord(u, stayId, delta, user)])
  }

  /** The loop over the elements, skipping those that do not parse. */
  function AdjustAll(inv: Inventory, stayId: int, entries: seq<string>, user: int, now: int): (r: Inventory)
    requires Linked(inv)
    ensures Linked(r) && r.supplies.Keys == inv.supplies.Keys && |r.usages| >= |inv.usages|
  {
    if entries == [] then inv
    else
      var mid := AdjustAll(inv, stayId, entries[..|entries| - 1], user, now);
      match ParseEntry(entries[|entries| - 1])
      case None => mid
      case Some(e) => AdjustOne(mid, stayId, e, user, now)
  }

  /** `process_supply_adjustments`. */
  method ProcessSupplyAdjustments(db: Db, stayId: int, entries: seq<string>, user: int, now: int)
    requires db.Valid()
    modifies db
    ensures db.Valid()
    ensures Inventory(db.supplies, db.usages) == AdjustAll(Inventory(old(db.supplies), old(db.usages)), stayId, entries, user, now)
    ensures db.rooms == old(db.rooms) && db.stays == old(db.stays) && db.packages == old(db.packages)
  {
    ghost var inv0 := Inventory(db.supplies, db.usages);
    for i := 0 to |entries|
      invariant db.Valid()
      invariant Inventory(db.supplies, db.usages) == AdjustAll(inv0, stayId, entries[..i], user, now)
      invariant db.rooms == old(db.rooms) && db.stays == old(db.stays) && db.packages == old(db.packages)
    {
      assert entries[..i + 1][..i] == entries[..i];
      var parsed := ParseEntry(entries[i]);
      if parsed.Some? {
        AdjustUsage(db, stayId, parsed.value, user, now);
      }
    }
    assert entries[..|entries|] == entries;
  }

  /** The loop body for one parsed entry. */
  method AdjustUsage(db: Db, stayId: int, e: Entry, user: int, now: int)
    requires db.Valid()
    modifies db
    ensures db.Valid()
    ensures Inventory(db.supplies, db.usages) == AdjustOne(Inventory(old(db.supplies), old(db.usages)), stayId, e, user, now)
    ensures db.rooms == old(db.rooms) && db.stays == old(db.stays) && db.packages == old(db.packages)
  {
    if !(0 <= e.usageId < |db.usages|) {
      return;
    }
    var usage := db.usages[e.usageId];
    if usage.stayId != Some(stayId) {
      return;
    }
    var oldQuantity := usage.quantityUsed;
    var quantityDiff := e.newQuantity - oldQuantity;
    if quantityDiff == 0 {
      db.usages := db.usages[e.usageId := usage.(isConfirmed := true, verifiedBy := Some(user), verifiedAt := Some(now))];
      return;
    }
    var supply := db.supplies[usage.supplyId];
    if quantityDiff > 0 {
      if supply.currentStock < quantityDiff {
        return;
      }
      supply := supply.(currentStock := supply.currentStock - quantityDiff);
    } else {
      supply := supply.(currentStock := supply.currentStock + Abs(quantityDiff));
    }
    db.supplies := db.supplies[usage.supplyId := supply];
    var updated := usage.(quantityUsed := e.newQuantity);
    updated := updated.(totalCost := Some(CalculateCost(updated, supply.unitPrice)));
    updated := updated.(usageType := Verified, isConfirmed := true, verifiedBy := Some(user), verifiedAt := Some(now));
    db.usages := db.usages[e.usageId := updated] + [AdjustmentRecord(usage, stayId, quantityDiff, user)];
  }

  // ------------------------------------------------ properties of the entries

  /** The effect of one entry on the record and the stock it names: skipped
      entries change nothing, an unchanged quantity only confirms, and an
      applied change leaves stock_after = stock_before - (new - old), the
      record at the new quantity, verified, with one audit record of the
      difference at the original unit cost after it. Every other record,
      every other supply and every other field of the named supply are left
      as they were. */
  lemma AdjustOneEffect(inv: Inventory, stayId: int, e: Entry, user: int, now: int)
    requires Linked(inv) && 0 <= e.usageId < |inv.usages| && inv.usages[e.usageId].stayId == Some(stayId)
    ensures var u := inv.usages[e.usageId];
      var r := AdjustOne(inv, stayId, e, user, now);
      var delta := e.newQuantity - u.quantityUsed;
      (delta == 0 ==> r.supplies == inv.supplies && |r.usages| == |inv.usages| &&
                      r.usages[e.usageId].quantityUsed == u.quantityUsed && r.usages[e.usageId].isConfirmed) &&
      (delta > 0 && StockOf(inv, u.supplyId) < delta ==> r == inv) &&
      (delta != 0 && !(delta > 0 && StockOf(inv, u.supplyId) < delta) ==>
         StockOf(r, u.supplyId) == StockOf(inv, u.supplyId) - delta &&
         (delta > 0 ==> StockOf(r, u.supplyId) >= 0) &&
         |r.usages| == |inv.usages| + 1 &&
         r.usages[e.usageId].quantityUsed == e.newQuantity && r.usages[e.usageId].usageType == Verified &&
         r.usages[e.usageId].isConfirmed &&
         r.usages[|inv.usages|] == AdjustmentRecord(u, stayId, delta, user))
    ensures var r := AdjustOne(inv, stayId, e, user, now);
      (forall k :: 0 <= k < |inv.usages| && k != e.usageId ==> r.usages[k] == inv.usages[k]) &&
      (forall sid :: sid in inv.supplies && sid != inv.usages[e.usageId].supplyId ==>
         sid in r.supplies && r.supplies[sid] == inv.supplies[sid]) &&
      inv.usages[e.usageId].supplyId in r.supplies &&
      r.supplies[inv.usages[e.usageId].supplyId] ==
        inv.supplies[inv.usages[e.usageId].supplyId].(currentStock := StockOf(r, inv.usages[e.usageId].supplyId))
  {
  }

  /** The balance needs the entries to name ordinary records: an entry that
      names one of the stay's own audit records (its stay is the stay's, so
      the route accepts it) turns that record into a verified one, which then
      counts as use on top of the stock change it documented. Here an audit
      record of 2 units, with 10 on the shelf, retargeted to 5 leaves 7 on
      the shelf and 5 recorded: 12 where there were 10. */
  lemma RetargetingAnAuditRecordBreaksBalance()
    ensures var audit := Usage(1, Some(7), None, 2, None, Adjustment, None, None, true, Some(3), None);
      var inv := Inventory(map[1 := Supply(1, "s", "c", 10, 0, None)], [audit]);
      Linked(inv) && !Ordinary(inv, 0) && AdjustOne(inv, 7, Entry(0, 5), 3, 0) != inv &&
      !Conserves(inv, AdjustOne(inv, 7, Entry(0, 5), 3, 0))
  {
    var audit := Usage(1, Some(7), None, 2, None, Adjustment, None, None, true, Some(3), None);
    var inv := Inventory(map[1 := Supply(1, "s", "c", 10, 0, None)], [audit]);
    var r := AdjustOne(inv, 7, Entry(0, 5), 3, 0);
    assert StockOf(r, 1) == 7;
    assert |r.usages| == 2 && r.usages[0].quantityUsed == 5 && r.usages[0].usageType == Verified;
    assert r.usages[1].usageType == Adjustment;
    var first := r.usages[..1];
    assert first[..0] == [] && first[0] == r.usages[0];
    assert Recorded(first, 1) == 5;
    assert r.usages[..|r.usages| - 1] == first;
    assert Recorded(r.usages, 1) == 5;
    assert inv.usages[..0] == [];
    assert Recorded(inv.usages, 1) == 0;
  }

  /** An entry naming record `k` that is not itself an audit record. */
  predicate Ordinary(inv: Inventory, k: int) {
    k < 0 || (k < |inv.usages| && inv.usages[k].usageType != Adjustment)
  }

  /** Every entry that parses names an ordinary record, or none at all. */
  predicate TargetsOrdinary(inv: Inventory, entries: seq<string>) {
    forall i :: 0 <= i < |entries| && ParseEntry(entries[i]).Some? ==> Ordinary(inv, ParseEntry(entries[i]).value.usageId)
  }

  /** One entry keeps the books balanced (audit records aside) and takes no
      stock below zero. */
  lemma AdjustOneBalanced(inv: Inventory, stayId: int, e: Entry, user: int, now: int)
    requires Linked(inv) && Ordinary(inv, e.usageId)
    ensures Conserves(inv, AdjustOne(inv, stayId, e, user, now))
    ensures NoNewNegative(inv, AdjustOne(inv, stayId, e, user, now))
    ensures forall k :: Ordinary(inv, k) ==> Ordinary(AdjustOne(inv, stayId, e, user, now), k)
  {
    var r := AdjustOne(inv, stayId, e, user, now);
    if 0 <= e.usageId < |inv.usages| && inv.usages[e.usageId].stayId == Some(stayId) {
      var u := inv.usages[e.usageId];
      var delta := e.newQuantity - u.quantityUsed;
      if delta == 0 {
        forall sid | sid in inv.supplies ensures Recorded(r.usages, sid) == Recorded(inv.usages, sid) {
          RecordedUpdate(inv.usages, e.usageId, r.usages[e.usageId], sid);
        }
      } else if !(delta > 0 && StockOf(inv, u.supplyId) < delta) {
        AdjustOneRecorded(inv, stayId, e, user, now);
      }
    }
  }

  /** A resized record moves the recorded use of its supply by the
      difference, and of no other supply. */
  lemma AdjustOneRecorded(inv: Inventory, stayId: int, e: Entry, user: int, now: int)
    requires Linked(inv) && Ordinary(inv, e.usageId)
    requires 0 <= e.usageId < |inv.usages| && inv.usages[e.usageId].stayId == Some(stayId)
    requires var u := inv.usages[e.usageId]; var delta := e.newQuantity - u.quantityUsed;
      delta != 0 && !(delta > 0 && StockOf(inv, u.supplyId) < delta)
    ensures var u := inv.usages[e.usageId]; var r := AdjustOne(inv, stayId, e, user, now);
      forall sid :: sid in inv.supplies ==>
        Recorded(r.usages, sid) == Recorded(inv.usages, sid) + (if sid == u.supplyId then e.newQuantity - u.quantityUsed else 0)
  {
    var r := AdjustOne(inv, stayId, e, user, now);
    var u := inv.usages[e.usageId];
    var delta := e.newQuantity - u.quantityUsed;
    var rewritten := inv.usages[e.usageId := r.usages[e.usageId]];
    assert r.usages == rewritten + [AdjustmentRecord(u, stayId, delta, user)];
    assert r.usages[..|rewritten|] == rewritten;
    forall sid | sid in inv.supplies
      ensures Recorded(r.usages, sid) == Recorded(inv.usages, sid) + (if sid == u.supplyId then delta else 0)
    {
      RecordedUpdate(inv.usages, e.usageId, r.usages[e.usageId], sid);
    }
  }

  /** Over a whole request whose entries name ordinary records, every unit
      that leaves the shelf is recorded as used and every unit returned is
      taken off the records; no stock is taken below zero. */
  lemma {:induction false} AdjustAllBalanced(inv: Inventory, stayId: int, entries: seq<string>, user: int, now: int)
    requires Linked(inv) && TargetsOrdinary(inv, entries)
    ensures Conserves(inv, AdjustAll(inv, stayId, entries, user, now))
    ensures NoNewNegative(inv, AdjustAll(inv, stayId, entries, user, now))
    ensures forall k :: Ordinary(inv, k) ==> Ordinary(AdjustAll(inv, stayId, entries, user, now), k)
  {
    if entries != [] {
      var p := entries[..|entries| - 1];
      assert TargetsOrdinary(inv, p) by {
        forall i | 0 <= i < |p| && ParseEntry(p[i]).Some? ensures Ordinary(inv, ParseEntry(p[i]).value.usageId) {
          assert p[i] == entries[i];
        }
      }
      AdjustAllBalanced(inv, stayId, p, user, now);
      var mid := AdjustAll(inv, stayId, p, user, now);
      var parsed := ParseEntry(entries[|entries| - 1]);
      if parsed.Some? {
        AdjustOneBalanced(mid, stayId, parsed.value, user, now);
        ConservesTrans(inv, mid, AdjustAll(inv, stayId, entries, user, now));
        NoNewNegativeTrans(inv, mid, AdjustAll(inv, stayId, entries, user, now));
      }
    }
  }

  // ---------------------------------------------------------------- close_stay

  /** `stay.has_supply_usage()`: some record belongs to the stay. */
  predicate HasSupplyUsage(usages: seq<Usage>, stayId: int) {
    exists k :: 0 <= k < |usages| && usages[k].stayId == Some(stayId)
  }

  /** The POST branch of `close_stay` in app/routes/main_routes.py. With
      `verifySupplies` and some record of the stay, the adjustments are
      processed; a missing check-out becomes today; 'close' finalises the
      stay and sends its room to 'Por Limpiar', 'pending' marks the stay
      pending closure, whatever its status was. Any other action commits the
      adjustments and the check-out and then fails on the message it never
      set: the status stays as it was and the outcome is an error. */
  method CloseStay(db: Db, stayId: int, action: string, verifySupplies: bool, entries: seq<string>,
                   user: int, today: int) returns (outcome: Outcome)
    requires db.Valid()
    modifies db
    ensures db.Valid()
    ensures db.packages == old(db.packages)
    ensures outcome == NotFound <==> stayId !in old(db.stays)
    ensures outcome == NotFound ==> db.supplies == old(db.supplies) && db.usages == old(db.usages) &&
                                    db.stays == old(db.stays) && db.rooms == old(db.rooms)
    ensures outcome != NotFound ==>
      var st := old(db.stays)[stayId];
      var inv := Inventory(old(db.supplies), old(db.usages));
      Inventory(db.supplies, db.usages)
        == (if verifySupplies && HasSupplyUsage(old(db.usages), stayId) then AdjustAll(inv, stayId, entries, user, today) else inv) &&
      db.stays == old(db.stays)[stayId := st.(checkOut := if st.checkOut.None? then Some(today) else st.checkOut,
                                              status := if action == "close" then Finalized
                                                        else if action == "pending" then PendingClosure
                                                        else st.status)] &&
      db.rooms == (if action == "close" then old(db.rooms)[st.roomId := old(db.rooms)[st.roomId].(status := "Por Limpiar")]
                   else old(db.rooms)) &&
      outcome == (if action == "close" || action == "pending" then Updated else Failed)
  {
    if stayId !in db.stays {
      return NotFound;
    }
    var stay := db.stays[stayId];
    if verifySupplies && HasSupplyUsage(db.usages, stayId) {
      ProcessSupplyAdjustments(db, stayId, entries, user, today);
    }
    if stay.checkOut.None? {
      stay := stay.(checkOut := Some(today));
    }
    if action == "close" {
      stay := stay.(status := Finalized);
      db.rooms := db.rooms[stay.roomId := db.rooms[stay.roomId].(status := "Por Limpiar")];
      outcome := Updated;
    } else if action == "pending" {
      stay := stay.(status := PendingClosure);
      outcome := Updated;
    } else {
      outcome := Failed;
    }
    db.stays := db.stays[stayId := stay];
  }

  // ------------------------------------------------------ legacy close-out

  /** `stay.get_automatic_supply_usages()`: the stay's 'Automático' records, in table order. */
  function AutomaticUsagesOf(usages: seq<Usage>, stayId: int): (r: seq<Usage>)
    ensures forall u :: u in r <==> u in usages && u.stayId == Some(stayId) && u.usageType == Automatic
  {
    if usages == [] then []
    else
      var p := usages[..|usages| - 1];
      var u := usages[|usages| - 1];
      assert usages == p + [u];
      AutomaticUsagesOf(p, stayId) + (if u.stayId == Some(stayId) && u.usageType == Automatic then [u] else [])
  }

  /** The real quantity the form gives for a record: the field of its supply
      (None when `int()` refuses it), or the recorded quantity when absent. */
  function RealQuantity(u: Usage, fields: map<int, Option<int>>): Option<int> {
    if u.supplyId in fields then fields[u.supplyId] else Some(u.quantityUsed)
  }

  predicate AllParse(autos: seq<Usage>, fields: map<int, Option<int>>) {
    forall k :: 0 <= k < |autos| ==> RealQuantity(autos[k], fields).Some?
  }

  /** The legacy verification record: the difference, type 'Verificado'. */
  function VerificationRecord(u: Usage, stayId: int, diff: int, user: int): (v: Usage)
    ensures v.supplyId == u.supplyId && v.quantityUsed == diff && v.usageType == Verified
  {
    Usage(u.supplyId, Some(stayId), None, diff, None, Verified, None, None, false, Some(user), None)
  }

  /** One record of the legacy loop: a non-zero difference between the real
      and the recorded quantity is recorded and taken off the stock, with no
      check of what the shelf holds. */
  function VerifyOne(inv: Inventory, stayId: int, u: Usage, realQuantity: int, user: int): (r: Inventory)
    ensures r.supplies.Keys == inv.supplies.Keys
    ensures Linked(inv) && u.supplyId in inv.supplies ==> Linked(r)
  {
    var diff := realQuantity - u.quantityUsed;
    if diff == 0 then inv
    else
      Inventory(if u.supplyId in inv.supplies then WithStock(inv.supplies, u.supplyId, StockOf(inv, u.supplyId) - diff)
                else inv.supplies,
                inv.usages + [VerificationRecord(u, stayId, diff, user)])
  }

  function VerifyAll(inv: Inventory, stayId: int, autos: seq<Usage>, fields: map<int, Option<int>>, user: int): (r: Inventory)
    requires AllParse(autos, fields)
    ensures r.supplies.Keys == inv.supplies.Keys
    ensures Linked(inv) && (forall k :: 0 <= k < |autos| ==> autos[k].supplyId in inv.supplies) ==> Linked(r)
  {
    if autos == [] then inv
    else
      var u := autos[|autos| - 1];
      VerifyOne(VerifyAll(inv, stayId, autos[..|autos| - 1], fields, user), stayId, u, RealQuantity(u, fields).value, user)
  }

  /** `total_adjustments`: the sum of the absolute differences of the records
      whose supply exists. */
  function TotalAdjustments(autos: seq<Usage>, fields: map<int, Option<int>>, supplies: map<int, Supply>): nat
    requires AllParse(autos, fields)
  {
    if autos == [] then 0
    else
      var u := autos[|autos| - 1];
      TotalAdjustments(autos[..|autos| - 1], fields, supplies)
      + (if u.supplyId in supplies then Abs(RealQuantity(u, fields).value - u.quantityUsed) else 0)
  }

  /** The note record written when closure notes are given: quantity 0, on
      the first automatic record's supply. */
  function NoteRecord(supplyId: int, stayId: int, user: int): (n: Usage)
    ensures n.supplyId == supplyId && n.quantityUsed == 0 && n.usageType == Manual
  {
    Usage(supplyId, Some(stayId), None, 0, None, Manual, None, None, false, Some(user), None)
  }

  /** The legacy `close_stay`: only a closable stay (active, with a
      check-out) is closed. Each automatic record's difference from the real
      quantity is recorded and applied to the stock unchecked, and the stay
      is finalised. A real quantity `int()` refuses, or notes with no
      automatic record to hang the note on (its supply would be NULL), make
      the transaction fail and roll back. `notes` is `closure_notes` after
      `strip()`, so a note of only whitespace arrives as "". */
  method LegacyCloseStay(db: Db, stayId: int, fields: map<int, Option<int>>, notes: string, user: int)
    returns (outcome: Outcome, totalAdjustments: nat)
    requires db.Valid()
    modifies db
    ensures db.Valid()
    ensures db.rooms == old(db.rooms) && db.packages == old(db.packages)
    ensures outcome == NotFound <==> stayId !in old(db.stays)
    ensures outcome == Invalid <==> stayId in old(db.stays) && !CanBeClosed(old(db.stays)[stayId])
    ensures outcome == Failed <==> (stayId in old(db.stays) && CanBeClosed(old(db.stays)[stayId]) &&
      (!AllParse(AutomaticUsagesOf(old(db.usages), stayId), fields) ||
       (notes != "" && AutomaticUsagesOf(old(db.usages), stayId) == [])))
    ensures outcome in {NotFound, Invalid, Failed, Updated}
    ensures outcome != Updated ==> db.supplies == old(db.supplies) && db.usages == old(db.usages) &&
                                   db.stays == old(db.stays) && totalAdjustments == 0
    ensures outcome == Updated ==>
      var autos := AutomaticUsagesOf(old(db.usages), stayId);
      var verified := VerifyAll(Inventory(old(db.supplies), old(db.usages)), stayId, autos, fields, user);
      db.supplies == verified.supplies &&
      db.usages == verified.usages + (if notes != "" then [NoteRecord(autos[0].supplyId, stayId, user)] else []) &&
      db.stays == old(db.stays)[stayId := old(db.stays)[stayId].(status := Finalized)] &&
      totalAdjustments == TotalAdjustments(autos, fields, old(db.supplies))
  {
    totalAdjustments := 0;
    if stayId !in db.stays {
      return NotFound, 0;
    }
    var stay := db.stays[stayId];
    if !CanBeClosed(stay) {
      return Invalid, 0;
    }
    var automaticUsages := AutomaticUsagesOf(db.usages, stayId);
    if !AllParse(automaticUsages, fields) || (notes != "" && automaticUsages == []) {
      return Failed, 0;
    }
    totalAdjustments := CommitCloseOut(db, stayId, fields, notes, user);
    outcome := Updated;
  }

  /** The committed part of the legacy `close_stay`, once every real quantity
      parses and a note has a record to hang on. */
  method CommitCloseOut(db: Db, stayId: int, fields: map<int, Option<int>>, notes: string, user: int)
    returns (totalAdjustments: nat)
    requires db.Valid() && stayId in db.stays
    requires AllParse(AutomaticUsagesOf(db.usages, stayId), fields)
    requires notes != "" ==> AutomaticUsagesOf(db.usages, stayId) != []
    modifies db
    ensures db.Valid()
    ensures db.rooms == old(db.rooms) && db.packages == old(db.packages)
    ensures var autos := AutomaticUsagesOf(old(db.usages), stayId);
      var verified := VerifyAll(Inventory(old(db.supplies), old(db.usages)), stayId, autos, fields, user);
      db.supplies == verified.supplies &&
      db.usages == verified.usages + (if notes != "" then [NoteRecord(autos[0].supplyId, stayId, user)] else []) &&
      db.stays == old(db.stays)[stayId := old(db.stays)[stayId].(status := Finalized)] &&
      totalAdjustments == TotalAdjustments(autos, fields, old(db.supplies))
  {
    var stay := db.stays[stayId];
    var automaticUsages := AutomaticUsagesOf(db.usages, stayId);
    AutomaticUsagesLinked(Inventory(db.supplies, db.usages), stayId);
    totalAdjustments := VerifyUsages(db, stayId, automaticUsages, fields, user);
    ghost var verified := Inventory(db.supplies, db.usages);
    assert verified.supplies.Keys == old(db.supplies).Keys;
    db.stays := db.stays[stayId := stay.(status := Finalized)];
    assert db.Valid();
    if notes != "" {
      var note := NoteRecord(automaticUsages[0].supplyId, stayId, user);
      LinkedAppend(Inventory(db.supplies, db.usages), note);
      db.usages := db.usages + [note];
    }
  }

  /** The automatic records of a stay name existing supplies when every record does. */
  lemma AutomaticUsagesLinked(inv: Inventory, stayId: int)
    requires Linked(inv)
    ensures forall k :: 0 <= k < |AutomaticUsagesOf(inv.usages, stayId)| ==>
      AutomaticUsagesOf(inv.usages, stayId)[k].supplyId in inv.supplies
  {
    var autos := AutomaticUsagesOf(inv.usages, stayId);
    assert forall k :: 0 <= k < |autos| ==> autos[k] in inv.usages;
  }

  /** The loop of the legacy close-out over the stay's automatic records. */
  method VerifyUsages(db: Db, stayId: int, automaticUsages: seq<Usage>, fields: map<int, Option<int>>, user: int)
    returns (totalAdjustments: nat)
    requires db.Valid() && AllParse(automaticUsages, fields)
    requires forall k :: 0 <= k < |automaticUsages| ==> automaticUsages[k].supplyId in db.supplies
    modifies db
    ensures db.Valid()
    ensures Inventory(db.supplies, db.usages) == VerifyAll(Inventory(old(db.supplies), old(db.usages)), stayId, automaticUsages, fields, user)
    ensures totalAdjustments == TotalAdjustments(automaticUsages, fields, old(db.supplies))
    ensures db.rooms == old(db.rooms) && db.stays == old(db.stays) && db.packages == old(db.packages)
  {
    totalAdjustments := 0;
    ghost var inv0 := Inventory(db.supplies, db.usages);
    ghost var supplies0 := db.supplies;
    for i := 0 to |automaticUsages|
      invariant db.Valid() && db.rooms == old(db.rooms) && db.packages == old(db.packages) && db.stays == old(db.stays)
      invariant Inventory(db.supplies, db.usages) == VerifyAll(inv0, stayId, automaticUsages[..i], fields, user)
      invariant totalAdjustments == TotalAdjustments(automaticUsages[..i], fields, supplies0)
    {
      assert automaticUsages[..i + 1][..i] == automaticUsages[..i];
      var usage := automaticUsages[i];
      var counted := VerifyUsage(db, stayId, usage, RealQuantity(usage, fields).value, user);
      totalAdjustments := totalAdjustments + counted;
    }
    assert automaticUsages[..|automaticUsages|] == automaticUsages;
  }

  /** The loop body of the legacy close-out for one automatic record, whose
      supply exists; `counted` is what it adds to `total_adjustments`. */
  method VerifyUsage(db: Db, stayId: int, usage: Usage, realQuantity: int, user: int) returns (counted: nat)
    requires db.Valid() && usage.supplyId in db.supplies
    modifies db
    ensures db.Valid()
    ensures Inventory(db.supplies, db.usages) == VerifyOne(Inventory(old(db.supplies), old(db.usages)), stayId, usage, realQuantity, user)
    ensures counted == Abs(realQuantity - usage.quantityUsed)
    ensures db.rooms == old(db.rooms) && db.stays == old(db.stays) && db.packages == old(db.packages)
  {
    var difference := realQuantity - usage.quantityUsed;
    counted := 0;
    if difference != 0 {
      db.usages := db.usages + [VerificationRecord(usage, stayId, difference, user)];
      if usage.supplyId in db.supplies {
        db.supplies := WithStock(db.supplies, usage.supplyId, db.supplies[usage.supplyId].currentStock - difference);
        counted := Abs(difference);
      }
    }
  }

  /** The legacy close-out keeps the books balanced: each difference is
      both recorded and taken off the stock. */
  lemma {:induction false} VerifyAllConserves(inv: Inventory, stayId: int, autos: seq<Usage>,
                                              fields: map<int, Option<int>>, user: int)
    requires AllParse(autos, fields)
    requires forall k :: 0 <= k < |autos| ==> autos[k].supplyId in inv.supplies
    ensures Conserves(inv, VerifyAll(inv, stayId, autos, fields, user))
  {
    if autos != [] {
      var p := autos[..|autos| - 1];
      var u := autos[|autos| - 1];
      VerifyPrefix(inv, autos, p, fields);
      VerifyAllConserves(inv, stayId, p, fields, user);
      var mid := VerifyAll(inv, stayId, p, fields, user);
      VerifyOneConserves(mid, stayId, u, RealQuantity(u, fields).value, user);
      ConservesTrans(inv, mid, VerifyAll(inv, stayId, autos, fields, user));
    }
  }

  lemma VerifyOneConserves(inv: Inventory, stayId: int, u: Usage, realQuantity: int, user: int)
    requires u.supplyId in inv.supplies
    ensures Conserves(inv, VerifyOne(inv, stayId, u, realQuantity, user))
  {
    var diff := realQuantity - u.quantityUsed;
    if diff != 0 {
      DeductAndRecord(inv, u.supplyId, diff, VerificationRecord(u, stayId, diff, user));
    }
  }

  lemma VerifyPrefix(inv: Inventory, autos: seq<Usage>, p: seq<Usage>, fields: map<int, Option<int>>)
    requires autos != [] && p == autos[..|autos| - 1] && AllParse(autos, fields)
    requires forall k :: 0 <= k < |autos| ==> autos[k].supplyId in inv.supplies
    ensures AllParse(p, fields)
    ensures forall k :: 0 <= k < |p| ==> p[k].supplyId in inv.supplies
  {
    assert forall k :: 0 <= k < |p| ==> p[k] == autos[k];
    forall k | 0 <= k < |p| ensures RealQuantity(p[k], fields).Some? {
      assert p[k] == autos[k];
    }
  }

  /** Unlike `process_supply_adjustments`, the legacy close-out does not
      check the shelf: an empty shelf whose stay used five towels where two
      were recorded ends at -3. */
  lemma LegacyCloseOutCanDriveStockNegative()
    ensures var u := Usage(3, Some(1), None, 2, Some(2), Automatic, None, None, false, None, None);
      var inv := Inventory(map[3 := Supply(3, "Toalla", "Ropa de Cama", 0, 2, None)], [u]);
      var after := VerifyAll(inv, 1, [u], map[3 := Some(5)], 9);
      StockOf(after, 3) == -3 && !NoNewNegative(inv, after)
  {
    var u := Usage(3, Some(1), None, 2, Some(2), Automatic, None, None, false, None, None);
    assert [u][..0] == [];
  }

  // ------------------------------------------------------------ set pending

  /** `set_stay_pending`: only an active stay becomes pending closure; any
      other status is refused and left as it was. */
  method SetStayPending(db: Db, stayId: int) returns (outcome: Outcome)
    requires db.Valid()
    modifies db
    ensures db.Valid()
    ensures db.rooms == old(db.rooms) && db.supplies == old(db.supplies) && db.usages == old(db.usages)
    ensures db.packages == old(db.packages)
    ensures outcome == NotFound <==> stayId !in old(db.stays)
    ensures outcome == Updated <==> stayId in old(db.stays) && old(db.stays)[stayId].status == Active
    ensures outcome in {NotFound, Invalid, Updated}
    ensures outcome == Updated ==> db.stays == old(db.stays)[stayId := old(db.stays)[stayId].(status := PendingClosure)]
    ensures outcome != Updated ==> db.stays == old(db.stays)
  {
    if stayId !in db.stays {
      return NotFound;
    }
    var stay := db.stays[stayId];
    if stay.status == Active {
      db.stays := db.stays[stayId := stay.(status := PendingClosure)];
      return Updated;
    }
    outcome := Invalid;
  }
}
