/** `apply_room_package_to_stay` (app/routes/ajax_routes.py): when a stay
    opens, every mandatory item of the room's package is taken off the shelf
    and recorded as an automatic usage of the stay. An item is skipped when a
    usage for (stay, supply, room) exists already; on a shortage the
    remaining stock is taken and the shortage reported; an empty shelf
    yields nothing.

    The duplicate check looks for a usage carrying the stay's room, but
    `create_from_package` stores no room (the package row has no `room_id`
    column), so the records this routine creates never stop it from running
    again: `recordRoom` false is the code as written, `recordRoom` true the
    evidently intended record carrying the stay's room. */
module PackageApplier {
  import opened Common
  import opened Ledger
  import opened Supplies
  import opened Store

  /** The `warnings` list. */
  datatype Warning =
    | NoPackage(roomName: string)
    | PartialStock(supplyName: string, used: int, required: int)
    | NoStock(supplyName: string)
    | LowAfter(supplyName: string, remaining: int)

  /** The `errors` list. */
  datatype Error = RoomNotFound | SupplyNotFound(supplyId: int)

  /** An entry of `insufficient_stock`. */
  datatype Shortage = Shortage(supplyName: string, required: int, available: int, shortage: int)

  /** An entry of `items_applied`. */
  datatype Applied = Applied(supplyName: string, quantityUsed: int, quantityExpected: int,
                             cost: real, newStock: int)

  datatype Summary = Summary(totalItems: nat, totalCost: real, averageCost: real)

  /** The `results` dictionary; `summary` is present only when something was applied. */
  datatype Report = Report(appliedCount: nat, skippedCount: nat, warnings: seq<Warning>,
                           errors: seq<Error>, itemsApplied: seq<Applied>,
                           insufficientStock: seq<Shortage>, summary: Option<Summary>)

  const EmptyReport := Report(0, 0, [], [], [], [], None)

  /** The duplicate query: a usage of this stay, supply and room. */
  predicate HasUsage(usages: seq<Usage>, stay: Stay, sid: int) {
    exists k :: 0 <= k < |usages| && usages[k].stayId == Some(stay.id) &&
      usages[k].supplyId == sid && usages[k].roomId == Some(stay.roomId)
  }

  /** The whole requirement when the shelf holds it, otherwise what is left. */
  function UsageQuantity(stock: int, required: int): (q: int)
    ensures stock >= required ==> q == required
    ensures stock < required ==> q == stock && q < required
  {
    if stock < required then stock else required
  }

  /** The record `create_from_package` builds, its quantity reduced (and its
      cost recomputed) on a shortage; with `recordRoom` it carries the room. */
  function PackageUsage(stay: Stay, row: PackageRow, used: int, verifiedBy: Option<int>,
                        recordRoom: bool): (u: Usage)
    ensures u.supplyId == row.supplyId && u.stayId == Some(stay.id) && u.usageType == Automatic
    ensures u.quantityUsed == used && u.quantityExpected == Some(row.quantity)
    ensures u.roomId == (if recordRoom then Some(stay.roomId) else None)
  {
    var created := CreateFromPackage(stay.id, row, Automatic, verifiedBy);
    var sized := if used != row.quantity
                 then created.(quantityUsed := used, totalCost := Some(CalculateCost(created.(quantityUsed := used), None)))
                 else created;
    if recordRoom then sized.(roomId := Some(stay.roomId)) else sized
  }

  /** Whether the loop body takes stock for `row`: no earlier record, a known
      supply, and stock to cover it or at least something on the shelf. */
  predicate Takes(inv: Inventory, stay: Stay, row: PackageRow) {
    !HasUsage(inv.usages, stay, row.supplyId) && row.supplyId in inv.supplies &&
    (StockOf(inv, row.supplyId) >= row.quantity || StockOf(inv, row.supplyId) > 0)
  }

  /** What one loop iteration does to stock and records. */
  function ItemInventory(inv: Inventory, stay: Stay, row: PackageRow, verifiedBy: Option<int>,
                         recordRoom: bool): Inventory
  {
    if Takes(inv, stay, row) then
      var s := inv.supplies[row.supplyId];
      var used := UsageQuantity(s.currentStock, row.quantity);
      Inventory(inv.supplies[row.supplyId := s.(currentStock := s.currentStock - used)],
                inv.usages + [PackageUsage(stay, row, used, verifiedBy, recordRoom)])
    else inv
  }

  lemma ItemInventoryLinked(inv: Inventory, stay: Stay, row: PackageRow, verifiedBy: Option<int>, recordRoom: bool)
    requires Linked(inv)
    ensures Linked(ItemInventory(inv, stay, row, verifiedBy, recordRoom))
  {
    if Takes(inv, stay, row) {
      var s := inv.supplies[row.supplyId];
      var used := UsageQuantity(s.currentStock, row.quantity);
      LinkedAppend(inv, PackageUsage(stay, row, used, verifiedBy, recordRoom));
      LinkedWithStock(Inventory(inv.supplies, inv.usages + [PackageUsage(stay, row, used, verifiedBy, recordRoom)]),
                      row.supplyId, s.currentStock - used);
    }
  }

  /** What one loop iteration adds to `results`. */
  function ItemReport(inv: Inventory, rep: Report, stay: Stay, row: PackageRow,
                      verifiedBy: Option<int>, recordRoom: bool): Report
  {
    if HasUsage(inv.usages, stay, row.supplyId) then rep.(skippedCount := rep.skippedCount + 1)
    else if row.supplyId !in inv.supplies then rep.(errors := rep.errors + [SupplyNotFound(row.supplyId)])
    else
      var s := inv.supplies[row.supplyId];
      var q := row.quantity;
      var short := if s.currentStock < q
                   then rep.(insufficientStock := rep.insufficientStock + [Shortage(s.name, q, s.currentStock, q - s.currentStock)])
                   else rep;
      if s.currentStock < q && s.currentStock <= 0 then short.(warnings := short.warnings + [NoStock(s.name)])
      else
        var used := UsageQuantity(s.currentStock, q);
        var partial := if s.currentStock < q then short.(warnings := short.warnings + [PartialStock(s.name, used, q)])
                       else short;
        var left := s.currentStock - used;
        var cost := CalculateCost(PackageUsage(stay, row, used, verifiedBy, recordRoom), None);
        var applied := partial.(appliedCount := partial.appliedCount + 1,
                                itemsApplied := partial.itemsApplied + [Applied(s.name, used, q, cost, left)]);
        if left <= s.minimumStock then applied.(warnings := applied.warnings + [LowAfter(s.name, left)])
        else applied
  }

  /** Stock and records after the loop has run over `rows`. */
  function ApplyInventory(inv: Inventory, stay: Stay, rows: seq<PackageRow>, verifiedBy: Option<int>,
                          recordRoom: bool): Inventory
  {
    if rows == [] then inv
    else ItemInventory(ApplyInventory(inv, stay, rows[..|rows| - 1], verifiedBy, recordRoom),
                       stay, rows[|rows| - 1], verifiedBy, recordRoom)
  }

  /** `results` after the loop has run over `rows`, before the summary. */
  function ApplyReport(inv: Inventory, stay: Stay, rows: seq<PackageRow>, verifiedBy: Option<int>,
                       recordRoom: bool): (r: Report)
    ensures r.summary.None?
  {
    if rows == [] then EmptyReport
    else ItemReport(ApplyInventory(inv, stay, rows[..|rows| - 1], verifiedBy, recordRoom),
                    ApplyReport(inv, stay, rows[..|rows| - 1], verifiedBy, recordRoom),
                    stay, rows[|rows| - 1], verifiedBy, recordRoom)
  }

  function TotalCost(items: seq<Applied>): real {
    if items == [] then 0.0 else TotalCost(items[..|items| - 1]) + items[|items| - 1].cost
  }

  /** The summary added when at least one item was applied. */
  function WithSummary(rep: Report): (r: Report)
    ensures r.(summary := rep.summary) == rep
    ensures r.summary.Some? <==> rep.appliedCount > 0
    ensures r.summary.Some? ==> (r.summary.value.totalItems == rep.appliedCount &&
      r.summary.value.totalCost == TotalCost(rep.itemsApplied) &&
      r.summary.value.averageCost * (rep.appliedCount as real) == r.summary.value.totalCost)
  {
    if rep.appliedCount > 0 then
      var total := TotalCost(rep.itemsApplied);
      rep.(summary := Some(Summary(rep.appliedCount, total, total / rep.appliedCount as real)))
    else rep.(summary := None)
  }

  /** Stock, records and report of the whole routine, given the stay's room
      (None when it is not found) and the room's mandatory package rows. */
  function ApplyPackage(inv: Inventory, stay: Stay, room: Option<Room>, rows: seq<PackageRow>,
                        verifiedBy: Option<int>, recordRoom: bool): (Inventory, Report)
  {
    if room.None? then (inv, EmptyReport.(errors := [RoomNotFound]))
    else if rows == [] then (inv, EmptyReport.(warnings := [NoPackage(room.value.name)]))
    else (ApplyInventory(inv, stay, rows, verifiedBy, recordRoom),
          WithSummary(ApplyReport(inv, stay, rows, verifiedBy, recordRoom)))
  }

  function RoomOf(rooms: map<int, Room>, id: int): Option<Room> {
    if id in rooms then Some(rooms[id]) else None
  }

  // --------------------------------------------------------------- the method

  /** `apply_room_package_to_stay` as written: the records carry no room. */
  method ApplyRoomPackageToStay(db: Db, stay: Stay, verifiedBy: Option<int>) returns (results: Report)
    requires db.Valid()
    modifies db
    ensures db.Valid()
    ensures (Inventory(db.supplies, db.usages), results)
         == ApplyPackage(Inventory(old(db.supplies), old(db.usages)), stay, RoomOf(old(db.rooms), stay.roomId),
                         SupplyPackage(old(db.packages), old(db.supplies), stay.roomId, true), verifiedBy, false)
    ensures db.rooms == old(db.rooms) && db.stays == old(db.stays) && db.packages == old(db.packages)
  {
    results := ApplyWith(db, stay, verifiedBy, false);
  }

  /** The same routine with records that carry the stay's room, so that the
      duplicate check finds them. */
  method ApplyRoomPackageToStayCorrected(db: Db, stay: Stay, verifiedBy: Option<int>) returns (results: Report)
    requires db.Valid()
    modifies db
    ensures db.Valid()
    ensures (Inventory(db.supplies, db.usages), results)
         == ApplyPackage(Inventory(old(db.supplies), old(db.usages)), stay, RoomOf(old(db.rooms), stay.roomId),
                         SupplyPackage(old(db.packages), old(db.supplies), stay.roomId, true), verifiedBy, true)
    ensures db.rooms == old(db.rooms) && db.stays == old(db.stays) && db.packages == old(db.packages)
  {
    results := ApplyWith(db, stay, verifiedBy, true);
  }

  method ApplyWith(db: Db, stay: Stay, verifiedBy: Option<int>, recordRoom: bool) returns (results: Report)
    requires db.Valid()
    modifies db
    ensures db.Valid()
    ensures (Inventory(db.supplies, db.usages), results)
         == ApplyPackage(Inventory(old(db.supplies), old(db.usages)), stay, RoomOf(old(db.rooms), stay.roomId),
                         SupplyPackage(old(db.packages), old(db.supplies), stay.roomId, true), verifiedBy, recordRoom)
    ensures db.rooms == old(db.rooms) && db.stays == old(db.stays) && db.packages == old(db.packages)
  {
    results := EmptyReport;
    if stay.roomId !in db.rooms {
      results := results.(errors := [RoomNotFound]);
      return;
    }
    var rows := SupplyPackage(db.packages, db.supplies, stay.roomId, true);
    if rows == [] {
      results := results.(warnings := [NoPackage(db.rooms[stay.roomId].name)]);
      return;
    }
    ghost var inv0 := Inventory(db.supplies, db.usages);
    for i := 0 to |rows|
      invariant db.Valid()
      invariant Inventory(db.supplies, db.usages) == ApplyInventory(inv0, stay, rows[..i], verifiedBy, recordRoom)
      invariant results == ApplyReport(inv0, stay, rows[..i], verifiedBy, recordRoom)
      invariant db.rooms == old(db.rooms) && db.stays == old(db.stays) && db.packages == old(db.packages)
    {
      assert rows[..i + 1][..i] == rows[..i];
      results := ApplyItem(db, stay, rows[i], verifiedBy, recordRoom, results);
    }
    assert rows[..|rows|] == rows;
    if results.appliedCount > 0 {
      var total := TotalCost(results.itemsApplied);
      results := results.(summary := Some(Summary(results.appliedCount, total, total / results.appliedCount as real)));
    }
  }

  /** The loop body for one package row. */
  method ApplyItem(db: Db, stay: Stay, row: PackageRow, verifiedBy: Option<int>, recordRoom: bool,
                   rep: Report) returns (next: Report)
    requires db.Valid()
    modifies db
    ensures db.Valid()
    ensures Inventory(db.supplies, db.usages)
         == ItemInventory(Inventory(old(db.supplies), old(db.usages)), stay, row, verifiedBy, recordRoom)
    ensures next == ItemReport(Inventory(old(db.supplies), old(db.usages)), rep, stay, row, verifiedBy, recordRoom)
    ensures db.rooms == old(db.rooms) && db.stays == old(db.stays) && db.packages == old(db.packages)
  {
    ItemInventoryLinked(Inventory(db.supplies, db.usages), stay, row, verifiedBy, recordRoom);
    next := rep;
    if HasUsage(db.usages, stay, row.supplyId) {
      next := next.(skippedCount := next.skippedCount + 1);
      return;
    }
    if row.supplyId !in db.supplies {
      next := next.(errors := next.errors + [SupplyNotFound(row.supplyId)]);
      return;
    }
    var supply := db.supplies[row.supplyId];
    var usageQuantity;
    if supply.currentStock < row.quantity {
      next := next.(insufficientStock := next.insufficientStock
                      + [Shortage(supply.name, row.quantity, supply.currentStock, row.quantity - supply.currentStock)]);
      if supply.currentStock > 0 {
        usageQuantity := supply.currentStock;
        next := next.(warnings := next.warnings + [PartialStock(supply.name, usageQuantity, row.quantity)]);
      } else {
        next := next.(warnings := next.warnings + [NoStock(supply.name)]);
        return;
      }
    } else {
      usageQuantity := row.quantity;
    }
    var usage := PackageUsage(stay, row, usageQuantity, verifiedBy, recordRoom);
    supply := supply.(currentStock := supply.currentStock - usageQuantity);
    db.supplies := db.supplies[row.supplyId := supply];
    db.usages := db.usages + [usage];
    next := next.(appliedCount := next.appliedCount + 1,
                  itemsApplied := next.itemsApplied
                    + [Applied(supply.name, usageQuantity, row.quantity, CalculateCost(usage, None), supply.currentStock)]);
    if IsLowStock(supply) {
      next := next.(warnings := next.warnings + [LowAfter(supply.name, supply.currentStock)]);
    }
  }

  // ------------------------------------------------------------------ lemmas

  /** The invariant of the report: one applied entry per applied item, each
      within its requirement and leaving stock at or above zero; each
      shortage is positive and is the requirement minus the stock; and no
      more items are accounted for than there were rows. */
  ghost predicate ReportSound(rep: Report, n: nat) {
    rep.appliedCount == |rep.itemsApplied| &&
    rep.appliedCount + rep.skippedCount + |rep.errors| <= n &&
    (forall k :: 0 <= k < |rep.itemsApplied| ==>
       0 <= rep.itemsApplied[k].newStock &&
       rep.itemsApplied[k].quantityUsed <= rep.itemsApplied[k].quantityExpected) &&
    (forall k :: 0 <= k < |rep.insufficientStock| ==>
       0 < rep.insufficientStock[k].shortage ==
         rep.insufficientStock[k].required - rep.insufficientStock[k].available)
  }

  lemma ItemReportSound(inv: Inventory, rep: Report, stay: Stay, row: PackageRow, verifiedBy: Option<int>,
                        recordRoom: bool, n: nat)
    requires ReportSound(rep, n)
    ensures ReportSound(ItemReport(inv, rep, stay, row, verifiedBy, recordRoom), n + 1)
  {
    var r := ItemReport(inv, rep, stay, row, verifiedBy, recordRoom);
    if !HasUsage(inv.usages, stay, row.supplyId) && row.supplyId in inv.supplies {
      assert forall k :: 0 <= k < |rep.itemsApplied| ==> r.itemsApplied[k] == rep.itemsApplied[k];
      assert forall k :: 0 <= k < |rep.insufficientStock| ==> r.insufficientStock[k] == rep.insufficientStock[k];
    }
  }

  /** `applied_count` equals the length of `items_applied`, no applied item
      leaves its stock negative or takes more than required, and every
      reported shortage is the positive gap between requirement and stock. */
  lemma {:induction false} ApplyReportSound(inv: Inventory, stay: Stay, rows: seq<PackageRow>,
                                            verifiedBy: Option<int>, recordRoom: bool)
    ensures ReportSound(ApplyReport(inv, stay, rows, verifiedBy, recordRoom), |rows|)
  {
    if rows != [] {
      var p := rows[..|rows| - 1];
      ApplyReportSound(inv, stay, p, verifiedBy, recordRoom);
      ItemReportSound(ApplyInventory(inv, stay, p, verifiedBy, recordRoom),
                      ApplyReport(inv, stay, p, verifiedBy, recordRoom), stay, rows[|rows| - 1],
                      verifiedBy, recordRoom, |p|);
    }
  }

  /** No room or an empty package leaves stock and records untouched with a
      single error or warning. */
  lemma NothingToApply(inv: Inventory, stay: Stay, room: Option<Room>, rows: seq<PackageRow>,
                       verifiedBy: Option<int>, recordRoom: bool)
    requires room.None? || rows == []
    ensures ApplyPackage(inv, stay, room, rows, verifiedBy, recordRoom).0 == inv
    ensures var rep := ApplyPackage(inv, stay, room, rows, verifiedBy, recordRoom).1;
      rep.appliedCount == 0 && |rep.errors| + |rep.warnings| == 1 &&
      (room.None? <==> rep.errors == [RoomNotFound])
  {
  }

  /** One iteration keeps the books balanced and drives no stock negative. */
  lemma ItemBalanced(inv: Inventory, stay: Stay, row: PackageRow, verifiedBy: Option<int>, recordRoom: bool)
    ensures Conserves(inv, ItemInventory(inv, stay, row, verifiedBy, recordRoom))
    ensures NoNewNegative(inv, ItemInventory(inv, stay, row, verifiedBy, recordRoom))
  {
    if Takes(inv, stay, row) {
      var used := UsageQuantity(StockOf(inv, row.supplyId), row.quantity);
      DeductAndRecord(inv, row.supplyId, used, PackageUsage(stay, row, used, verifiedBy, recordRoom));
    }
  }

  /** Over the whole package, every unit taken off a shelf is recorded as
      used by the stay, and no supply is driven below zero. */
  lemma {:induction false} ApplyBalanced(inv: Inventory, stay: Stay, rows: seq<PackageRow>,
                                         verifiedBy: Option<int>, recordRoom: bool)
    ensures Conserves(inv, ApplyInventory(inv, stay, rows, verifiedBy, recordRoom))
    ensures NoNewNegative(inv, ApplyInventory(inv, stay, rows, verifiedBy, recordRoom))
  {
    if rows != [] {
      var p := rows[..|rows| - 1];
      var mid := ApplyInventory(inv, stay, p, verifiedBy, recordRoom);
      ApplyBalanced(inv, stay, p, verifiedBy, recordRoom);
      ItemBalanced(mid, stay, rows[|rows| - 1], verifiedBy, recordRoom);
      ConservesTrans(inv, mid, ApplyInventory(inv, stay, rows, verifiedBy, recordRoom));
      NoNewNegativeTrans(inv, mid, ApplyInventory(inv, stay, rows, verifiedBy, recordRoom));
    }
  }

  /** As written, opening the package a second time for the same stay takes
      it off the shelf again: ten units of soap, two per stay, leave eight
      after the first run and six after the second. */
  lemma ReapplyingDeductsTwice()
    ensures var stay := Stay(1, 1, 7, 0, None, Active, "Directo");
      var rows := [PackageRow(3, "Jabón", Some(50.0), 2, true)];
      var inv := Inventory(map[3 := Supply(3, "Jabón", "Baño", 10, 2, Some(50.0))], []);
      var once := ApplyInventory(inv, stay, rows, None, false);
      var twice := ApplyInventory(once, stay, rows, None, false);
      StockOf(once, 3) == 8 && StockOf(twice, 3) == 6 && |twice.usages| == 2
  {
    var stay := Stay(1, 1, 7, 0, None, Active, "Directo");
    var rows := [PackageRow(3, "Jabón", Some(50.0), 2, true)];
    var inv := Inventory(map[3 := Supply(3, "Jabón", "Baño", 10, 2, Some(50.0))], []);
    assert rows[..0] == [];
    var once := ApplyInventory(inv, stay, rows, None, false);
    assert once == ItemInventory(inv, stay, rows[0], None, false);
    assert !HasUsage(once.usages, stay, 3);
  }

  /** With the records carrying the room, running the package again for the
      same stay changes nothing: every row now finds its record (or has
      nothing to take), so stock and records stay as the first run left them. */
  lemma CorrectedReapplicationChangesNothing(inv: Inventory, stay: Stay, rows: seq<PackageRow>,
                                             verifiedBy: Option<int>)
    requires DistinctSupplies(rows)
    ensures var once := ApplyInventory(inv, stay, rows, verifiedBy, true);
      ApplyInventory(once, stay, rows, verifiedBy, true) == once
  {
    FirstRunSettles(inv, stay, rows, verifiedBy);
    SettledIsFixpoint(ApplyInventory(inv, stay, rows, verifiedBy, true), stay, rows, verifiedBy);
  }

  /** Every row of `rows` is a no-op on `inv`. */
  ghost predicate Settled(inv: Inventory, stay: Stay, rows: seq<PackageRow>, verifiedBy: Option<int>) {
    forall k :: 0 <= k < |rows| ==> !Takes(inv, stay, rows[k])
  }

  lemma {:induction false} SettledIsFixpoint(inv: Inventory, stay: Stay, rows: seq<PackageRow>,
                                             verifiedBy: Option<int>)
    requires Settled(inv, stay, rows, verifiedBy)
    ensures ApplyInventory(inv, stay, rows, verifiedBy, true) == inv
  {
    if rows != [] {
      var p := rows[..|rows| - 1];
      assert forall k :: 0 <= k < |p| ==> p[k] == rows[k];
      SettledIsFixpoint(inv, stay, p, verifiedBy);
      assert !Takes(inv, stay, rows[|rows| - 1]);
    }
  }

  lemma {:induction false} FirstRunSettles(inv: Inventory, stay: Stay, rows: seq<PackageRow>,
                                           verifiedBy: Option<int>)
    requires DistinctSupplies(rows)
    ensures Settled(ApplyInventory(inv, stay, rows, verifiedBy, true), stay, rows, verifiedBy)
  {
    if rows != [] {
      var p := rows[..|rows| - 1];
      var last := rows[|rows| - 1];
      assert forall k :: 0 <= k < |p| ==> p[k] == rows[k];
      FirstRunSettles(inv, stay, p, verifiedBy);
      var mid := ApplyInventory(inv, stay, p, verifiedBy, true);
      var after := ItemInventory(mid, stay, last, verifiedBy, true);
      LastRowSettles(mid, stay, last, verifiedBy);
      forall k | 0 <= k < |p| ensures !Takes(after, stay, p[k]) {
        assert p[k].supplyId != last.supplyId by { assert rows[k] == p[k]; }
        OtherRowStaysSettled(mid, stay, last, p[k], verifiedBy);
      }
      assert forall k :: 0 <= k < |rows| ==> (k < |p| ==> rows[k] == p[k]) && (k == |p| ==> rows[k] == last);
    }
  }

  /** After a row is applied with the room recorded, it has nothing more to take. */
  lemma LastRowSettles(inv: Inventory, stay: Stay, row: PackageRow, verifiedBy: Option<int>)
    ensures !Takes(ItemInventory(inv, stay, row, verifiedBy, true), stay, row)
  {
    var after := ItemInventory(inv, stay, row, verifiedBy, true);
    if Takes(inv, stay, row) {
      var k := |inv.usages|;
      assert after.usages[k] == PackageUsage(stay, row, UsageQuantity(StockOf(inv, row.supplyId), row.quantity),
                                             verifiedBy, true);
      assert HasUsage(after.usages, stay, row.supplyId);
    }
  }

  /** Applying one row leaves a row of another supply with nothing to take
      if it had nothing to take before. */
  lemma OtherRowStaysSettled(inv: Inventory, stay: Stay, row: PackageRow, other: PackageRow,
                             verifiedBy: Option<int>)
    requires other.supplyId != row.supplyId && !Takes(inv, stay, other)
    ensures !Takes(ItemInventory(inv, stay, row, verifiedBy, true), stay, other)
  {
    var after := ItemInventory(inv, stay, row, verifiedBy, true);
    if Takes(inv, stay, row) {
      if HasUsage(inv.usages, stay, other.supplyId) {
        var k :| 0 <= k < |inv.usages| && inv.usages[k].stayId == Some(stay.id) &&
          inv.usages[k].supplyId == other.supplyId && inv.usages[k].roomId == Some(stay.roomId);
        assert after.usages[k] == inv.usages[k];
      }
    }
  }
}
