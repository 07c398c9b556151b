/** The package routes of app/routes/supply_routes.py: adding an item to a
    room's package (`ajax_add_item`), the supplies a package does not yet
    hold (`room_package`) and the package-cost ranking and coverage of
    `analytics`. */
module SupplyRoutes {
  import opened Common
  import opened Ledger
  import opened Supplies
  import opened Store
  import Sorting

  // ----------------------------------------------------------- ajax_add_item

  /** The cost `ajax_add_item` reports: `quantity * (unit_price or 0)`. */
  function ItemCost(quantity: int, unitPrice: Option<real>): real {
    (quantity as real) * (if RealTruthy(unitPrice) then unitPrice.value else 0.0)
  }

  /** The reported cost is what the new row adds to `calculate_package_cost`. */
  lemma ItemCostIsRowCost(s: Supply, quantity: int, isMandatory: bool)
    ensures ItemCost(quantity, s.unitPrice) == RowCost(PackageRow(s.id, s.name, s.unitPrice, quantity, isMandatory))
  {
  }

  /** Whether the package table already holds the pair (room, supply). */
  predicate HasPair(items: seq<PackageItem>, roomId: int, supplyId: int) {
    exists i :: 0 <= i < |items| && items[i].roomId == roomId && items[i].supplyId == supplyId
  }

  /** `ajax_add_item`. `quantity` is None when `int(...)` raises, which the
      handler turns into a failure before any check; a missing or zero room or
      supply id is refused, so is an unknown room or supply and a pair the
      package already holds. Otherwise the row is inserted and its cost reported. */
  method AjaxAddItem(db: Db, roomId: Option<int>, supplyId: Option<int>, quantity: Option<int>, isMandatory: bool)
    returns (outcome: Outcome, cost: real)
    requires db.Valid()
    modifies db
    ensures db.Valid()
    ensures db.rooms == old(db.rooms) && db.stays == old(db.stays)
    ensures db.supplies == old(db.supplies) && db.usages == old(db.usages)
    ensures outcome == Failed <==> quantity.None?
    ensures outcome == Invalid <==> quantity.Some? && (!IntTruthy(roomId) || !IntTruthy(supplyId))
    ensures outcome == NotFound <==> (quantity.Some? && IntTruthy(roomId) && IntTruthy(supplyId) &&
                                      (roomId.value !in old(db.rooms) || supplyId.value !in old(db.supplies)))
    ensures outcome == Duplicate <==> (quantity.Some? && IntTruthy(roomId) && IntTruthy(supplyId) &&
                                       roomId.value in old(db.rooms) && supplyId.value in old(db.supplies) &&
                                       HasPair(old(db.packages), roomId.value, supplyId.value))
    ensures outcome in {Failed, Invalid, NotFound, Duplicate, Updated}
    ensures outcome != Updated ==> db.packages == old(db.packages)
    ensures outcome == Updated ==>
      db.packages == old(db.packages) + [PackageItem(roomId.value, supplyId.value, quantity.value, isMandatory)] &&
      cost == ItemCost(quantity.value, old(db.supplies)[supplyId.value].unitPrice)
  {
    cost := 0.0;
    if quantity.None? {
      return Failed, 0.0;
    }
    if !IntTruthy(roomId) || !IntTruthy(supplyId) {
      return Invalid, 0.0;
    }
    var rid, sid := roomId.value, supplyId.value;
    if rid !in db.rooms || sid !in db.supplies {
      return NotFound, 0.0;
    }
    if HasPair(db.packages, rid, sid) {
      return Duplicate, 0.0;
    }
    var item := PackageItem(rid, sid, quantity.value, isMandatory);
    AddKeepsKeysUnique(db.packages, item);
    db.packages := db.packages + [item];
    outcome := Updated;
    cost := ItemCost(quantity.value, db.supplies[sid].unitPrice);
  }

  /** Inserting a pair the table lacks keeps the composite key unique. */
  lemma AddKeepsKeysUnique(items: seq<PackageItem>, it: PackageItem)
    requires KeysUnique(items) && !HasPair(items, it.roomId, it.supplyId)
    ensures KeysUnique(items + [it])
  {
    var r := items + [it];
    forall i, j | 0 <= i < j < |r| ensures r[i].roomId != r[j].roomId || r[i].supplyId != r[j].supplyId {
      if j == |items| {
        assert r[i] == items[i];
      } else {
        assert r[i] == items[i] && r[j] == items[j];
      }
    }
  }

  /** After a successful insert the room's package lists the supply exactly
      once, with the quantity given. */
  lemma AddedItemInPackage(items: seq<PackageItem>, supplies: map<int, Supply>, it: PackageItem)
    requires KeysUnique(items) && !HasPair(items, it.roomId, it.supplyId) && it.supplyId in supplies
    ensures var rows := SupplyPackage(items + [it], supplies, it.roomId, false);
      rows != [] && rows[|rows| - 1].supplyId == it.supplyId && rows[|rows| - 1].quantity == it.quantity &&
      forall k :: 0 <= k < |rows| - 1 ==> rows[k].supplyId != it.supplyId
  {
    var items2 := items + [it];
    assert items2[..|items2| - 1] == items;
    var rows := SupplyPackage(items2, supplies, it.roomId, false);
    AddKeepsKeysUnique(items, it);
    PackageSuppliesDistinct(items2, supplies, it.roomId, false);
  }

  // ----------------------------------------------------------- room_package

  /** The supplies not in the package, in the order listed: the filter of
      `room_package` as intended, with the package rows' supply ids. */
  function AvailableSupplies(package: seq<PackageRow>, supplies: seq<Supply>): (r: seq<Supply>)
    ensures |r| <= |supplies|
  {
    if supplies == [] then []
    else
      var s := supplies[|supplies| - 1];
      AvailableSupplies(package, supplies[..|supplies| - 1])
      + (if exists k :: 0 <= k < |package| && package[k].supplyId == s.id then [] else [s])
  }

  /** A supply is offered iff it is listed and no package row holds it. */
  lemma {:induction false} AvailableSuppliesMembers(package: seq<PackageRow>, supplies: seq<Supply>)
    ensures forall s :: s in AvailableSupplies(package, supplies) <==>
      s in supplies && forall k :: 0 <= k < |package| ==> package[k].supplyId != s.id
  {
    if supplies != [] {
      AvailableSuppliesMembers(package, supplies[..|supplies| - 1]);
      assert supplies == supplies[..|supplies| - 1] + [supplies[|supplies| - 1]];
    }
  }

  /** The filter works supply by supply, so it keeps the listing's order:
      filtering a concatenation concatenates the filtered parts. */
  lemma {:induction false} AvailableSuppliesAppend(package: seq<PackageRow>, a: seq<Supply>, b: seq<Supply>)
    ensures AvailableSupplies(package, a + b) == AvailableSupplies(package, a) + AvailableSupplies(package, b)
  {
    if b == [] {
      assert a + b == a;
    } else {
      var b0 := b[..|b| - 1];
      AvailableSuppliesAppend(package, a, b0);
      assert (a + b)[..|a + b| - 1] == a + b0;
    }
  }

  /** `room_package` as written: the comprehension reads `item.supply_id`,
      a column the package rows lack (they carry the supply's own `id`), so
      the route raises whenever the room has a package; with an empty package
      every listed supply is offered. */
  function RoomPackageAsWritten(package: seq<PackageRow>, supplies: seq<Supply>): Option<seq<Supply>> {
    if package == [] then Some(supplies) else None
  }

  /** A room with a one-item package cannot open its package page, while the
      intended filter offers the other supplies. */
  lemma RoomPackageFailsWithItems(s: Supply, t: Supply)
    requires s.id != t.id
    ensures var package := [PackageRow(s.id, s.name, s.unitPrice, 1, true)];
      RoomPackageAsWritten(package, [s, t]).None? && AvailableSupplies(package, [s, t]) == [t]
  {
    var package := [PackageRow(s.id, s.name, s.unitPrice, 1, true)];
    assert [s, t][..1] == [s];
    assert package[0].supplyId == s.id;
    assert AvailableSupplies(package, [s]) == [];
  }

  /** Where the route as written answers at all, it answers like the
      intended filter. */
  lemma RoomPackageAgreesWhenEmpty(package: seq<PackageRow>, supplies: seq<Supply>)
    ensures RoomPackageAsWritten(package, supplies).Some? ==>
      RoomPackageAsWritten(package, supplies).value == AvailableSupplies(package, supplies)
  {
    if package == [] {
      AvailableSuppliesMembers(package, supplies);
      AvailableNothingExcluded(supplies);
    }
  }

  lemma {:induction false} AvailableNothingExcluded(supplies: seq<Supply>)
    ensures AvailableSupplies([], supplies) == supplies
  {
    if supplies != [] {
      AvailableNothingExcluded(supplies[..|supplies| - 1]);
    }
  }

  // --------------------------------------------------------------- analytics

  /** A row of the `room_costs` table of `analytics`; `tier` is the room's
      tier as displayed. */
  datatype RoomCost = RoomCost(roomName: string, tier: string, packageCost: real, itemCount: nat)

  /** The row of a room: its package cost and the number of package rows. */
  function RoomCostOf(room: Room, items: seq<PackageItem>, supplies: map<int, Supply>): RoomCost {
    var rows := SupplyPackage(items, supplies, room.id, false);
    RoomCost(room.name, TierDisplay(room.tier), PackageCost(rows), |rows|)
  }

  /** The rows with a positive cost, in room order. */
  function CostedRooms(rooms: seq<Room>, items: seq<PackageItem>, supplies: map<int, Supply>): seq<RoomCost> {
    if rooms == [] then []
    else
      var c := RoomCostOf(rooms[|rooms| - 1], items, supplies);
      CostedRooms(rooms[..|rooms| - 1], items, supplies) + (if c.packageCost > 0.0 then [c] else [])
  }

  /** `key=package_cost, reverse=True`: a dearer package ranks first. */
  predicate CostAhead(a: RoomCost, b: RoomCost) {
    a.packageCost > b.packageCost
  }

  lemma CostAheadIsStrictWeakOrder()
    ensures Sorting.StrictWeakOrder(CostAhead)
  {
  }

  /** The `room_costs` loop of `analytics` and its in-place sort: Python's
      sort with `reverse=True` is stable, which `Sorting.Sort` is too. */
  method RoomCosts(rooms: seq<Room>, items: seq<PackageItem>, supplies: map<int, Supply>) returns (roomCosts: seq<RoomCost>)
    ensures roomCosts == Sorting.Sort(CostedRooms(rooms, items, supplies), CostAhead)
  {
    roomCosts := [];
    for i := 0 to |rooms|
      invariant roomCosts == CostedRooms(rooms[..i], items, supplies)
    {
      CostedRoomsStep(rooms, items, supplies, i);
      var room := rooms[i];
      var rows := SupplyPackage(items, supplies, room.id, false);
      var cost := CalculatePackageCost(rows);
      var row := RoomCost(room.name, TierDisplay(room.tier), cost, |rows|);
      assert row == RoomCostOf(room, items, supplies);
      if cost > 0.0 {
        roomCosts := roomCosts + [row];
      }
    }
    assert rooms[..|rooms|] == rooms;
    roomCosts := Sorting.Sort(roomCosts, CostAhead);
  }

  lemma CostedRoomsStep(rooms: seq<Room>, items: seq<PackageItem>, supplies: map<int, Supply>, i: nat)
    requires i < |rooms|
    ensures var c := RoomCostOf(rooms[i], items, supplies);
      CostedRooms(rooms[..i + 1], items, supplies) == CostedRooms(rooms[..i], items, supplies) + (if c.packageCost > 0.0 then [c] else [])
  {
    assert rooms[..i + 1][..i] == rooms[..i];
  }

  lemma {:induction false} CostedRoomsMembers(rooms: seq<Room>, items: seq<PackageItem>, supplies: map<int, Supply>)
    ensures forall c :: c in CostedRooms(rooms, items, supplies) <==>
      c.packageCost > 0.0 && exists room :: room in rooms && c == RoomCostOf(room, items, supplies)
  {
    if rooms != [] {
      var p := rooms[..|rooms| - 1];
      CostedRoomsMembers(p, items, supplies);
      assert rooms == p + [rooms[|rooms| - 1]];
    }
  }

  /** The table lists a room's row iff its package costs something, dearest
      first, and rooms of equal cost keep their order. */
  lemma RoomCostsRanked(rooms: seq<Room>, items: seq<PackageItem>, supplies: map<int, Supply>)
    ensures var r := Sorting.Sort(CostedRooms(rooms, items, supplies), CostAhead);
      (forall c :: c in r <==> c.packageCost > 0.0 && exists room :: room in rooms && c == RoomCostOf(room, items, supplies)) &&
      (forall i, j :: 0 <= i < j < |r| ==> r[i].packageCost >= r[j].packageCost) &&
      (forall e :: Sorting.TiedWith(r, e, CostAhead) == Sorting.TiedWith(CostedRooms(rooms, items, supplies), e, CostAhead))
  {
    var s := CostedRooms(rooms, items, supplies);
    var r := Sorting.Sort(s, CostAhead);
    CostedRoomsMembers(rooms, items, supplies);
    assert forall c :: c in r <==> c in multiset(r);
    assert forall c :: c in s <==> c in multiset(s);
    CostAheadIsStrictWeakOrder();
    Sorting.SortRanked(s, CostAhead);
    forall e ensures Sorting.TiedWith(r, e, CostAhead) == Sorting.TiedWith(s, e, CostAhead) {
      Sorting.SortStable(s, e, CostAhead);
    }
  }

  /** The rooms named in the package table. */
  function PackagedRooms(items: seq<PackageItem>): set<int> {
    set i | 0 <= i < |items| :: items[i].roomId
  }

  /** `coverage_percentage`: rooms with a package over all rooms, times 100,
      or 0 when there are no rooms. */
  function Coverage(items: seq<PackageItem>, totalRooms: nat): (c: real)
    ensures c >= 0.0
    ensures totalRooms == 0 ==> c == 0.0
    ensures c == 0.0 <==> totalRooms == 0 || items == []
  {
    if totalRooms > 0 then
      assert items != [] ==> items[0].roomId in PackagedRooms(items);
      (|PackagedRooms(items)| as real) / (totalRooms as real) * 100.0
    else 0.0
  }
}
