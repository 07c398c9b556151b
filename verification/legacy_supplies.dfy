/** The stock routines of the legacy route file app/routes_backup.py:
    `deduct_automatic_supplies` (all or nothing per package item),
    `add_manual_supply_usage` and `quick_inventory_update`, with the status
    the latter reports after its change. */
module LegacySupplies {
  import opened Common
  import opened Ledger
  import opened Supplies
  import opened Store

  // -------------------------------------------------- automatic deduction

  /** The rows of `SELECT supply_id, quantity FROM room_supply_defaults
      WHERE room_id = :room_id`, in table order, mandatory or not. */
  function RoomItems(items: seq<PackageItem>, roomId: int): (r: seq<PackageItem>)
    ensures forall it :: it in r <==> it in items && it.roomId == roomId
  {
    if items == [] then []
    else
      var p := items[..|items| - 1];
      var it := items[|items| - 1];
      assert items == p + [it];
      RoomItems(p, roomId) + (if it.roomId == roomId then [it] else [])
  }

  /** The record the legacy deduction writes: the package quantity, no room,
      no expectation, no price. */
  function AutomaticUsage(stay: Stay, it: PackageItem): (u: Usage)
    ensures u.supplyId == it.supplyId && u.stayId == Some(stay.id) && u.quantityUsed == it.quantity
    ensures u.usageType == Automatic && !u.isConfirmed
  {
    Usage(it.supplyId, Some(stay.id), None, it.quantity, None, Automatic, None, None, false, None, None)
  }

  /** One row of the loop: the supply must exist and cover the whole
      quantity; otherwise nothing happens (a log line is all). */
  function DeductItem(inv: Inventory, stay: Stay, it: PackageItem): Inventory {
    if it.supplyId in inv.supplies && StockOf(inv, it.supplyId) >= it.quantity then
      Inventory(WithStock(inv.supplies, it.supplyId, StockOf(inv, it.supplyId) - it.quantity),
                inv.usages + [AutomaticUsage(stay, it)])
    else inv
  }

  function DeductAll(inv: Inventory, stay: Stay, items: seq<PackageItem>): Inventory {
    if items == [] then inv
    else DeductItem(DeductAll(inv, stay, items[..|items| - 1]), stay, items[|items| - 1])
  }

  /** `deduct_automatic_supplies`. */
  method DeductAutomaticSupplies(db: Db, stay: Stay)
    requires db.Valid()
    modifies db
    ensures db.Valid()
    ensures Inventory(db.supplies, db.usages)
         == DeductAll(Inventory(old(db.supplies), old(db.usages)), stay, RoomItems(old(db.packages), stay.roomId))
    ensures db.rooms == old(db.rooms) && db.stays == old(db.stays) && db.packages == old(db.packages)
  {
    var packageData := RoomItems(db.packages, stay.roomId);
    ghost var inv0 := Inventory(db.supplies, db.usages);
    for i := 0 to |packageData|
      invariant db.Valid()
      invariant Inventory(db.supplies, db.usages) == DeductAll(inv0, stay, packageData[..i])
      invariant db.rooms == old(db.rooms) && db.stays == old(db.stays) && db.packages == old(db.packages)
    {
      var it := packageData[i];
      var inv := Inventory(db.supplies, db.usages);
      DeductAllStep(inv0, stay, packageData, i);
      DeductItemLinked(inv, stay, it);
      if it.supplyId in inv.supplies && StockOf(inv, it.supplyId) >= it.quantity {
        db.usages := inv.usages + [AutomaticUsage(stay, it)];
        db.supplies := WithStock(inv.supplies, it.supplyId, StockOf(inv, it.supplyId) - it.quantity);
      }
    }
    assert packageData[..|packageData|] == packageData;
  }

  lemma DeductAllStep(inv: Inventory, stay: Stay, items: seq<PackageItem>, i: nat)
    requires i < |items|
    ensures DeductAll(inv, stay, items[..i + 1]) == DeductItem(DeductAll(inv, stay, items[..i]), stay, items[i])
  {
    assert items[..i + 1][..i] == items[..i];
  }

  lemma DeductItemLinked(inv: Inventory, stay: Stay, it: PackageItem)
    requires Linked(inv)
    ensures Linked(DeductItem(inv, stay, it))
  {
    if it.supplyId in inv.supplies && StockOf(inv, it.supplyId) >= it.quantity {
      LinkedAppend(inv, AutomaticUsage(stay, it));
      LinkedWithStock(Inventory(inv.supplies, inv.usages + [AutomaticUsage(stay, it)]), it.supplyId,
                      StockOf(inv, it.supplyId) - it.quantity);
    }
  }

  /** All or nothing per item: either the row changes nothing, or exactly its
      quantity leaves the shelf (which held it) and one record of that
      quantity is added. */
  lemma DeductItemAllOrNothing(inv: Inventory, stay: Stay, it: PackageItem)
    ensures var after := DeductItem(inv, stay, it);
      after == inv ||
      (it.supplyId in inv.supplies && StockOf(inv, it.supplyId) >= it.quantity &&
       StockOf(after, it.supplyId) == StockOf(inv, it.supplyId) - it.quantity >= 0 &&
       after.usages == inv.usages + [AutomaticUsage(stay, it)])
  {
  }

  /** Over the whole package, the books stay balanced and no supply is taken
      below zero. */
  lemma {:induction false} DeductAllBalanced(inv: Inventory, stay: Stay, items: seq<PackageItem>)
    ensures Conserves(inv, DeductAll(inv, stay, items))
    ensures NoNewNegative(inv, DeductAll(inv, stay, items))
  {
    if items != [] {
      var p := items[..|items| - 1];
      var it := items[|items| - 1];
      var mid := DeductAll(inv, stay, p);
      DeductAllBalanced(inv, stay, p);
      if it.supplyId in mid.supplies && StockOf(mid, it.supplyId) >= it.quantity {
        DeductAndRecord(mid, it.supplyId, it.quantity, AutomaticUsage(stay, it));
      }
      ConservesTrans(inv, mid, DeductAll(inv, stay, items));
      NoNewNegativeTrans(inv, mid, DeductAll(inv, stay, items));
    }
  }

  // ------------------------------------------------------------ manual use

  /** The record of a manual use: no stay, the user who entered it. */
  function ManualUsage(supplyId: int, quantity: int, userId: int): (u: Usage)
    ensures u.supplyId == supplyId && u.stayId.None? && u.quantityUsed == quantity && u.usageType == Manual
  {
    Usage(supplyId, None, None, quantity, None, Manual, None, None, false, Some(userId), None)
  }

  /** A manual use on the books: the quantity leaves the shelf and one
      manual record of it is added. */
  function ManualUse(inv: Inventory, supplyId: int, quantity: int, userId: int): Inventory
    requires supplyId in inv.supplies
  {
    Inventory(WithStock(inv.supplies, supplyId, StockOf(inv, supplyId) - quantity),
              inv.usages + [ManualUsage(supplyId, quantity, userId)])
  }

  /** A manual use the shelf covers keeps the books balanced and linked and
      takes no supply below zero. */
  lemma ManualUseBalanced(inv: Inventory, supplyId: int, quantity: int, userId: int)
    requires supplyId in inv.supplies && StockOf(inv, supplyId) >= quantity
    ensures Conserves(inv, ManualUse(inv, supplyId, quantity, userId))
    ensures NoNewNegative(inv, ManualUse(inv, supplyId, quantity, userId))
  {
    DeductAndRecord(inv, supplyId, quantity, ManualUsage(supplyId, quantity, userId));
  }

  lemma ManualUseLinked(inv: Inventory, supplyId: int, quantity: int, userId: int)
    requires Linked(inv) && supplyId in inv.supplies
    ensures Linked(ManualUse(inv, supplyId, quantity, userId))
  {
    LinkedAppend(inv, ManualUsage(supplyId, quantity, userId));
    LinkedWithStock(Inventory(inv.supplies, inv.usages + [ManualUsage(supplyId, quantity, userId)]), supplyId,
                    StockOf(inv, supplyId) - quantity);
  }

  /** `add_manual_supply_usage`: refused when the shelf holds less than the
      quantity; otherwise the quantity leaves the shelf and a manual record
      of it is added. The quantity is not checked for sign. */
  method AddManualSupplyUsage(db: Db, supplyId: int, quantity: int, userId: int) returns (outcome: Outcome)
    requires db.Valid()
    modifies db
    ensures db.Valid()
    ensures db.rooms == old(db.rooms) && db.stays == old(db.stays) && db.packages == old(db.packages)
    ensures outcome in {NotFound, Insufficient, Updated}
    ensures outcome == NotFound <==> supplyId !in old(db.supplies)
    ensures outcome == Insufficient <==> supplyId in old(db.supplies) && old(db.supplies)[supplyId].currentStock < quantity
    ensures outcome != Updated ==> db.supplies == old(db.supplies) && db.usages == old(db.usages)
    ensures outcome == Updated ==>
      Inventory(db.supplies, db.usages) == ManualUse(Inventory(old(db.supplies), old(db.usages)), supplyId, quantity, userId)
  {
    if supplyId !in db.supplies {
      return NotFound;
    }
    var supply := db.supplies[supplyId];
    if supply.currentStock < quantity {
      return Insufficient;
    }
    var after := ManualUse(Inventory(db.supplies, db.usages), supplyId, quantity, userId);
    ManualUseLinked(Inventory(db.supplies, db.usages), supplyId, quantity, userId);
    db.supplies := after.supplies;
    db.usages := after.usages;
    outcome := Updated;
  }

  // ------------------------------------------------------- quick inventory

  /** The status `quick_inventory_update` reports for the new stock:
      critical at or below the minimum, warning up to one and a half times
      it, otherwise ok (None). */
  function PostUpdateStatus(newStock: int, minimum: int): (s: Option<AlertLevel>)
    ensures s == AlertLevelOf(newStock, minimum)
  {
    var isCritical := newStock <= minimum;
    var isWarning := (newStock as real) <= (minimum as real) * 1.5 && !isCritical;
    if isCritical then Some(Critical) else if isWarning then Some(Warning) else None
  }

  /** The actions `quick_inventory_update` knows, read off the request's text. */
  datatype QuickAction = AddUnits | UseUnits | AdjustTo | UnknownQuickAction

  function QuickActionOf(action: string): (a: QuickAction)
    ensures a == AddUnits <==> action == "add"
    ensures a == UseUnits <==> action == "use"
    ensures a == AdjustTo <==> action == "adjust"
  {
    if action == "add" then AddUnits
    else if action == "use" then UseUnits
    else if action == "adjust" then AdjustTo
    else UnknownQuickAction
  }

  /** The books after a quick update the route accepts: 'add' and 'adjust'
      only set the stock, 'use' is a manual use. */
  function QuickChange(inv: Inventory, supplyId: int, quantity: int, act: QuickAction, userId: int): Inventory
    requires supplyId in inv.supplies
  {
    match act
    case UseUnits => ManualUse(inv, supplyId, quantity, userId)
    case AddUnits => Inventory(WithStock(inv.supplies, supplyId, StockOf(inv, supplyId) + quantity), inv.usages)
    case _ => Inventory(WithStock(inv.supplies, supplyId, quantity), inv.usages)
  }

  lemma QuickChangeLinked(inv: Inventory, supplyId: int, quantity: int, act: QuickAction, userId: int)
    requires Linked(inv) && supplyId in inv.supplies
    ensures Linked(QuickChange(inv, supplyId, quantity, act, userId))
  {
    match act
    case UseUnits => ManualUseLinked(inv, supplyId, quantity, userId);
    case AddUnits => LinkedWithStock(inv, supplyId, StockOf(inv, supplyId) + quantity);
    case _ => LinkedWithStock(inv, supplyId, quantity);
  }

  /** What each accepted action does to the books: only the one stock moves,
      by the quantity or to it; a covered 'use' keeps the books balanced and
      takes nothing below zero, while 'add' and 'adjust' write no record, so
      they keep the books balanced only when they leave the stock as it was. */
  lemma QuickChangeEffect(inv: Inventory, supplyId: int, quantity: int, act: QuickAction, userId: int)
    requires supplyId in inv.supplies
    requires act == UseUnits ==> StockOf(inv, supplyId) >= quantity
    ensures var after := QuickChange(inv, supplyId, quantity, act, userId);
      after.supplies.Keys == inv.supplies.Keys &&
      (forall sid :: sid in inv.supplies && sid != supplyId ==> after.supplies[sid] == inv.supplies[sid]) &&
      StockOf(after, supplyId) == (if act == AddUnits then StockOf(inv, supplyId) + quantity
                                   else if act == UseUnits then StockOf(inv, supplyId) - quantity
                                   else quantity)
    ensures act == UseUnits ==>
      Conserves(inv, QuickChange(inv, supplyId, quantity, act, userId)) &&
      NoNewNegative(inv, QuickChange(inv, supplyId, quantity, act, userId))
    ensures act != UseUnits ==>
      var after := QuickChange(inv, supplyId, quantity, act, userId);
      after.usages == inv.usages &&
      (Conserves(inv, after) <==> StockOf(after, supplyId) == StockOf(inv, supplyId))
  {
    if act == UseUnits {
      ManualUseBalanced(inv, supplyId, quantity, userId);
    } else {
      var after := QuickChange(inv, supplyId, quantity, act, userId);
      if Conserves(inv, after) {
        assert StockOf(after, supplyId) + Recorded(after.usages, supplyId)
            == StockOf(inv, supplyId) + Recorded(inv.usages, supplyId);
      }
    }
  }

  /** `quick_inventory_update`: a zero supply id or quantity is refused;
      'add' adds the quantity, 'use' takes it (only when the shelf holds it)
      and records a manual use, 'adjust' sets the stock to it, any other
      action is refused. Neither sign nor result is checked for 'add' and
      'adjust'. `status` is the reported class of the new stock. */
  method QuickInventoryUpdate(db: Db, supplyId: int, quantity: int, action: string, userId: int)
    returns (outcome: Outcome, status: Option<AlertLevel>)
    requires db.Valid()
    modifies db
    ensures db.Valid()
    ensures db.rooms == old(db.rooms) && db.stays == old(db.stays) && db.packages == old(db.packages)
    ensures outcome in {Invalid, NotFound, UnknownAction, Insufficient, Updated}
    ensures outcome == Invalid <==> supplyId == 0 || quantity == 0
    ensures outcome == NotFound <==> outcome != Invalid && supplyId !in old(db.supplies)
    ensures outcome == UnknownAction <==> (outcome !in {Invalid, NotFound} &&
                                           QuickActionOf(action) == UnknownQuickAction)
    ensures outcome == Insufficient <==> (outcome !in {Invalid, NotFound} && QuickActionOf(action) == UseUnits &&
                                          old(db.supplies)[supplyId].currentStock < quantity)
    ensures outcome != Updated ==> db.supplies == old(db.supplies) && db.usages == old(db.usages)
    ensures outcome == Updated ==>
      Inventory(db.supplies, db.usages)
        == QuickChange(Inventory(old(db.supplies), old(db.usages)), supplyId, quantity, QuickActionOf(action), userId) &&
      status == AlertLevelOf(db.supplies[supplyId].currentStock, db.supplies[supplyId].minimumStock)
  {
    status := None;
    if supplyId == 0 || quantity == 0 {
      return Invalid, None;
    }
    if supplyId !in db.supplies {
      return NotFound, None;
    }
    var inv := Inventory(db.supplies, db.usages);
    var supply := inv.supplies[supplyId];
    var oldStock := supply.currentStock;
    var newStock;
    var act := QuickActionOf(action);
    if act == AddUnits {
      newStock := oldStock + quantity;
    } else if act == UseUnits {
      if oldStock < quantity {
        return Insufficient, None;
      }
      newStock := oldStock - quantity;
    } else if act == AdjustTo {
      newStock := quantity;
    } else {
      return UnknownAction, None;
    }
    var after := QuickChange(inv, supplyId, quantity, act, userId);
    QuickChangeLinked(inv, supplyId, quantity, act, userId);
    assert after.supplies[supplyId] == supply.(currentStock := newStock);
    db.supplies := after.supplies;
    db.usages := after.usages;
    outcome := Updated;
    status := PostUpdateStatus(newStock, supply.minimumStock);
  }
}
