/** The routes that set a supply's stock by hand (`ajax_update_stock` in
    app/routes/ajax_routes.py, `update_stock` in app/routes/main_routes.py,
    `update_stock_ajax` in app/routes.py) and the room-status switch of
    app/routes.py. Each either commits its change or leaves the database as
    it was. */
module StockRoutes {
  import opened Common
  import opened Ledger
  import opened Supplies
  import opened Store
  import Forms

  /** `ajax_update_stock`: a truthy supply id, a truthy action and a positive
      quantity are required; 'add' adds the quantity, 'subtract' takes it
      only when the shelf holds it, and any other action is refused. */
  method AjaxUpdateStock(db: Db, supplyId: Option<int>, action: string, quantity: int) returns (outcome: Outcome)
    requires db.Valid()
    modifies db
    ensures db.Valid()
    ensures outcome in {Invalid, NotFound, UnknownAction, Insufficient, Updated}
    ensures db.rooms == old(db.rooms) && db.stays == old(db.stays) && db.usages == old(db.usages)
    ensures db.packages == old(db.packages)
    ensures outcome == Invalid <==> !IntTruthy(supplyId) || action == "" || quantity <= 0
    ensures outcome == NotFound <==> outcome != Invalid && supplyId.value !in old(db.supplies)
    ensures outcome == UnknownAction <==>
      outcome !in {Invalid, NotFound} && action != "add" && action != "subtract"
    ensures outcome == Insufficient <==> (outcome !in {Invalid, NotFound} && action == "subtract" &&
                                          old(db.supplies)[supplyId.value].currentStock < quantity)
    ensures outcome != Updated ==> db.supplies == old(db.supplies)
    ensures outcome == Updated ==> db.supplies == WithStock(old(db.supplies), supplyId.value,
      old(db.supplies)[supplyId.value].currentStock + (if action == "add" then quantity else -quantity))
    ensures NoNewNegative(Inventory(old(db.supplies), db.usages), Inventory(db.supplies, db.usages))
  {
    if supplyId.None? || supplyId.value == 0 || action == "" || quantity <= 0 {
      return Invalid;
    }
    var sid := supplyId.value;
    if sid !in db.supplies {
      return NotFound;
    }
    var supply := db.supplies[sid];
    if action == "add" {
      supply := supply.(currentStock := supply.currentStock + quantity);
    } else if action == "subtract" {
      if supply.currentStock < quantity {
        return Insufficient;
      }
      supply := supply.(currentStock := supply.currentStock - quantity);
    } else {
      return UnknownAction;
    }
    db.supplies := db.supplies[sid := supply];
    outcome := Updated;
  }

  /** `update_stock` as written. Once the form validates, the handler reads
      `form.action` and `form.quantity`, which `UpdateStockForm` does not
      declare; the AttributeError lands in the handler's `except`, which rolls
      back. So no request ever changes the stock. */
  method UpdateStock(db: Db, supplyId: int, form: Forms.UpdateStockForm) returns (outcome: Outcome)
    ensures outcome != Updated
    ensures outcome == NotFound <==> supplyId !in db.supplies
    ensures outcome == Invalid <==> supplyId in db.supplies && !Forms.UpdateStockFormValid(form)
    ensures outcome == Failed <==> supplyId in db.supplies && Forms.UpdateStockFormValid(form)
  {
    if supplyId !in db.supplies {
      return NotFound;
    }
    if !Forms.UpdateStockFormValid(form) {
      return Invalid;
    }
    outcome := Failed;
  }

  /** A form carrying what `update_stock` reads: the action and the quantity. */
  datatype StockChangeForm = StockChangeForm(action: string, quantity: Option<int>)

  /** `update_stock` with a form that has the fields it reads, the quantity
      validated as a stock count: 'add' adds it, 'subtract' takes it only
      when the shelf holds it, and any other action sets the stock to it. */
  method UpdateStockCorrected(db: Db, supplyId: int, form: StockChangeForm) returns (outcome: Outcome)
    requires db.Valid()
    modifies db
    ensures db.Valid()
    ensures db.rooms == old(db.rooms) && db.stays == old(db.stays) && db.usages == old(db.usages)
    ensures db.packages == old(db.packages)
    ensures outcome == NotFound <==> supplyId !in old(db.supplies)
    ensures outcome == Invalid <==> supplyId in old(db.supplies) && !Forms.StockFieldValidIntended(form.quantity)
    ensures outcome == Insufficient <==> (outcome !in {NotFound, Invalid} && form.action == "subtract" &&
                                          old(db.supplies)[supplyId].currentStock < form.quantity.value)
    ensures outcome !in {NotFound, Invalid, Insufficient} <==> outcome == Updated
    ensures outcome != Updated ==> db.supplies == old(db.supplies)
    ensures outcome == Updated ==> db.supplies == WithStock(old(db.supplies), supplyId,
      var stock, q := old(db.supplies)[supplyId].currentStock, form.quantity.value;
      if form.action == "add" then stock + q else if form.action == "subtract" then stock - q else q)
    ensures NoNewNegative(Inventory(old(db.supplies), db.usages), Inventory(db.supplies, db.usages))
  {
    if supplyId !in db.supplies {
      return NotFound;
    }
    if !Forms.StockFieldValidIntended(form.quantity) {
      return Invalid;
    }
    var supply := db.supplies[supplyId];
    var quantity := form.quantity.value;
    if form.action == "add" {
      supply := supply.(currentStock := supply.currentStock + quantity);
    } else if form.action == "subtract" {
      if supply.currentStock < quantity {
        return Insufficient;
      }
      supply := supply.(currentStock := supply.currentStock - quantity);
    } else {
      supply := supply.(currentStock := quantity);
    }
    db.supplies := db.supplies[supplyId := supply];
    outcome := Updated;
  }

  /** `update_stock_ajax` of app/routes.py: the stock moves by a signed
      change, refused when it would end below zero. */
  method UpdateStockAjax(db: Db, supplyId: int, change: int) returns (outcome: Outcome)
    requires db.Valid()
    modifies db
    ensures db.Valid()
    ensures db.rooms == old(db.rooms) && db.stays == old(db.stays) && db.usages == old(db.usages)
    ensures db.packages == old(db.packages)
    ensures outcome == NotFound <==> supplyId !in old(db.supplies)
    ensures outcome == Invalid <==> supplyId in old(db.supplies) && old(db.supplies)[supplyId].currentStock + change < 0
    ensures outcome in {NotFound, Invalid, Updated}
    ensures outcome != Updated ==> db.supplies == old(db.supplies)
    ensures outcome == Updated ==> db.supplies == WithStock(old(db.supplies), supplyId,
                                                            old(db.supplies)[supplyId].currentStock + change)
    ensures outcome == Updated ==> db.supplies[supplyId].currentStock >= 0
  {
    if supplyId !in db.supplies {
      return NotFound;
    }
    var supply := db.supplies[supplyId];
    var newStock := supply.currentStock + change;
    if newStock < 0 {
      return Invalid;
    }
    db.supplies := db.supplies[supplyId := supply.(currentStock := newStock)];
    outcome := Updated;
  }

  /** The statuses `update_room_status` accepts. */
  const RoomStatuses: set<string> := {"Limpia", "Sucia", "Mantenimiento", "Ocupada"}

  /** `update_room_status`: only a listed status is written; any other value
      leaves the room as it was. */
  method UpdateRoomStatus(db: Db, roomId: int, status: Option<string>) returns (outcome: Outcome)
    requires db.Valid()
    modifies db
    ensures db.Valid()
    ensures db.supplies == old(db.supplies) && db.stays == old(db.stays) && db.usages == old(db.usages)
    ensures db.packages == old(db.packages)
    ensures outcome == NotFound <==> roomId !in old(db.rooms)
    ensures outcome == Updated <==> roomId in old(db.rooms) && status.Some? && status.value in RoomStatuses
    ensures outcome in {NotFound, Invalid, Updated}
    ensures outcome == Updated ==> db.rooms == old(db.rooms)[roomId := old(db.rooms)[roomId].(status := status.value)]
    ensures outcome != Updated ==> db.rooms == old(db.rooms)
  {
    if roomId !in db.rooms {
      return NotFound;
    }
    if status.Some? && status.value in RoomStatuses {
      db.rooms := db.rooms[roomId := db.rooms[roomId].(status := status.value)];
      return Updated;
    }
    outcome := Invalid;
  }
}
