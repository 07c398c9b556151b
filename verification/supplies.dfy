/** The supply side of models.py: supplies and their stock classifiers, the
    inventory alert report, supply-usage records with their cost and variance
    rules, the room-supply package table, and the cash-closure due date. */
module Supplies {
  import opened Common
  import Calendar
  import Sorting

  // ---------------------------------------------------------------- supplies

  /** A row of `supply`; `unitPrice` is a nullable float. */
  datatype Supply = Supply(id: int, name: string, category: string, currentStock: int,
                           minimumStock: int, unitPrice: Option<real>)

  /** `Supply.is_low_stock`. */
  predicate IsLowStock(s: Supply) {
    s.currentStock <= s.minimumStock
  }

  /** The three texts of `stock_status`: Agotado, Stock Bajo, Stock Normal. */
  datatype StockLabel = OutOfStock | LowStock | NormalStock

  /** `Supply.stock_status`: an empty shelf is reported first, whatever the minimum. */
  function StockStatus(s: Supply): StockLabel {
    if s.currentStock == 0 then OutOfStock
    else if IsLowStock(s) then LowStock
    else NormalStock
  }

  /** With a non-negative minimum the label agrees with `is_low_stock`: only
      a supply above its minimum is normal. A negative minimum lets an empty
      shelf be both "Agotado" and not low. */
  lemma StockStatusAgreesWithLowStock(s: Supply)
    ensures s.minimumStock >= 0 ==> (StockStatus(s) == NormalStock <==> !IsLowStock(s))
    ensures StockStatus(s) == LowStock ==> IsLowStock(s) && s.currentStock != 0
    ensures s.minimumStock < 0 && s.currentStock == 0 ==> StockStatus(s) == OutOfStock && !IsLowStock(s)
  {
  }

  // -------------------------------------------------------- inventory alerts

  datatype AlertLevel = Critical | Warning

  /** The class `get_inventory_status` puts a stock level in: critical at or
      below the minimum, otherwise warning up to one and a half times it. */
  function AlertLevelOf(stock: int, minimum: int): (l: Option<AlertLevel>)
    ensures l == Some(Critical) <==> stock <= minimum
    ensures l == Some(Warning) <==> minimum < stock && (stock as real) <= (minimum as real) * 1.5
  {
    if stock <= minimum then Some(Critical)
    else if (stock as real) <= (minimum as real) * 1.5 then Some(Warning)
    else None
  }

  /** One entry of the `alerts` list. */
  datatype Alert = Alert(supplyId: int, name: string, category: string, currentStock: int,
                         minimumStock: int, level: AlertLevel)

  function AlertFor(s: Supply): seq<Alert> {
    match AlertLevelOf(s.currentStock, s.minimumStock)
    case None => []
    case Some(l) => [Alert(s.id, s.name, s.category, s.currentStock, s.minimumStock, l)]
  }

  /** The alerts of the loop, in the order of the supplies. */
  function AlertsOf(supplies: seq<Supply>): seq<Alert> {
    if supplies == [] then []
    else AlertsOf(supplies[..|supplies| - 1]) + AlertFor(supplies[|supplies| - 1])
  }

  /** Number of alerts of level `l`. */
  function CountLevel(alerts: seq<Alert>, l: AlertLevel): nat {
    if alerts == [] then 0
    else CountLevel(alerts[..|alerts| - 1], l) + (if alerts[|alerts| - 1].level == l then 1 else 0)
  }

  /** Number of supplies whose stock falls in class `l`. */
  function SuppliesAt(supplies: seq<Supply>, l: AlertLevel): nat {
    if supplies == [] then 0
    else
      var s := supplies[|supplies| - 1];
      SuppliesAt(supplies[..|supplies| - 1], l)
      + (if AlertLevelOf(s.currentStock, s.minimumStock) == Some(l) then 1 else 0)
  }

  /** The sort key `(status == 'warning', current_stock)`, ascending. */
  predicate AlertAhead(a: Alert, b: Alert) {
    (a.level == Critical && b.level == Warning)
    || (a.level == b.level && a.currentStock < b.currentStock)
  }

  lemma AlertAheadIsStrictWeakOrder()
    ensures Sorting.StrictWeakOrder(AlertAhead)
  {
  }

  datatype InventoryStatus = InventoryStatus(criticalCount: nat, warningCount: nat, alerts: seq<Alert>)

  /** `Supply.get_inventory_status` over the rows of `supply`: two counters
      and the alert list, which is then sorted. */
  method GetInventoryStatus(supplies: seq<Supply>) returns (r: InventoryStatus)
    ensures r.criticalCount == CountLevel(AlertsOf(supplies), Critical)
    ensures r.warningCount == CountLevel(AlertsOf(supplies), Warning)
    ensures r.alerts == Sorting.Sort(AlertsOf(supplies), AlertAhead)
  {
    var critical, warning := 0, 0;
    var alerts: seq<Alert> := [];
    for i := 0 to |supplies|
      invariant alerts == AlertsOf(supplies[..i])
      invariant critical == CountLevel(alerts, Critical)
      invariant warning == CountLevel(alerts, Warning)
    {
      var s := supplies[i];
      AlertsOfPrefix(supplies, i);
      AlertCountsStep(alerts, s);
      if s.currentStock <= s.minimumStock {
        critical := critical + 1;
        alerts := alerts + [Alert(s.id, s.name, s.category, s.currentStock, s.minimumStock, Critical)];
      } else if (s.currentStock as real) <= (s.minimumStock as real) * 1.5 {
        warning := warning + 1;
        alerts := alerts + [Alert(s.id, s.name, s.category, s.currentStock, s.minimumStock, Warning)];
      }
    }
    assert supplies[..|supplies|] == supplies;
    r := InventoryStatus(critical, warning, Sorting.Sort(alerts, AlertAhead));
  }

  lemma AlertsOfPrefix(supplies: seq<Supply>, i: nat)
    requires i < |supplies|
    ensures AlertsOf(supplies[..i + 1]) == AlertsOf(supplies[..i]) + AlertFor(supplies[i])
  {
    assert supplies[..i + 1][..i] == supplies[..i];
  }

  /** Each supply lands in at most one class: the counters are the class
      sizes, and together they are the number of alerts. */
  lemma {:induction false} AlertCounts(supplies: seq<Supply>)
    ensures CountLevel(AlertsOf(supplies), Critical) == SuppliesAt(supplies, Critical)
    ensures CountLevel(AlertsOf(supplies), Warning) == SuppliesAt(supplies, Warning)
    ensures |AlertsOf(supplies)| == SuppliesAt(supplies, Critical) + SuppliesAt(supplies, Warning) <= |supplies|
  {
    if supplies != [] {
      var p := supplies[..|supplies| - 1];
      var s := supplies[|supplies| - 1];
      AlertCounts(p);
      AlertCountsStep(AlertsOf(p), s);
    }
  }

  /** Appending one supply's alert adds one to the count of its class only. */
  lemma AlertCountsStep(a: seq<Alert>, s: Supply)
    ensures forall l :: (CountLevel(a + AlertFor(s), l)
                         == CountLevel(a, l) + (if AlertLevelOf(s.currentStock, s.minimumStock) == Some(l) then 1 else 0))
    ensures |AlertFor(s)| == (if AlertLevelOf(s.currentStock, s.minimumStock).Some? then 1 else 0)
  {
    var t := AlertFor(s);
    if t == [] {
      assert a + t == a;
    } else {
      var full := a + t;
      assert full[..|full| - 1] == a;
    }
  }

  /** Every alert stands for a supply of the input, copied field by field
      with the class of its stock, and every supply in a class has one. */
  lemma {:induction false} AlertsOfMembers(supplies: seq<Supply>)
    ensures forall a :: a in AlertsOf(supplies) <==>
      exists s :: s in supplies && AlertLevelOf(s.currentStock, s.minimumStock) == Some(a.level) &&
        a == Alert(s.id, s.name, s.category, s.currentStock, s.minimumStock, a.level)
  {
    if supplies != [] {
      var p := supplies[..|supplies| - 1];
      AlertsOfMembers(p);
      assert supplies == p + [supplies[|supplies| - 1]];
    }
  }

  /** The sorted alert list has every critical alert before every warning,
      and within a class the stock never decreases. */
  lemma InventoryAlertsOrdered(supplies: seq<Supply>)
    ensures forall i, j :: 0 <= i < j < |Sorting.Sort(AlertsOf(supplies), AlertAhead)| ==>
      var r := Sorting.Sort(AlertsOf(supplies), AlertAhead);
      !(r[i].level == Warning && r[j].level == Critical) &&
      (r[i].level == r[j].level ==> r[i].currentStock <= r[j].currentStock)
  {
    AlertAheadIsStrictWeakOrder();
    Sorting.SortRanked(AlertsOf(supplies), AlertAhead);
  }

  // ------------------------------------------------------------ supply usage

  /** `SupplyUsage.usage_type`: Automático, Verificado, Manual, Ajuste, Devolución. */
  datatype UsageType = Automatic | Verified | Manual | Adjustment | Returned

  /** A row of `supply_usage` (notes, source and usage date left out). */
  datatype Usage = Usage(supplyId: int, stayId: Option<int>, roomId: Option<int>,
                         quantityUsed: int, quantityExpected: Option<int>, usageType: UsageType,
                         costPerUnit: Option<real>, totalCost: Option<real>,
                         isConfirmed: bool, verifiedBy: Option<int>, verifiedAt: Option<int>)

  /** `SupplyUsage.calculate_cost`; `supplyPrice` is `self.supply.unit_price`,
      None when the relationship is not loaded (a record not yet in the session). */
  function CalculateCost(u: Usage, supplyPrice: Option<real>): real {
    if RealTruthy(u.costPerUnit) then (u.quantityUsed as real) * u.costPerUnit.value
    else if RealTruthy(supplyPrice) then (u.quantityUsed as real) * supplyPrice.value
    else 0.0
  }

  /** The cost is linear in the quantity: splitting a usage in two parts
      splits its cost, and recording nothing costs nothing. */
  lemma CostIsLinear(u: Usage, supplyPrice: Option<real>, a: int, b: int)
    ensures CalculateCost(u.(quantityUsed := a + b), supplyPrice)
         == CalculateCost(u.(quantityUsed := a), supplyPrice) + CalculateCost(u.(quantityUsed := b), supplyPrice)
    ensures CalculateCost(u.(quantityUsed := 0), supplyPrice) == 0.0
  {
  }

  /** `SupplyUsage.get_variance`: used minus expected, or 0 without a truthy expectation. */
  function Variance(u: Usage): int {
    if IntTruthy(u.quantityExpected) then u.quantityUsed - u.quantityExpected.value else 0
  }

  predicate IsOverExpected(u: Usage) {
    Variance(u) > 0
  }

  predicate IsUnderExpected(u: Usage) {
    Variance(u) < 0
  }

  /** Over and under are exclusive; with an expectation they compare the
      quantities, and without one (None or 0) neither holds. */
  lemma VarianceSigns(u: Usage)
    ensures !(IsOverExpected(u) && IsUnderExpected(u))
    ensures IntTruthy(u.quantityExpected) ==>
      (IsOverExpected(u) <==> u.quantityUsed > u.quantityExpected.value) &&
      (IsUnderExpected(u) <==> u.quantityUsed < u.quantityExpected.value)
    ensures !IntTruthy(u.quantityExpected) ==> !IsOverExpected(u) && !IsUnderExpected(u)
  {
  }

  // ----------------------------------------------------------------- packages

  /** A row of the association table `room_supply_defaults`; its primary key
      is the pair (room, supply). */
  datatype PackageItem = PackageItem(roomId: int, supplyId: int, quantity: int, isMandatory: bool)

  /** The composite primary key: no (room, supply) pair occurs twice. */
  predicate KeysUnique(items: seq<PackageItem>) {
    forall i, j :: 0 <= i < j < |items| ==>
      items[i].roomId != items[j].roomId || items[i].supplyId != items[j].supplyId
  }

  /** A row of `get_supply_package` / `get_mandatory_supplies`: the supply's
      columns (`supplyId` is the row's `id`) joined with the package's. The
      row has no `room_id` and no `supply_id` column. */
  datatype PackageRow = PackageRow(supplyId: int, name: string, unitPrice: Option<real>,
                                   quantity: int, isMandatory: bool)

  /** The join behind `Room.get_supply_package` (all items of the room) and
      `Room.get_mandatory_supplies` (only those with `is_mandatory`), in table order. */
  function SupplyPackage(items: seq<PackageItem>, supplies: map<int, Supply>, roomId: int,
                         mandatoryOnly: bool): seq<PackageRow>
  {
    if items == [] then []
    else
      var it := items[|items| - 1];
      SupplyPackage(items[..|items| - 1], supplies, roomId, mandatoryOnly)
      + (if it.roomId == roomId && it.supplyId in supplies && (mandatoryOnly ==> it.isMandatory)
         then [PackageRow(it.supplyId, supplies[it.supplyId].name, supplies[it.supplyId].unitPrice,
                          it.quantity, it.isMandatory)]
         else [])
  }

  /** The rows of a package are items of that room, each with a known supply. */
  lemma {:induction false} SupplyPackageFrom(items: seq<PackageItem>, supplies: map<int, Supply>,
                                             roomId: int, mandatoryOnly: bool, k: nat)
    requires k < |SupplyPackage(items, supplies, roomId, mandatoryOnly)|
    ensures SupplyPackage(items, supplies, roomId, mandatoryOnly)[k].supplyId in supplies
    ensures exists i :: (0 <= i < |items| && items[i].roomId == roomId &&
                         items[i].supplyId == SupplyPackage(items, supplies, roomId, mandatoryOnly)[k].supplyId)
  {
    var p := items[..|items| - 1];
    var rows := SupplyPackage(p, supplies, roomId, mandatoryOnly);
    if k < |rows| {
      SupplyPackageFrom(p, supplies, roomId, mandatoryOnly, k);
      var i :| 0 <= i < |p| && p[i].roomId == roomId && p[i].supplyId == rows[k].supplyId;
      assert items[i] == p[i];
    } else {
      assert items[|items| - 1].supplyId == SupplyPackage(items, supplies, roomId, mandatoryOnly)[k].supplyId;
    }
  }

  /** No supply occurs in two rows. */
  predicate DistinctSupplies(rows: seq<PackageRow>) {
    forall i, j :: 0 <= i < j < |rows| ==> rows[i].supplyId != rows[j].supplyId
  }

  /** Because of the composite key, a room's package never lists a supply twice. */
  lemma {:induction false} PackageSuppliesDistinct(items: seq<PackageItem>, supplies: map<int, Supply>,
                                                   roomId: int, mandatoryOnly: bool)
    requires KeysUnique(items)
    ensures DistinctSupplies(SupplyPackage(items, supplies, roomId, mandatoryOnly))
  {
    if items != [] {
      var p := items[..|items| - 1];
      var it := items[|items| - 1];
      assert KeysUnique(p) by {
        forall i, j | 0 <= i < j < |p| ensures p[i].roomId != p[j].roomId || p[i].supplyId != p[j].supplyId {
          assert p[i] == items[i] && p[j] == items[j];
        }
      }
      PackageSuppliesDistinct(p, supplies, roomId, mandatoryOnly);
      var before := SupplyPackage(p, supplies, roomId, mandatoryOnly);
      var rows := SupplyPackage(items, supplies, roomId, mandatoryOnly);
      if |rows| > |before| {
        assert rows == before + [rows[|before|]];
        assert rows[|before|].supplyId == it.supplyId;
        forall i | 0 <= i < |before| ensures before[i].supplyId != it.supplyId {
          SupplyPackageFrom(p, supplies, roomId, mandatoryOnly, i);
          var m :| 0 <= m < |p| && p[m].roomId == roomId && p[m].supplyId == before[i].supplyId;
          assert items[m] == p[m];
        }
        forall i, j | 0 <= i < j < |rows| ensures rows[i].supplyId != rows[j].supplyId {
          assert rows[i] == before[i];
          if j < |before| {
            assert rows[j] == before[j];
          }
        }
      } else {
        assert rows == before;
        forall i, j | 0 <= i < j < |rows| ensures rows[i].supplyId != rows[j].supplyId {
          assert rows[i] == before[i] && rows[j] == before[j];
        }
      }
    }
  }

  /** One row's contribution to `calculate_package_cost`. */
  function RowCost(r: PackageRow): real {
    if RealTruthy(r.unitPrice) then (r.quantity as real) * r.unitPrice.value else 0.0
  }

  function PackageCost(rows: seq<PackageRow>): real {
    if rows == [] then 0.0 else PackageCost(rows[..|rows| - 1]) + RowCost(rows[|rows| - 1])
  }

  /** `Room.calculate_package_cost`: the loop accumulating quantity times
      unit price over the rows that have a truthy price. */
  method CalculatePackageCost(rows: seq<PackageRow>) returns (total: real)
    ensures total == PackageCost(rows)
  {
    total := 0.0;
    for i := 0 to |rows|
      invariant total == PackageCost(rows[..i])
    {
      assert rows[..i + 1][..i] == rows[..i];
      if rows[i].unitPrice.Some? && rows[i].unitPrice.value != 0.0 {
        total := total + (rows[i].quantity as real) * rows[i].unitPrice.value;
      }
    }
    assert rows[..|rows|] == rows;
  }

  /** With non-negative quantities and prices (the form constraints on
      supplies), a package never costs less than nothing, and it costs
      something only if some row has both a quantity and a price. */
  lemma {:induction false} PackageCostNonNegative(rows: seq<PackageRow>)
    requires forall i :: 0 <= i < |rows| ==> rows[i].quantity >= 0
    requires forall i :: 0 <= i < |rows| ==> rows[i].unitPrice.Some? ==> rows[i].unitPrice.value >= 0.0
    ensures PackageCost(rows) >= 0.0
    ensures PackageCost(rows) > 0.0 ==>
      exists i :: 0 <= i < |rows| && rows[i].quantity > 0 && RealTruthy(rows[i].unitPrice)
  {
    if rows != [] {
      var p := rows[..|rows| - 1];
      var r := rows[|rows| - 1];
      PackageCostNonNegative(p);
      if PackageCost(rows) > 0.0 && PackageCost(p) > 0.0 {
        var i :| 0 <= i < |p| && p[i].quantity > 0 && RealTruthy(p[i].unitPrice);
        assert rows[i] == p[i];
      }
      if RowCost(r) > 0.0 {
        assert r.quantity != 0;
        assert rows[|rows| - 1] == r;
      }
    }
  }

  /** `SupplyUsage.create_from_package`: the raw row has no `room_id`
      attribute, so the record's room is None; it has `unit_price`, which
      becomes the cost per unit. The record is not yet in the session, so its
      cost falls back to no supply price. */
  function CreateFromPackage(stayId: int, row: PackageRow, usageType: UsageType,
                             verifiedBy: Option<int>): (u: Usage)
    ensures u.supplyId == row.supplyId && u.stayId == Some(stayId) && u.roomId.None?
    ensures u.quantityUsed == row.quantity && u.quantityExpected == Some(row.quantity)
    ensures u.totalCost == Some(RowCost(row))
    ensures Variance(u) == 0
  {
    var usage := Usage(row.supplyId, Some(stayId), None, row.quantity, Some(row.quantity), usageType,
                       row.unitPrice, None, false, verifiedBy, None);
    assert CalculateCost(usage, None) == RowCost(row);
    usage.(totalCost := Some(CalculateCost(usage, None)))
  }

  // ------------------------------------------------------------ cash closure

  /** A row of `cash_closure` (amounts left out). */
  datatype CashClosure = CashClosure(month: int, year: int, isDelivered: bool)

  /** `date(next_year, next_month, 5)`: the fifth of the following month,
      January of the next year after December (and after any month above
      12, which the code treats alike). None where `date` raises: a month
      below 0, or a due year outside 1..9999. */
  function DueDate(c: CashClosure): (d: Option<int>)
    ensures 1 <= c.month <= 12 && 1 <= c.year && c.year + 1 <= 9999 ==> d.Some?
    ensures c.month < 12 ==> (d.Some? <==> 0 <= c.month && 1 <= c.year <= 9999)
    ensures 0 <= c.month < 12 && 1 <= c.year <= 9999 ==> d == Some(Calendar.DaysFromCivil(c.year, c.month + 1, 5))
    ensures c.month >= 12 ==> (d.Some? <==> 0 <= c.year <= 9998)
    ensures c.month >= 12 && 0 <= c.year <= 9998 ==> d == Some(Calendar.DaysFromCivil(c.year + 1, 1, 5))
  {
    var nextMonth := if c.month < 12 then c.month + 1 else 1;
    var nextYear := if c.month < 12 then c.year else c.year + 1;
    if 1 <= nextMonth <= 12 && 1 <= nextYear <= 9999 then Some(Calendar.DaysFromCivil(nextYear, nextMonth, 5))
    else None
  }

  /** `CashClosure.is_overdue` on day `today`. */
  predicate IsOverdue(c: CashClosure, today: int) {
    !c.isDelivered && DueDate(c).Some? && today > DueDate(c).value
  }

  /** A closure is never overdue during its own month: every day of the
      month comes before the fifth of the next one, December included. */
  lemma NotOverdueWithinItsMonth(c: CashClosure, d: int)
    requires 1 <= c.month <= 12 && 1 <= d <= Calendar.DaysInMonth(c.year, c.month)
    ensures !IsOverdue(c, Calendar.DaysFromCivil(c.year, c.month, d))
  {
    if DueDate(c).Some? {
      if c.month == 2 {
        FebruaryBeforeMarch(c.year, d);
      } else {
        var nm := if c.month < 12 then c.month + 1 else 1;
        var ny := if c.month < 12 then c.year else c.year + 1;
        SameShiftedYear(c.year, c.month, d, ny, nm);
      }
    }
  }

  /** Day `d` of month `m` (not February) precedes the fifth of the next month. */
  lemma SameShiftedYear(y: int, m: int, d: int, ny: int, nm: int)
    requires 1 <= m <= 12 && m != 2 && 1 <= d <= 31
    requires nm == (if m < 12 then m + 1 else 1) && ny == (if m < 12 then y else y + 1)
    ensures Calendar.DaysFromCivil(y, m, d) < Calendar.DaysFromCivil(ny, nm, 5)
  {
    var y1 := if m <= 2 then y - 1 else y;
    var y2 := if nm <= 2 then ny - 1 else ny;
    assert y1 == y2;
    var mp := if m > 2 then m - 3 else m + 9;
    var mq := if nm > 2 then nm - 3 else nm + 9;
    assert mq == mp + 1;
    assert (153 * mq + 2) / 5 >= (153 * mp + 2) / 5 + 30;
  }

  /** The last days of February precede the fifth of March, across the
      shifted year that starts in March (and across a 400-year era). */
  lemma FebruaryBeforeMarch(y: int, d: int)
    requires 1 <= d <= 29
    ensures Calendar.DaysFromCivil(y, 2, d) < Calendar.DaysFromCivil(y, 3, 5)
  {
    var y1 := y - 1;
    var era := y1 / 400;
    var yoe := y1 - era * 400;
    assert 0 <= yoe < 400;
    assert (153 * 11 + 2) / 5 == 337;
    if yoe < 399 {
      assert y / 400 == era;
      assert y - era * 400 == yoe + 1;
      assert (yoe + 1) / 4 >= yoe / 4;
      assert (yoe + 1) / 100 <= yoe / 100 + 1;
    } else {
      assert y / 400 == era + 1;
      assert y - (era + 1) * 400 == 0;
      assert yoe / 4 == 99 && yoe / 100 == 3;
    }
  }
}
