/** The database the inventory and stay routes update in place: rooms,
    stays, supplies, supply-usage records and the package table. Rooms,
    stays and supplies are found by id (`Query.get`); a usage record's id is
    its position in `usages`, new records taking the next position as the
    autoincrement key would. */
module Store {
  import opened Common
  import opened Ledger
  import opened Supplies

  class Db {
    var rooms: map<int, Room>
    var stays: map<int, Stay>
    var supplies: map<int, Supply>
    var usages: seq<Usage>
    var packages: seq<PackageItem>

    /** The schema's constraints the routes rely on: a stay's room exists, a
        usage's supply exists (`supply_id` is a non-null foreign key) and the
        package table's composite key is unique. */
    ghost predicate Valid()
      reads this
    {
      (forall id :: id in stays ==> stays[id].roomId in rooms) &&
      Linked(Inventory(supplies, usages)) &&
      KeysUnique(packages)
    }
  }

  /** How a stock route ended: the change was committed, or the request was
      turned away (missing or falsy data, no such row, not enough stock, an
      action the route does not know, a row that already exists, or an
      exception caught and rolled back). */
  datatype Outcome = Updated | Invalid | NotFound | Insufficient | UnknownAction | Duplicate | Failed

  /** The supplies with the stock of `sid` replaced and every other column kept. */
  function WithStock(supplies: map<int, Supply>, sid: int, stock: int): (m: map<int, Supply>)
    requires sid in supplies
    ensures m.Keys == supplies.Keys
    ensures forall other :: other in m ==> m[other] == if other == sid then supplies[sid].(currentStock := stock) else supplies[other]
  {
    supplies[sid := supplies[sid].(currentStock := stock)]
  }

  /** Sum of `quantity_used` over the records of supply `sid`, leaving out
      the 'Ajuste' records: each documents a change already written into the
      record it adjusts. */
  function Recorded(usages: seq<Usage>, sid: int): int {
    if usages == [] then 0 else Recorded(usages[..|usages| - 1], sid) + Counted(usages[|usages| - 1], sid)
  }

  /** What one record adds to the total of supply `sid`. */
  function Counted(u: Usage, sid: int): int {
    if u.supplyId == sid && u.usageType != Adjustment then u.quantityUsed else 0
  }

  /** Rewriting one record changes the total by the difference of what the
      old and the new record count. */
  lemma {:induction false} RecordedUpdate(usages: seq<Usage>, k: nat, v: Usage, sid: int)
    requires k < |usages|
    ensures Recorded(usages[k := v], sid) == Recorded(usages, sid) - Counted(usages[k], sid) + Counted(v, sid)
  {
    var n := |usages| - 1;
    var updated := usages[k := v];
    if k < n {
      assert updated[..n] == usages[..n][k := v];
      RecordedUpdate(usages[..n], k, v, sid);
    } else {
      assert updated[..n] == usages[..n];
    }
  }

  /** Appending records adds their quantities to the total of their supply. */
  lemma {:induction false} RecordedAppend(usages: seq<Usage>, more: seq<Usage>, sid: int)
    ensures Recorded(usages + more, sid) == Recorded(usages, sid) + Recorded(more, sid)
  {
    if more != [] {
      var p := more[..|more| - 1];
      RecordedAppend(usages, p, sid);
      assert (usages + more)[..|usages + more| - 1] == usages + p;
    } else {
      assert usages + more == usages;
    }
  }

  /** The stock side and the usage side of the inventory books together. */
  datatype Inventory = Inventory(supplies: map<int, Supply>, usages: seq<Usage>)

  /** Every usage record names an existing supply (`usage.supply` is never None). */
  predicate Linked(inv: Inventory) {
    forall k :: 0 <= k < |inv.usages| ==> inv.usages[k].supplyId in inv.supplies
  }

  /** A record of an existing supply keeps the books linked. */
  lemma LinkedAppend(inv: Inventory, u: Usage)
    requires Linked(inv) && u.supplyId in inv.supplies
    ensures Linked(Inventory(inv.supplies, inv.usages + [u]))
  {
  }

  /** Changing a stock level keeps the books linked. */
  lemma LinkedWithStock(inv: Inventory, sid: int, stock: int)
    requires Linked(inv) && sid in inv.supplies
    ensures Linked(Inventory(WithStock(inv.supplies, sid, stock), inv.usages))
  {
  }

  function StockOf(inv: Inventory, sid: int): int
    requires sid in inv.supplies
  {
    inv.supplies[sid].currentStock
  }

  /** Every unit taken off a shelf is recorded as used and nothing else
      moves: stock on hand plus recorded use is the same for every supply. */
  ghost predicate Conserves(a: Inventory, b: Inventory) {
    a.supplies.Keys == b.supplies.Keys &&
    forall sid :: sid in a.supplies ==>
      StockOf(b, sid) + Recorded(b.usages, sid) == StockOf(a, sid) + Recorded(a.usages, sid)
  }

  /** No supply is taken below zero: a stock that ends negative did not go down. */
  ghost predicate NoNewNegative(a: Inventory, b: Inventory) {
    a.supplies.Keys == b.supplies.Keys &&
    forall sid :: sid in a.supplies ==> StockOf(b, sid) >= 0 || StockOf(b, sid) >= StockOf(a, sid)
  }

  lemma ConservesTrans(a: Inventory, b: Inventory, c: Inventory)
    requires Conserves(a, b) && Conserves(b, c)
    ensures Conserves(a, c)
  {
  }

  lemma NoNewNegativeTrans(a: Inventory, b: Inventory, c: Inventory)
    requires NoNewNegative(a, b) && NoNewNegative(b, c)
    ensures NoNewNegative(a, c)
  {
  }

  /** Taking `q` units of supply `sid` off the shelf and recording a usage
      of `q` units of it keeps the books balanced. */
  lemma DeductAndRecord(inv: Inventory, sid: int, q: int, u: Usage)
    requires sid in inv.supplies && u.supplyId == sid && u.quantityUsed == q && u.usageType != Adjustment
    ensures Conserves(inv, Inventory(WithStock(inv.supplies, sid, StockOf(inv, sid) - q), inv.usages + [u]))
    ensures Linked(inv) ==> Linked(Inventory(WithStock(inv.supplies, sid, StockOf(inv, sid) - q), inv.usages + [u]))
  {
    var usages := inv.usages + [u];
    assert usages[..|inv.usages|] == inv.usages;
    forall other | other in inv.supplies
      ensures Recorded(usages, other) == Recorded(inv.usages, other) + (if other == sid then q else 0)
    {
    }
  }
}
