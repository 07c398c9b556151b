/** The lodging records of models.py: rooms, stays and the rules attached to
    them (tier hierarchy, closability), plus the overlap test every
    availability query of the system is built from. Dates are day numbers. */
module Ledger {
  import opened Common

  /** `Stay.status`; the code only ever writes these three values. */
  datatype StayStatus = Active | PendingClosure | Finalized

  /** A row of `room`: `tier` is free text ('Queen'/'King' in the yield
      engine, 'Económica'…'Suite' in the availability engine). */
  datatype Room = Room(id: int, name: string, status: string, tier: string, hasPackage: bool)

  /** A row of `stay`; `checkOut` is NULL for an open-ended stay. */
  datatype Stay = Stay(id: int, clientId: int, roomId: int, checkIn: int, checkOut: Option<int>,
                       status: StayStatus, channel: string)

  /** The statuses that hold a room: 'Activa' and 'Pendiente de Cierre'. */
  predicate HoldsRoom(s: StayStatus) {
    s == Active || s == PendingClosure
  }

  /** The SQL filter `check_in < b AND (check_out IS NULL OR check_out > a)`. */
  predicate Overlaps(st: Stay, a: int, b: int) {
    st.checkIn < b && (st.checkOut.None? || st.checkOut.value > a)
  }

  /** Half-open intervals: a stay that ends on the day another begins does not
      overlap it, in either direction. */
  lemma SameDayTurnover(st: Stay, a: int, b: int)
    requires st.checkOut == Some(a) || st.checkIn == b
    ensures !Overlaps(st, a, b)
  {
  }

  /** `Room.get_tier_hierarchy_value`: Queen 1, King 2, anything else 0. */
  function TierRank(tier: string): (r: int)
    ensures 0 <= r <= 2
    ensures r == 1 <==> tier == "Queen"
    ensures r == 2 <==> tier == "King"
  {
    match tier
    case "Queen" => 1
    case "King" => 2
    case _ => 0
  }

  /** `Room.can_upgrade_to`: only Queen to King, and never to a missing room. */
  predicate CanUpgradeTo(from: Room, to: Option<Room>) {
    to.Some? && from.tier == "Queen" && to.value.tier == "King"
  }

  /** `Room.get_tier_display`: an icon, a space and the tier's name; the
      queen for Queen, the crown for King and a hotel for any other tier. */
  function TierDisplay(tier: string): (d: string)
    ensures |d| == |tier| + 2 && d[1] == ' ' && d[2..] == tier
    ensures d[0] == '\U{1F478}' <==> tier == "Queen"
    ensures d[0] == '\U{1F451}' <==> tier == "King"
  {
    match tier
    case "Queen" => "\U{1F478} Queen"
    case "King" => "\U{1F451} King"
    case _ => "\U{1F3E8} " + tier
  }

  /** `Room.is_better_than`: strictly higher rank, and always better than no room. */
  predicate IsBetterThan(r: Room, other: Option<Room>) {
    other.None? || TierRank(r.tier) > TierRank(other.value.tier)
  }

  /** An allowed upgrade always lands in a better room, and "better" is a strict order. */
  lemma UpgradeIsBetter(a: Room, b: Room, c: Room)
    ensures CanUpgradeTo(a, Some(b)) ==> IsBetterThan(b, Some(a)) && !IsBetterThan(a, Some(b))
    ensures !IsBetterThan(a, Some(a))
    ensures IsBetterThan(a, Some(b)) && IsBetterThan(b, Some(c)) ==> IsBetterThan(a, Some(c))
  {
  }

  /** `Stay.can_be_closed`. */
  predicate CanBeClosed(st: Stay) {
    st.status == Active && st.checkOut.Some?
  }

  /** `stay.room` / `Room.query.get(id)`: the room with that id, if any. */
  function RoomById(rooms: seq<Room>, id: int): (r: Option<Room>)
    ensures r.Some? ==> r.value in rooms && r.value.id == id
    ensures r.None? ==> forall x :: x in rooms ==> x.id != id
  {
    if rooms == [] then None
    else if rooms[0].id == id then Some(rooms[0])
    else RoomById(rooms[1..], id)
  }

  /** `Room.query.filter(~Room.id.in_(occupied))`, narrowed to `tier` when it
      is truthy: the rooms of `rooms` whose id is not in `occupied`, in query order. */
  function FreeRoomsOfTier(rooms: seq<Room>, occupied: seq<int>, tier: Option<string>): seq<Room> {
    if rooms == [] then []
    else
      var r := rooms[|rooms| - 1];
      FreeRoomsOfTier(rooms[..|rooms| - 1], occupied, tier)
      + (if r.id !in occupied && (StrTruthy(tier) ==> r.tier == tier.value) then [r] else [])
  }

  /** The query keeps exactly the rooms that are not occupied and of the tier. */
  lemma {:induction false} FreeRoomsOfTierMembers(rooms: seq<Room>, occupied: seq<int>, tier: Option<string>)
    ensures |FreeRoomsOfTier(rooms, occupied, tier)| <= |rooms|
    ensures forall r :: r in FreeRoomsOfTier(rooms, occupied, tier) <==>
      r in rooms && r.id !in occupied && (StrTruthy(tier) ==> r.tier == tier.value)
  {
    if rooms != [] {
      FreeRoomsOfTierMembers(rooms[..|rooms| - 1], occupied, tier);
      assert rooms == rooms[..|rooms| - 1] + [rooms[|rooms| - 1]];
    }
  }
}
