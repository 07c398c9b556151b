/** The self-contained helpers of the legacy route files app/routes.py and
    app/routes_backup.py (with their copies in the app/routes/ package):
    phone cleaning, the status-blind overlap query `check_room_availability`,
    the booking-solution list built on it, the date check of
    `get_room_availability`, and the cell classification of the
    availability grid. Dates are day numbers. */
module LegacyRoutes {
  import opened Common
  import opened Ledger
  import AvailabilityEngine

  // ------------------------------------------------------------ clean_phone

  /** `re.sub(r'[^\d]', '', s)`: the decimal digits of `s`, in order. */
  function Digits(s: string): (r: string)
    ensures |r| <= |s|
    ensures forall i :: 0 <= i < |r| ==> IsDigit(r[i])
  {
    if s == [] then []
    else Digits(s[..|s| - 1]) + (if IsDigit(s[|s| - 1]) then [s[|s| - 1]] else [])
  }

  /** Every digit of `s` is kept as often as it occurs. */
  lemma {:induction false} DigitsCounts(s: string)
    ensures forall c :: IsDigit(c) ==> multiset(Digits(s))[c] == multiset(s)[c]
  {
    if s != [] {
      DigitsCounts(s[..|s| - 1]);
      assert s == s[..|s| - 1] + [s[|s| - 1]];
    }
  }

  /** `clean_phone`: "" for a missing or empty number, otherwise its digits. */
  function CleanPhone(phone: Option<string>): (r: string)
    ensures !StrTruthy(phone) ==> r == ""
    ensures forall i :: 0 <= i < |r| ==> IsDigit(r[i])
    ensures StrTruthy(phone) ==> forall c :: IsDigit(c) ==> multiset(r)[c] == multiset(phone.value)[c]
  {
    if !StrTruthy(phone) then "" else DigitsCounts(phone.value); Digits(phone.value)
  }

  /** Cleaning distributes over concatenation, so the digits are kept in the
      order they came. */
  lemma {:induction false} DigitsAppend(a: string, b: string)
    ensures Digits(a + b) == Digits(a) + Digits(b)
    decreases |b|
  {
    if b == [] {
      assert a + b == a;
    } else {
      var b' := b[..|b| - 1];
      assert (a + b)[..|a + b| - 1] == a + b';
      assert (a + b)[|a + b| - 1] == b[|b| - 1];
      DigitsAppend(a, b');
    }
  }

  /** A string of digits is its own cleaning. */
  lemma {:induction false} DigitsOfDigits(s: string)
    requires forall i :: 0 <= i < |s| ==> IsDigit(s[i])
    ensures Digits(s) == s
  {
    if s != [] {
      DigitsOfDigits(s[..|s| - 1]);
      assert s == s[..|s| - 1] + [s[|s| - 1]];
    }
  }

  /** A string without digits cleans to nothing. */
  lemma {:induction false} DigitsOfNonDigits(s: string)
    requires forall i :: 0 <= i < |s| ==> !IsDigit(s[i])
    ensures Digits(s) == []
  {
    if s != [] {
      DigitsOfNonDigits(s[..|s| - 1]);
    }
  }

  /** Separators contribute nothing: removing a run of non-digits from
      anywhere in a number does not change its cleaning. */
  lemma DigitsIgnoresSeparators(a: string, sep: string, b: string)
    requires forall i :: 0 <= i < |sep| ==> !IsDigit(sep[i])
    ensures Digits(a + sep + b) == Digits(a + b)
  {
    DigitsAppend(a + sep, b);
    DigitsAppend(a, sep);
    DigitsAppend(a, b);
    DigitsOfNonDigits(sep);
    assert Digits(a) + [] == Digits(a);
  }

  /** Cleaning an already cleaned number changes nothing. */
  lemma CleanPhoneIdempotent(phone: Option<string>)
    ensures CleanPhone(Some(CleanPhone(phone))) == CleanPhone(phone)
  {
    DigitsOfDigits(CleanPhone(phone));
  }

  // ------------------------------------------------ check_room_availability

  /** The rooms of the stays that overlap [a, b), whatever their status, in
      query order (one entry per stay). */
  function OverlappingRooms(stays: seq<Stay>, a: int, b: int): (r: seq<int>)
    ensures |r| <= |stays|
  {
    if stays == [] then []
    else OverlappingRooms(stays[..|stays| - 1], a, b)
         + (if Overlaps(stays[|stays| - 1], a, b) then [stays[|stays| - 1].roomId] else [])
  }

  /** `check_room_availability`: no dates, no rooms. */
  function CheckRoomAvailability(stays: seq<Stay>, checkIn: Option<int>, checkOut: Option<int>): (r: seq<int>)
    ensures checkIn.None? || checkOut.None? ==> r == []
  {
    if checkIn.None? || checkOut.None? then [] else OverlappingRooms(stays, checkIn.value, checkOut.value)
  }

  /** A room is listed iff some stay in it, of any status, starts before b
      and has no check-out or checks out after a. */
  lemma {:induction false} OverlappingRoomsMembers(stays: seq<Stay>, a: int, b: int)
    ensures forall x :: x in OverlappingRooms(stays, a, b) <==>
      exists i :: 0 <= i < |stays| && stays[i].roomId == x && Overlaps(stays[i], a, b)
  {
    if stays != [] {
      var p := stays[..|stays| - 1];
      OverlappingRoomsMembers(p, a, b);
      forall x | x in OverlappingRooms(stays, a, b)
        ensures exists i :: 0 <= i < |stays| && stays[i].roomId == x && Overlaps(stays[i], a, b)
      {
        if x in OverlappingRooms(p, a, b) {
          var i :| 0 <= i < |p| && p[i].roomId == x && Overlaps(p[i], a, b);
          assert stays[i] == p[i];
        }
      }
      forall x | exists i :: 0 <= i < |stays| && stays[i].roomId == x && Overlaps(stays[i], a, b)
        ensures x in OverlappingRooms(stays, a, b)
      {
        var i :| 0 <= i < |stays| && stays[i].roomId == x && Overlaps(stays[i], a, b);
        if i < |p| {
          assert p[i] == stays[i];
        }
      }
    }
  }

  /** The legacy query blocks at least the rooms the availability engine
      finds occupied, and also the rooms of finalised stays: a finalised stay
      whose dates overlap keeps its room unavailable here only. */
  lemma LegacyQueryBlocksMore(stays: seq<Stay>, a: int, b: int)
    ensures forall x :: x in AvailabilityEngine.OccupiedRooms(stays, a, b) ==> x in OverlappingRooms(stays, a, b)
    ensures var st := Stay(1, 1, 7, a, Some(a + 1), Finalized, "Directo");
      a < b && stays == [st] ==> 7 in OverlappingRooms(stays, a, b) && 7 !in AvailabilityEngine.OccupiedRooms(stays, a, b)
  {
    OverlappingRoomsMembers(stays, a, b);
    AvailabilityEngine.OccupiedRoomsMembers(stays, a, b);
  }

  // ------------------------------------------------- find_booking_solutions

  datatype BookingOption = Single(roomId: int, name: string, tier: string, totalNights: int) | SplitNeeded

  /** The free rooms in room order: those whose id the query did not list. */
  function FreeRooms(rooms: seq<Room>, unavailable: seq<int>): (r: seq<Room>)
    ensures |r| <= |rooms|
    ensures forall x :: x in r <==> x in rooms && x.id !in unavailable
  {
    if rooms == [] then []
    else
      var p := rooms[..|rooms| - 1];
      var x := rooms[|rooms| - 1];
      assert rooms == p + [x];
      FreeRooms(p, unavailable) + (if x.id !in unavailable then [x] else [])
  }

  /** `find_booking_solutions` of app/routes.py: one 'single' option per free
      room, in room order, each for the whole stay; with no free room, one
      'split_needed' option and nothing else. */
  function FindBookingSolutions(rooms: seq<Room>, stays: seq<Stay>, checkIn: int, checkOut: int): (r: seq<BookingOption>)
    ensures |r| >= 1
  {
    var free := FreeRooms(rooms, OverlappingRooms(stays, checkIn, checkOut));
    if free == [] then [SplitNeeded]
    else seq(|free|, i requires 0 <= i < |free| => Single(free[i].id, free[i].name, free[i].tier, checkOut - checkIn))
  }

  /** The options are the free rooms, each for out - in nights, and a
      'split_needed' option appears, alone, exactly when no room is free.
      Otherwise there is one 'single' option per free room, in room order,
      and every room no stay overlaps is offered (BookingSolutionsComplete). */
  lemma BookingSolutionsShape(rooms: seq<Room>, stays: seq<Stay>, checkIn: int, checkOut: int)
    ensures var r := FindBookingSolutions(rooms, stays, checkIn, checkOut);
      (SplitNeeded in r <==> (forall x :: x in rooms ==>
         exists i :: 0 <= i < |stays| && stays[i].roomId == x.id && Overlaps(stays[i], checkIn, checkOut))) &&
      (SplitNeeded in r ==> r == [SplitNeeded]) &&
      (forall k :: 0 <= k < |r| && r[k].Single? ==>
         r[k].totalNights == checkOut - checkIn &&
         exists x :: x in rooms && x.id == r[k].roomId &&
           forall i :: 0 <= i < |stays| && stays[i].roomId == x.id ==> !Overlaps(stays[i], checkIn, checkOut))
  {
    var unavailable := OverlappingRooms(stays, checkIn, checkOut);
    var free := FreeRooms(rooms, unavailable);
    var r := FindBookingSolutions(rooms, stays, checkIn, checkOut);
    OverlappingRoomsMembers(stays, checkIn, checkOut);
    if free != [] {
      assert free[0] in free;
      assert SplitNeeded !in r by {
        forall k | 0 <= k < |r| ensures r[k] != SplitNeeded {
        }
      }
      forall k | 0 <= k < |r| && r[k].Single?
        ensures exists x :: (x in rooms && x.id == r[k].roomId &&
          forall i :: 0 <= i < |stays| && stays[i].roomId == x.id ==> !Overlaps(stays[i], checkIn, checkOut))
      {
        assert free[k] in free;
      }
    } else {
      forall x | x in rooms
        ensures exists i :: 0 <= i < |stays| && stays[i].roomId == x.id && Overlaps(stays[i], checkIn, checkOut)
      {
        assert x !in free;
      }
    }
  }

  /** When some room is free there is one 'single' option per free room, in
      room order, and every room no stay overlaps is offered for the whole
      stay. */
  lemma BookingSolutionsComplete(rooms: seq<Room>, stays: seq<Stay>, checkIn: int, checkOut: int)
    ensures var r := FindBookingSolutions(rooms, stays, checkIn, checkOut);
      var free := FreeRooms(rooms, OverlappingRooms(stays, checkIn, checkOut));
      SplitNeeded !in r ==>
        |r| == |free| &&
        forall k :: 0 <= k < |r| ==> r[k] == Single(free[k].id, free[k].name, free[k].tier, checkOut - checkIn)
    ensures var r := FindBookingSolutions(rooms, stays, checkIn, checkOut);
      forall x :: x in rooms && (forall i :: 0 <= i < |stays| && stays[i].roomId == x.id ==> !Overlaps(stays[i], checkIn, checkOut)) ==>
        exists k :: 0 <= k < |r| && r[k] == Single(x.id, x.name, x.tier, checkOut - checkIn)
  {
    var free := FreeRooms(rooms, OverlappingRooms(stays, checkIn, checkOut));
    var r := FindBookingSolutions(rooms, stays, checkIn, checkOut);
    OverlappingRoomsMembers(stays, checkIn, checkOut);
    forall x | x in rooms && (forall i :: 0 <= i < |stays| && stays[i].roomId == x.id ==> !Overlaps(stays[i], checkIn, checkOut))
      ensures exists k :: 0 <= k < |r| && r[k] == Single(x.id, x.name, x.tier, checkOut - checkIn)
    {
      assert x in free;
      var k :| 0 <= k < |free| && free[k] == x;
      assert r[k] == Single(x.id, x.name, x.tier, checkOut - checkIn);
    }
  }

  // --------------------------------------------------- get_room_availability

  datatype RoomAvailability = RoomAvailability(roomId: int, available: bool)

  /** `get_room_availability`: both dates are required and the check-out must
      come after the check-in; then every room, in room order, is available
      iff the status-blind query did not list it. */
  function GetRoomAvailability(rooms: seq<Room>, stays: seq<Stay>, checkIn: Option<int>, checkOut: Option<int>)
    : (r: Option<seq<RoomAvailability>>)
    ensures r.Some? <==> checkIn.Some? && checkOut.Some? && checkIn.value < checkOut.value
    ensures r.Some? ==> |r.value| == |rooms| && forall k :: 0 <= k < |rooms| ==> r.value[k].roomId == rooms[k].id
  {
    if checkIn.None? || checkOut.None? || checkIn.value >= checkOut.value then None
    else
      var unavailable := CheckRoomAvailability(stays, checkIn, checkOut);
      Some(seq(|rooms|, k requires 0 <= k < |rooms| => RoomAvailability(rooms[k].id, rooms[k].id !in unavailable)))
  }

  /** A room is reported available iff no stay in it, whatever its status,
      overlaps the requested nights. */
  lemma RoomAvailableIff(rooms: seq<Room>, stays: seq<Stay>, checkIn: int, checkOut: int, k: int)
    requires checkIn < checkOut && 0 <= k < |rooms|
    ensures GetRoomAvailability(rooms, stays, Some(checkIn), Some(checkOut)).value[k].available <==>
      forall i :: 0 <= i < |stays| && stays[i].roomId == rooms[k].id ==> !Overlaps(stays[i], checkIn, checkOut)
  {
    OverlappingRoomsMembers(stays, checkIn, checkOut);
  }

  // ------------------------------------------------------ availability grid

  /** The grid spans thirty days from today. */
  const GridDays := 30

  /** The stays the grid query loads: Activa or Pendiente de Cierre,
      checking in by the day after the grid and not checked out before today. */
  predicate InGridWindow(st: Stay, today: int) {
    HoldsRoom(st.status) && st.checkIn <= today + GridDays && (st.checkOut.None? || st.checkOut.value >= today)
  }

  function GridStays(stays: seq<Stay>, today: int): seq<Stay> {
    Filter(stays, (st: Stay) => InGridWindow(st, today))
  }

  /** The last day a stay covers for the grid: its check-out, inclusive, or a
      year from today for an open stay. */
  function CoverEnd(st: Stay, today: int): int {
    if st.checkOut.Some? then st.checkOut.value else today + 365
  }

  predicate Covers(st: Stay, roomId: int, d: int, today: int) {
    st.roomId == roomId && st.checkIn <= d <= CoverEnd(st, today)
  }

  /** The first stay of `stays` in `roomId` covering day `d` (the loop breaks
      at the first one). */
  function CoveringStay(stays: seq<Stay>, roomId: int, d: int, today: int): (r: Option<Stay>)
    ensures r.Some? ==> (Covers(r.value, roomId, d, today) &&
      exists i :: 0 <= i < |stays| && stays[i] == r.value && forall j :: 0 <= j < i ==> !Covers(stays[j], roomId, d, today))
    ensures r.None? <==> forall i :: 0 <= i < |stays| ==> !Covers(stays[i], roomId, d, today)
  {
    if stays == [] then None
    else if Covers(stays[0], roomId, d, today) then Some(stays[0])
    else
      var rest := CoveringStay(stays[1..], roomId, d, today);
      assert forall i :: 1 <= i < |stays| ==> stays[i] == stays[1..][i - 1];
      rest
  }

  datatype Cell = Maintenance | CheckIn(stayId: int) | CheckOut(stayId: int) | Occupied(stayId: int) | Available

  /** A cell of the grid: a room in maintenance is shown so whatever its
      stays; otherwise the covering stay gives a check-in on its first day, a
      check-out on its check-out day (an open stay has none) and occupied in
      between; with no covering stay the cell is available. */
  function CellStatus(room: Room, stays: seq<Stay>, d: int, today: int): Cell {
    if room.status == "Mantenimiento" then Maintenance
    else
      match CoveringStay(stays, room.id, d, today)
      case None => Available
      case Some(st) =>
        if st.checkIn == d then CheckIn(st.id)
        else if st.checkOut == Some(d) then CheckOut(st.id)
        else Occupied(st.id)
  }

  /** Maintenance wins over everything; otherwise a cell of the grid's
      window is taken iff a holding stay in the room covers that day, and a
      check-out cell always belongs to a stay with that check-out day. */
  lemma CellClassification(room: Room, stays: seq<Stay>, today: int, i: int)
    requires 0 <= i < GridDays
    ensures var c := CellStatus(room, GridStays(stays, today), today + i, today);
      (room.status == "Mantenimiento" ==> c == Maintenance) &&
      (room.status != "Mantenimiento" ==>
         (c == Available <==> forall st :: st in stays && HoldsRoom(st.status) ==> !Covers(st, room.id, today + i, today))) &&
      (c.CheckOut? ==> exists st :: st in stays && st.id == c.stayId && st.checkOut == Some(today + i) && st.checkIn != today + i) &&
      (c.CheckIn? ==> exists st :: st in stays && st.id == c.stayId && st.checkIn == today + i)
  {
    GridStaysMembers(stays, today);
    var cov := CoveringStay(GridStays(stays, today), room.id, today + i, today);
    if cov.Some? {
      assert cov.value in GridStays(stays, today);
    }
  }

  /** The grid loads exactly the stays of its window, so a holding stay that
      covers one of its days is loaded. */
  lemma GridStaysMembers(stays: seq<Stay>, today: int)
    ensures forall st :: st in GridStays(stays, today) <==> st in stays && InGridWindow(st, today)
  {
    FilterMembers(stays, (st: Stay) => InGridWindow(st, today));
  }

  /** The grid: one row per room in room order, one cell per day from today. */
  method GetAvailabilityGrid(rooms: seq<Room>, stays: seq<Stay>, today: int) returns (cells: seq<seq<Cell>>)
    ensures |cells| == |rooms|
    ensures forall r :: 0 <= r < |rooms| ==> |cells[r]| == GridDays
    ensures forall r, i :: 0 <= r < |rooms| && 0 <= i < GridDays ==>
      cells[r][i] == CellStatus(rooms[r], GridStays(stays, today), today + i, today)
  {
    var loaded := GridStays(stays, today);
    cells := [];
    for r := 0 to |rooms|
      invariant |cells| == r
      invariant forall q :: 0 <= q < r ==> |cells[q]| == GridDays
      invariant forall q, i :: 0 <= q < r && 0 <= i < GridDays ==>
        cells[q][i] == CellStatus(rooms[q], loaded, today + i, today)
    {
      var row := [];
      for i := 0 to GridDays
        invariant |row| == i
        invariant forall j :: 0 <= j < i ==> row[j] == CellStatus(rooms[r], loaded, today + j, today)
      {
        row := row + [CellStatus(rooms[r], loaded, today + i, today)];
      }
      cells := cells + [row];
    }
  }
}
